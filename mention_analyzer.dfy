/** The mention analyser: finds the target brand and its competitors in
    provider answers, scores where the first mention falls, flattens the
    results into one record per (answer, brand), summarises them per brand,
    and gathers the answers of a run from its per-query output records. */
module MentionAnalyzer {
  import opened Wrappers
  import opened Strings
  import opened Sorting
  import opened Matching
  import opened Sequences

  /** A competitor of the brand registry: its name and the aliases it is found by. */
  datatype Competitor = Competitor(name: string, aliases: seq<string>)

  /** The brand registry: the target brand, then the competitors in registry order. */
  datatype Registry = Registry(targetName: string, targetAliases: seq<string>, competitors: seq<Competitor>)

  /** What the analyser learns about one brand in one answer. */
  datatype Mention = Mention(
    brand: string,
    isTarget: bool,
    found: bool,
    count: nat,
    firstPosition: Option<nat>,
    textLength: nat)

  /** One provider's answer to one query. */
  datatype Answer = Answer(questionId: int, question: string, answer: string)

  /** One row of the analysis table. The score is in tenths: 10, 6, 3 or 0
      stand for 1.0, 0.6, 0.3 and 0.0. */
  datatype AnalysisRecord = AnalysisRecord(
    questionId: int,
    brand: string,
    isTarget: bool,
    found: bool,
    count: nat,
    mostMentioned: string,
    score: nat)

  // ---------------------------------------------------------------------
  // Detecting mentions
  // ---------------------------------------------------------------------

  /** The match starts of every alias in the lower-cased text, alias after
      alias in list order, exactly as the `extend` loop collects them. */
  function AliasMatches(textLower: string, aliases: seq<string>): (r: seq<nat>)
    ensures forall k :: 0 <= k < |r| ==> r[k] <= |textLower|
    ensures r != [] ==> 0 < |textLower|
  {
    if aliases == [] then []
    else
      FindAllInsideText(textLower, Lower(aliases[|aliases| - 1]));
      AliasMatches(textLower, aliases[..|aliases| - 1]) + FindAll(textLower, Lower(aliases[|aliases| - 1]))
  }

  /** The smallest element of a non-empty list. */
  function Least(s: seq<nat>): (m: nat)
    requires |s| > 0
    ensures m in s
    ensures forall i :: 0 <= i < |s| ==> m <= s[i]
  {
    if |s| == 1 then s[0]
    else
      var r := Least(s[1..]);
      if s[0] <= r then s[0] else r
  }

  /** Every collected start is the start of a whole-word match of one of the aliases. */
  lemma {:induction false} AliasMatchesAreMatches(textLower: string, aliases: seq<string>)
    ensures forall k :: 0 <= k < |AliasMatches(textLower, aliases)| ==>
      exists a :: a in aliases && MatchAt(textLower, Lower(a), AliasMatches(textLower, aliases)[k])
  {
    if aliases != [] {
      var init, last := aliases[..|aliases| - 1], aliases[|aliases| - 1];
      AliasMatchesAreMatches(textLower, init);
      FindFromSound(textLower, Lower(last), 0);
      var front, back := AliasMatches(textLower, init), FindAll(textLower, Lower(last));
      assert AliasMatches(textLower, aliases) == front + back;
      forall k | 0 <= k < |front| + |back|
        ensures exists a :: a in aliases && MatchAt(textLower, Lower(a), (front + back)[k])
      {
        if k < |front| {
          var a :| a in init && MatchAt(textLower, Lower(a), front[k]);
          assert a in aliases;
        } else {
          assert (front + back)[k] == back[k - |front|];
          assert MatchAt(textLower, Lower(last), back[k - |front|]);
          assert last in aliases;
        }
      }
    } else {
      assert AliasMatches(textLower, aliases) == [];
    }
  }

  /** Every match `FindAll` reports for an alias is collected. A whole-word
      occurrence that starts inside an earlier reported match of the same
      alias is not reported, as with `re.finditer`. */
  lemma {:induction false} AliasMatchesContainAll(textLower: string, aliases: seq<string>, i: nat)
    requires i < |aliases|
    ensures forall j :: j in FindAll(textLower, Lower(aliases[i])) ==> j in AliasMatches(textLower, aliases)
  {
    var init := aliases[..|aliases| - 1];
    if i < |aliases| - 1 {
      AliasMatchesContainAll(textLower, init, i);
      assert init[i] == aliases[i];
    }
  }

  /** The mention of one brand: how often and how early any of its aliases
      occurs as a whole word in the lower-cased text. */
  function BrandMention(text: string, brand: string, isTarget: bool, aliases: seq<string>): (m: Mention)
    ensures m.firstPosition.Some? ==> 0 < m.textLength && m.firstPosition.value <= m.textLength
  {
    var ms := AliasMatches(Lower(text), aliases);
    Mention(brand, isTarget, |ms| > 0, |ms|, if ms == [] then None else Some(Least(ms)), |text|)
  }

  /** A detected first position lies within its (non-empty) text. */
  predicate WellPlaced(m: Mention) {
    m.firstPosition.Some? ==> 0 < m.textLength && m.firstPosition.value <= m.textLength
  }

  /** The mentions of the competitors, in registry order. */
  function CompetitorMentions(text: string, competitors: seq<Competitor>): (ms: seq<Mention>)
    ensures |ms| == |competitors|
    ensures forall i :: 0 <= i < |ms| ==> WellPlaced(ms[i])
  {
    if competitors == [] then []
    else
      var c := competitors[|competitors| - 1];
      CompetitorMentions(text, competitors[..|competitors| - 1]) + [BrandMention(text, c.name, false, c.aliases)]
  }

  lemma {:induction false} CompetitorMentionsAt(text: string, competitors: seq<Competitor>, i: nat)
    requires i < |competitors|
    ensures CompetitorMentions(text, competitors)[i]
      == BrandMention(text, competitors[i].name, false, competitors[i].aliases)
  {
    if i < |competitors| - 1 {
      CompetitorMentionsAt(text, competitors[..|competitors| - 1], i);
    }
  }

  /** The mentions `detect_mentions` reports: the target first, then every
      competitor in registry order. */
  function Mentions(text: string, reg: Registry): (ms: seq<Mention>)
    ensures |ms| == 1 + |reg.competitors|
    ensures forall i :: 0 <= i < |ms| ==> WellPlaced(ms[i])
  {
    [BrandMention(text, reg.targetName, true, reg.targetAliases)] + CompetitorMentions(text, reg.competitors)
  }

  /** The brand name and aliases behind the `i`-th mention. */
  function BrandName(reg: Registry, i: nat): string
    requires i <= |reg.competitors|
  {
    if i == 0 then reg.targetName else reg.competitors[i - 1].name
  }

  function BrandAliases(reg: Registry, i: nat): seq<string>
    requires i <= |reg.competitors|
  {
    if i == 0 then reg.targetAliases else reg.competitors[i - 1].aliases
  }

  /** What each reported mention says: the brand in registry order with the
      target alone flagged; the count is the number of whole-word alias
      matches; `found` holds exactly when it is positive; the first position
      is absent exactly when there is no match, and otherwise is the start of
      a match that no match of any alias precedes; the text length is that
      of the original text. */
  lemma MentionFacts(text: string, reg: Registry, i: nat)
    requires i <= |reg.competitors|
    ensures var m := Mentions(text, reg)[i];
      && m.brand == BrandName(reg, i)
      && (m.isTarget <==> i == 0)
      && m.count == |AliasMatches(Lower(text), BrandAliases(reg, i))|
      && (m.found <==> m.count > 0)
      && (m.firstPosition.None? <==> m.count == 0)
      && m.textLength == |text|
    ensures var m := Mentions(text, reg)[i];
      m.firstPosition.Some? ==>
        (exists a :: a in BrandAliases(reg, i) && MatchAt(Lower(text), Lower(a), m.firstPosition.value))
        && forall a, j :: a in BrandAliases(reg, i) && j in FindAll(Lower(text), Lower(a)) ==>
             m.firstPosition.value <= j
  {
    var aliases := BrandAliases(reg, i);
    var m := Mentions(text, reg)[i];
    if i > 0 {
      CompetitorMentionsAt(text, reg.competitors, i - 1);
    }
    assert m == BrandMention(text, BrandName(reg, i), i == 0, aliases);
    FirstPositionIsEarliest(text, BrandName(reg, i), i == 0, aliases);
  }

  /** The first position of a mention is the start of some alias's match
      and comes no later than any match of any alias. */
  lemma FirstPositionIsEarliest(text: string, name: string, isTarget: bool, aliases: seq<string>)
    ensures var m := BrandMention(text, name, isTarget, aliases);
      m.firstPosition.Some? ==>
        (exists a :: a in aliases && MatchAt(Lower(text), Lower(a), m.firstPosition.value))
        && forall a, j :: a in aliases && j in FindAll(Lower(text), Lower(a)) ==>
             m.firstPosition.value <= j
  {
    var m := BrandMention(text, name, isTarget, aliases);
    var ms := AliasMatches(Lower(text), aliases);
    if m.firstPosition.Some? {
      AliasMatchesAreMatches(Lower(text), aliases);
      var k :| 0 <= k < |ms| && ms[k] == Least(ms);
      forall a, j | a in aliases && j in FindAll(Lower(text), Lower(a))
        ensures m.firstPosition.value <= j
      {
        var ai :| 0 <= ai < |aliases| && aliases[ai] == a;
        AliasMatchesContainAll(Lower(text), aliases, ai);
      }
    }
  }

  /** The match collection loop shared by the target and every competitor. */
  method CollectMatches(textLower: string, aliases: seq<string>) returns (matches: seq<nat>)
    ensures matches == AliasMatches(textLower, aliases)
  {
    matches := [];
    for k := 0 to |aliases|
      invariant matches == AliasMatches(textLower, aliases[..k])
    {
      matches := matches + FindAll(textLower, Lower(aliases[k]));
      assert aliases[..k + 1][..k] == aliases[..k];
    }
    assert aliases[..|aliases|] == aliases;
  }

  /** Sort key of a match: its start. */
  function MatchStart(m: nat): int { m }

  /** After sorting the matches by start, the first is the earliest one. */
  lemma SortedFirstIsLeast(ms: seq<nat>)
    requires |ms| > 0
    ensures |SortBy(ms, MatchStart)| == |ms| && SortBy(ms, MatchStart)[0] == Least(ms)
  {
    SortedHeadIsLeast(ms, MatchStart);
    var h := SortBy(ms, MatchStart)[0];
    var k :| 0 <= k < |ms| && ms[k] == h;
    var l :| 0 <= l < |ms| && ms[l] == Least(ms);
    assert MatchStart(h) <= MatchStart(ms[l]);
  }

  /** The mention built from the sorted matches of a brand is `BrandMention`. */
  lemma MentionFromSortedMatches(text: string, brand: string, isTarget: bool, aliases: seq<string>)
    ensures var ms := SortBy(AliasMatches(Lower(text), aliases), MatchStart);
      Mention(brand, isTarget, |ms| > 0, |ms|, if |ms| > 0 then Some(ms[0]) else None, |text|)
        == BrandMention(text, brand, isTarget, aliases)
  {
    var ms := AliasMatches(Lower(text), aliases);
    if |ms| > 0 {
      SortedFirstIsLeast(ms);
    }
  }

  /** The block `detect_mentions` runs for the target and again for each
      competitor: collect the alias matches, sort them, count them. */
  method DetectBrand(text: string, textLower: string, brand: string, isTarget: bool, aliases: seq<string>)
    returns (m: Mention)
    requires textLower == Lower(text)
    ensures m == BrandMention(text, brand, isTarget, aliases)
  {
    var matches := CollectMatches(textLower, aliases);
    matches := SortBy(matches, MatchStart);
    MentionFromSortedMatches(text, brand, isTarget, aliases);
    m := Mention(brand, isTarget, |matches| > 0, |matches|,
      if |matches| > 0 then Some(matches[0]) else None, |text|);
  }

  /** `MentionsAnalyzer.detect_mentions`, with the target's name passed in. */
  method DetectMentions(text: string, reg: Registry) returns (mentions: seq<Mention>)
    ensures mentions == Mentions(text, reg)
  {
    var textLower := Lower(text);
    var target := DetectBrand(text, textLower, reg.targetName, true, reg.targetAliases);
    mentions := [target];
    for i := 0 to |reg.competitors|
      invariant mentions == [target] + CompetitorMentions(text, reg.competitors[..i])
    {
      var competitor := reg.competitors[i];
      var m := DetectBrand(text, textLower, competitor.name, false, competitor.aliases);
      mentions := mentions + [m];
      assert reg.competitors[..i + 1][..i] == reg.competitors[..i];
    }
    assert reg.competitors[..|reg.competitors|] == reg.competitors;
  }

  // ---------------------------------------------------------------------
  // Position score
  // ---------------------------------------------------------------------

  /** `calculate_position_score` in tenths. The relative position
      `first_position / text_length` is compared with 0.20 and 0.60 as the
      integer comparisons `5 * p <= n` and `5 * p <= 3 * n`. A position with
      an empty text would divide by zero, which the source does not guard. */
  function PositionScore(firstPosition: Option<nat>, textLength: nat): (score: nat)
    requires firstPosition.Some? ==> textLength > 0
    ensures score == 0 || score == 3 || score == 6 || score == 10
    ensures score == 0 <==> firstPosition.None?
  {
    match firstPosition
    case None => 0
    case Some(p) =>
      if 5 * p <= textLength then 10
      else if 5 * p <= 3 * textLength then 6
      else 3
  }

  /** The integer tiers are the source's comparisons of the real quotient
      `p / n` with 0.20 and 0.60. */
  lemma PositionScoreTiers(p: nat, n: nat)
    requires n > 0
    ensures var rel := (p as real) / (n as real);
      && (PositionScore(Some(p), n) == 10 <==> rel <= 0.20)
      && (PositionScore(Some(p), n) == 6 <==> 0.20 < rel <= 0.60)
      && (PositionScore(Some(p), n) == 3 <==> 0.60 < rel)
  {
    QuotientAtMost(p, n, 0.20);
    QuotientAtMost(p, n, 0.60);
  }

  /** `p / n <= c` compares `p` with `c * n`. */
  lemma QuotientAtMost(p: nat, n: nat, c: real)
    requires n > 0
    ensures (p as real) / (n as real) <= c <==> (p as real) <= c * (n as real)
  {
    var q := (p as real) / (n as real);
    assert q * (n as real) == p as real;
    if q <= c {
      assert q * (n as real) <= c * (n as real);
    } else {
      assert q * (n as real) > c * (n as real);
    }
  }

  /** For a fixed text, a later first mention never scores higher. */
  lemma PositionScoreIsMonotone(p: nat, q: nat, n: nat)
    requires n > 0 && p <= q
    ensures PositionScore(Some(q), n) <= PositionScore(Some(p), n)
    ensures PositionScore(None, n) <= PositionScore(Some(q), n)
  {
  }

  // ---------------------------------------------------------------------
  // The analysis table
  // ---------------------------------------------------------------------

  /** Python's `max(mentions, key=count)`: the index of the first mention
      with the largest count (a later one replaces it only when strictly larger). */
  function MostMentionedIndex(ms: seq<Mention>): (k: nat)
    requires |ms| > 0
    ensures k < |ms|
    ensures forall j :: 0 <= j < |ms| ==> ms[j].count <= ms[k].count
    ensures forall j :: 0 <= j < k ==> ms[j].count < ms[k].count
  {
    MostMentionedBefore(ms, |ms|)
  }

  /** The same choice among the first `n` mentions. */
  function MostMentionedBefore(ms: seq<Mention>, n: nat): (k: nat)
    requires 0 < n <= |ms|
    ensures k < n
    ensures forall j :: 0 <= j < n ==> ms[j].count <= ms[k].count
    ensures forall j :: 0 <= j < k ==> ms[j].count < ms[k].count
  {
    if n == 1 then 0
    else
      var k := MostMentionedBefore(ms, n - 1);
      if ms[n - 1].count > ms[k].count then n - 1 else k
  }

  /** The record emitted for one mention of one answer. */
  function RecordOf(questionId: int, m: Mention, mostMentioned: string): AnalysisRecord
    requires WellPlaced(m)
  {
    AnalysisRecord(questionId, m.brand, m.isTarget, m.found, m.count, mostMentioned,
      PositionScore(m.firstPosition, m.textLength))
  }

  /** The records of the first `n` mentions of one answer. */
  function RecordsOf(questionId: int, ms: seq<Mention>, n: nat, mostMentioned: string): (rs: seq<AnalysisRecord>)
    requires n <= |ms|
    requires forall i :: 0 <= i < |ms| ==> WellPlaced(ms[i])
    ensures |rs| == n
  {
    if n == 0 then []
    else RecordsOf(questionId, ms, n - 1, mostMentioned) + [RecordOf(questionId, ms[n - 1], mostMentioned)]
  }

  lemma {:induction false} RecordsOfAt(questionId: int, ms: seq<Mention>, n: nat, mostMentioned: string, j: nat)
    requires j < n <= |ms|
    requires forall i :: 0 <= i < |ms| ==> WellPlaced(ms[i])
    ensures RecordsOf(questionId, ms, n, mostMentioned)[j] == RecordOf(questionId, ms[j], mostMentioned)
  {
    if j < n - 1 {
      RecordsOfAt(questionId, ms, n - 1, mostMentioned, j);
    }
  }

  /** The records of one answer, one per brand in mention order, all naming
      the answer's most mentioned brand. */
  function AnswerRecords(a: Answer, reg: Registry): (rs: seq<AnalysisRecord>)
    ensures |rs| == 1 + |reg.competitors|
  {
    var ms := Mentions(a.answer, reg);
    RecordsOf(a.questionId, ms, |ms|, ms[MostMentionedIndex(ms)].brand)
  }

  /** The records of one answer, as the function the table is built from. */
  function RowsOf(reg: Registry): Answer -> seq<AnalysisRecord> {
    a => AnswerRecords(a, reg)
  }

  /** The analysis table of a list of answers: answer-major, brand-minor. */
  function Analysis(answers: seq<Answer>, reg: Registry): seq<AnalysisRecord> {
    FlatMap(answers, RowsOf(reg))
  }

  /** The table of two lists one after the other is the two tables one after the other. */
  lemma AnalysisAppend(xs: seq<Answer>, ys: seq<Answer>, reg: Registry)
    ensures Analysis(xs + ys, reg) == Analysis(xs, reg) + Analysis(ys, reg)
  {
    FlatMapAppend(xs, ys, RowsOf(reg));
  }

  /** One record per answer and brand. */
  lemma AnalysisLength(answers: seq<Answer>, reg: Registry)
    ensures |Analysis(answers, reg)| == |answers| * (1 + |reg.competitors|)
  {
    FlatMapLength(answers, RowsOf(reg), 1 + |reg.competitors|);
  }

  /** `r` is answer `a`'s record for the brand at position `j` of the
      registry: it carries the answer's question id, the brand's own count,
      flags and score, and the answer's most mentioned brand, which is the
      first brand in registry order with the largest count. */
  predicate RecordFor(r: AnalysisRecord, a: Answer, reg: Registry, j: nat)
    requires j <= |reg.competitors|
  {
    var ms := Mentions(a.answer, reg);
    var top := MostMentionedIndex(ms);
    && r.questionId == a.questionId
    && r.brand == ms[j].brand && r.isTarget == ms[j].isTarget
    && r.found == ms[j].found && r.count == ms[j].count
    && r.score == PositionScore(ms[j].firstPosition, ms[j].textLength)
    && r.mostMentioned == ms[top].brand
    && (forall k :: 0 <= k < |ms| ==> ms[k].count <= ms[top].count)
    && (forall k :: 0 <= k < top ==> ms[k].count < ms[top].count)
  }

  /** Record `j` of an answer's records is its record for brand `j`. */
  lemma AnswerRecordsAt(a: Answer, reg: Registry, j: nat)
    requires j <= |reg.competitors|
    ensures RecordFor(AnswerRecords(a, reg)[j], a, reg, j)
  {
    var ms := Mentions(a.answer, reg);
    RecordsOfAt(a.questionId, ms, |ms|, ms[MostMentionedIndex(ms)].brand, j);
  }

  /** Record `k = i * B + j` of the table (with `B` brands) is record `j`
      of answer `i`. */
  lemma AnalysisAt(answers: seq<Answer>, reg: Registry, i: nat, j: nat, k: nat)
    requires i < |answers| && j <= |reg.competitors| && k == i * (1 + |reg.competitors|) + j
    ensures k < |Analysis(answers, reg)|
    ensures Analysis(answers, reg)[k] == AnswerRecords(answers[i], reg)[j]
  {
    var b := 1 + |reg.competitors|;
    assert forall a :: |RowsOf(reg)(a)| == b;
    FlatMapAt(answers, RowsOf(reg), b, i, j);
  }

  /** `MentionsAnalyzer.mention_analyzer`, with the brand registry passed in. */
  method AnalyzeAnswers(responses: seq<Answer>, reg: Registry) returns (results: seq<AnalysisRecord>)
    ensures results == Analysis(responses, reg)
  {
    results := [];
    for i := 0 to |responses|
      invariant results == Analysis(responses[..i], reg)
    {
      var answer := responses[i];
      var mentions := DetectMentions(answer.answer, reg);
      var maxBrand := mentions[MostMentionedIndex(mentions)].brand;
      results := AppendRecords(results, answer.questionId, mentions, maxBrand);
      FlatMapPrefix(responses, RowsOf(reg), i);
    }
    assert responses[..|responses|] == responses;
  }

  /** The inner loop: one record per mention of an answer, appended in
      mention order. */
  method AppendRecords(soFar: seq<AnalysisRecord>, questionId: int, mentions: seq<Mention>, maxBrand: string)
    returns (results: seq<AnalysisRecord>)
    requires forall i :: 0 <= i < |mentions| ==> WellPlaced(mentions[i])
    ensures results == soFar + RecordsOf(questionId, mentions, |mentions|, maxBrand)
  {
    results := soFar;
    for j := 0 to |mentions|
      invariant results == soFar + RecordsOf(questionId, mentions, j, maxBrand)
    {
      var mention := mentions[j];
      results := results + [AnalysisRecord(questionId, mention.brand, mention.isTarget,
        mention.found, mention.count, maxBrand, PositionScore(mention.firstPosition, mention.textLength))];
    }
  }

  function Min(a: int, b: int): int {
    if a < b then a else b
  }

  /** Answers per chunk in the chunked analysis. */
  const ChunkSize: nat := 10

  /** `MentionsAnalyzer.mention_analyzer_async`: the same analysis run on
      consecutive slices of ten answers, results appended in order. */
  method AnalyzeInChunks(responses: seq<Answer>, reg: Registry) returns (allResults: seq<AnalysisRecord>)
    ensures allResults == Analysis(responses, reg)
  {
    allResults := [];
    var i := 0;
    while i < |responses|
      invariant i <= |responses|
      invariant allResults == Analysis(responses[..i], reg)
      decreases |responses| - i
    {
      var hi := Min(i + ChunkSize, |responses|);
      var result := AnalyzeAnswers(responses[i..hi], reg);
      FlatMapSlices(responses, RowsOf(reg), i, hi);
      allResults := allResults + result;
      i := hi;
    }
    assert responses[..|responses|] == responses;
  }

  // ---------------------------------------------------------------------
  // The per-brand summary
  // ---------------------------------------------------------------------

  /** The running totals `print_summary` keeps for one brand. */
  datatype BrandStats = BrandStats(count: nat, scoreSum: nat, found: nat, isTarget: bool)

  /** The brands of the records in order of first appearance (the key order
      of the summary dictionary). */
  function Brands(rs: seq<AnalysisRecord>): seq<string> {
    if rs == [] then []
    else
      var bs := Brands(rs[..|rs| - 1]);
      if rs[|rs| - 1].brand in bs then bs else bs + [rs[|rs| - 1].brand]
  }

  /** Each brand is listed once, and exactly the brands of the records are listed. */
  lemma {:induction false} BrandsAreTheRecordBrands(rs: seq<AnalysisRecord>)
    ensures forall i, j :: 0 <= i < j < |Brands(rs)| ==> Brands(rs)[i] != Brands(rs)[j]
    ensures forall k :: 0 <= k < |rs| ==> rs[k].brand in Brands(rs)
    ensures forall b :: b in Brands(rs) ==> exists k :: 0 <= k < |rs| && rs[k].brand == b
  {
    if rs != [] {
      var init := rs[..|rs| - 1];
      BrandsAreTheRecordBrands(init);
      forall b | b in Brands(rs)
        ensures exists k :: 0 <= k < |rs| && rs[k].brand == b
      {
        if b in Brands(init) {
          var k :| 0 <= k < |init| && init[k].brand == b;
          assert rs[k] == init[k];
        } else {
          assert rs[|rs| - 1].brand == b;
        }
      }
      forall k | 0 <= k < |rs|
        ensures rs[k].brand in Brands(rs)
      {
        if k < |init| {
          assert rs[k] == init[k];
        }
      }
    }
  }

  /** The total mention count of brand `b`. */
  function CountSum(rs: seq<AnalysisRecord>, b: string): nat {
    if rs == [] then 0
    else CountSum(rs[..|rs| - 1], b) + (if rs[|rs| - 1].brand == b then rs[|rs| - 1].count else 0)
  }

  /** The total score of brand `b`, in tenths. */
  function ScoreSum(rs: seq<AnalysisRecord>, b: string): nat {
    if rs == [] then 0
    else ScoreSum(rs[..|rs| - 1], b) + (if rs[|rs| - 1].brand == b then rs[|rs| - 1].score else 0)
  }

  /** The number of records of brand `b` that found it. */
  function FoundIn(rs: seq<AnalysisRecord>, b: string): nat {
    if rs == [] then 0
    else FoundIn(rs[..|rs| - 1], b) + (if rs[|rs| - 1].brand == b && rs[|rs| - 1].found then 1 else 0)
  }

  /** The target flag of the first record of brand `b`. */
  function FirstFlag(rs: seq<AnalysisRecord>, b: string): bool {
    if rs == [] then false
    else if b in Brands(rs[..|rs| - 1]) then FirstFlag(rs[..|rs| - 1], b)
    else rs[|rs| - 1].brand == b && rs[|rs| - 1].isTarget
  }

  function Stats(rs: seq<AnalysisRecord>, b: string): BrandStats {
    BrandStats(CountSum(rs, b), ScoreSum(rs, b), FoundIn(rs, b), FirstFlag(rs, b))
  }

  /** A brand without records has all totals zero. */
  lemma {:induction false} UnlistedBrandHasNoTotals(rs: seq<AnalysisRecord>, b: string)
    requires b !in Brands(rs)
    ensures Stats(rs, b) == BrandStats(0, 0, 0, false)
  {
    if rs != [] {
      UnlistedBrandHasNoTotals(rs[..|rs| - 1], b);
    }
  }

  /** The flag kept for a brand is that of its first record. */
  lemma {:induction false} FirstFlagIsTheFirstRecords(rs: seq<AnalysisRecord>, b: string, k: nat)
    requires k < |rs| && rs[k].brand == b
    requires forall l :: 0 <= l < k ==> rs[l].brand != b
    ensures FirstFlag(rs, b) == rs[k].isTarget
  {
    var init := rs[..|rs| - 1];
    BrandsAreTheRecordBrands(init);
    if k < |rs| - 1 {
      assert init[k] == rs[k];
      FirstFlagIsTheFirstRecords(init, b, k);
    } else if b in Brands(init) {
      assert false;
    }
  }

  /** The counting loop of `print_summary`: a dictionary keyed by brand, in
      first-appearance order, with each brand's totals. */
  method Tally(results: seq<AnalysisRecord>) returns (order: seq<string>, brands: map<string, BrandStats>)
    ensures order == Brands(results)
    ensures forall b :: b in brands <==> b in order
    ensures forall b :: b in brands ==> brands[b] == Stats(results, b)
  {
    order, brands := [], map[];
    for i := 0 to |results|
      invariant Tallied(results[..i], order, brands)
    {
      var r := results[i];
      ghost var before, listed := brands, order;
      if r.brand !in brands {
        order := order + [r.brand];
      }
      brands := CountRecord(brands, r);
      CountRecordKeepsStats(results, i, listed, before, brands);
    }
    assert results[..|results|] == results;
  }

  /** The state of the counting loop after the records `rs`: the brands in
      order of first appearance, and a map holding exactly those brands,
      each with its totals over `rs`. */
  ghost predicate Tallied(rs: seq<AnalysisRecord>, order: seq<string>, brands: map<string, BrandStats>) {
    && order == Brands(rs)
    && (forall b :: b in brands <==> b in order)
    && (forall b :: b in brands ==> brands[b] == Stats(rs, b))
  }

  /** `after` is `before` with the record `r` counted: a new brand starts
      from zero totals and the record's target flag, then the record's
      count, score and found flag are added; other brands keep theirs. */
  ghost predicate Counted(before: map<string, BrandStats>, r: AnalysisRecord, after: map<string, BrandStats>) {
    && after.Keys == before.Keys + {r.brand}
    && (forall b :: b in before && b != r.brand ==> after[b] == before[b])
    && var s := if r.brand in before then before[r.brand] else BrandStats(0, 0, 0, r.isTarget);
       after[r.brand] == BrandStats(s.count + r.count, s.scoreSum + r.score, s.found + (if r.found then 1 else 0), s.isTarget)
  }

  /** The body of the counting loop for one record. */
  method CountRecord(brands: map<string, BrandStats>, r: AnalysisRecord) returns (updated: map<string, BrandStats>)
    ensures Counted(brands, r, updated)
  {
    updated := brands;
    if r.brand !in updated {
      updated := updated[r.brand := BrandStats(0, 0, 0, r.isTarget)];
    }
    var stats := updated[r.brand];
    stats := stats.(count := stats.count + r.count);
    stats := stats.(scoreSum := stats.scoreSum + r.score);
    if r.found {
      stats := stats.(found := stats.found + 1);
    }
    updated := updated[r.brand := stats];
  }

  /** Counting one more record keeps the loop's state right: the brand is
      listed when new, and the map again holds each brand's totals over one
      record more. */
  lemma CountRecordKeepsStats(rs: seq<AnalysisRecord>, i: nat, order: seq<string>, before: map<string, BrandStats>, after: map<string, BrandStats>)
    requires i < |rs|
    requires Tallied(rs[..i], order, before)
    requires Counted(before, rs[i], after)
    ensures Tallied(rs[..i + 1], if rs[i].brand in before then order else order + [rs[i].brand], after)
  {
    var r := rs[i];
    TallyStep(rs, i);
    if r.brand !in before {
      UnlistedBrandHasNoTotals(rs[..i], r.brand);
    }
    forall b | b in after
      ensures after[b] == Stats(rs[..i + 1], b)
    {
      if b != r.brand {
        assert b in before;
      }
    }
  }

  /** One more record: its brand is listed if new, its totals grow by the
      record's values, and every other brand's totals stay. */
  lemma TallyStep(rs: seq<AnalysisRecord>, i: nat)
    requires i < |rs|
    ensures var r, init := rs[i], rs[..i];
      Brands(rs[..i + 1]) == if r.brand in Brands(init) then Brands(init) else Brands(init) + [r.brand]
    ensures var r, init := rs[i], rs[..i];
      Stats(rs[..i + 1], r.brand)
        == BrandStats(CountSum(init, r.brand) + r.count, ScoreSum(init, r.brand) + r.score,
                      FoundIn(init, r.brand) + (if r.found then 1 else 0),
                      if r.brand in Brands(init) then FirstFlag(init, r.brand) else r.isTarget)
    ensures forall b :: b != rs[i].brand ==> Stats(rs[..i + 1], b) == Stats(rs[..i], b)
  {
    assert rs[..i + 1][..i] == rs[..i];
  }

  /** One printed summary line. */
  datatype SummaryLine = SummaryLine(brand: string, isTarget: bool, mentions: nat, answersFound: nat, avgScore: real)

  /** `score_sum / len(results) * len(brands)`, with the score sum in tenths. */
  function AverageScore(scoreSum: nat, records: nat, brands: nat): real
    requires records > 0
  {
    (scoreSum as real / 10.0) / (records as real) * (brands as real)
  }

  /** A score total in tenths as points per answer. */
  function MeanPoints(scoreSum: nat, answers: nat): real
    requires answers > 0
  {
    (scoreSum as real / 10.0) / (answers as real)
  }

  /** Dividing by `answers * brands` and multiplying by `brands` divides by
      `answers`. */
  lemma ScaledMean(scoreSum: nat, answers: nat, brands: nat)
    requires answers > 0 && brands > 0
    ensures AverageScore(scoreSum, answers * brands, brands) == MeanPoints(scoreSum, answers)
  {
    var x := scoreSum as real / 10.0;
    var a, b := answers as real, brands as real;
    assert (answers * brands) as real == a * b;
    var q := x / (a * b);
    assert q * (a * b) == x;
    assert (q * b) * a == x;
    assert q * b == x / a;
  }

  /** No two brands of the registry share a name: no competitor is named
      like the target or like another competitor. */
  predicate DistinctNames(reg: Registry) {
    forall i, j :: 0 <= i < j <= |reg.competitors| ==> BrandName(reg, i) != BrandName(reg, j)
  }

  /** The brand names in registry order: the target, then the competitors. */
  function RegistryNames(reg: Registry): seq<string> {
    seq(1 + |reg.competitors|, j requires 0 <= j <= |reg.competitors| => BrandName(reg, j))
  }

  /** Record `j` of every answer is about brand `j` of the registry. */
  lemma AnswerRecordBrand(a: Answer, reg: Registry, j: nat)
    requires j <= |reg.competitors|
    ensures AnswerRecords(a, reg)[j].brand == BrandName(reg, j)
  {
    AnswerRecordsAt(a, reg, j);
    MentionFacts(a.answer, reg, j);
  }

  /** One more record lists its brand at the end, unless it is listed. */
  lemma BrandsSnoc(rs: seq<AnalysisRecord>, r: AnalysisRecord)
    ensures Brands(rs + [r]) == if r.brand in Brands(rs) then Brands(rs) else Brands(rs) + [r.brand]
  {
    assert (rs + [r])[..|rs|] == rs;
  }

  /** Records whose brands are all listed already list no new brand. */
  lemma {:induction false} BrandsAddNothing(rs: seq<AnalysisRecord>, extra: seq<AnalysisRecord>)
    requires forall k :: 0 <= k < |extra| ==> extra[k].brand in Brands(rs)
    ensures Brands(rs + extra) == Brands(rs)
    decreases |extra|
  {
    if extra == [] {
      assert rs + extra == rs;
    } else {
      var init, last := extra[..|extra| - 1], extra[|extra| - 1];
      BrandsAddNothing(rs, init);
      assert rs + extra == (rs + init) + [last];
      BrandsSnoc(rs + init, last);
    }
  }

  /** Records with pairwise different brands list every brand, in record order. */
  lemma {:induction false} BrandsOfDistinct(rs: seq<AnalysisRecord>)
    requires forall i, j :: 0 <= i < j < |rs| ==> rs[i].brand != rs[j].brand
    ensures |Brands(rs)| == |rs|
    ensures forall k :: 0 <= k < |rs| ==> Brands(rs)[k] == rs[k].brand
  {
    if rs != [] {
      var init, last := rs[..|rs| - 1], rs[|rs| - 1];
      BrandsOfDistinct(init);
      assert last.brand !in Brands(init) by {
        forall k | 0 <= k < |init|
          ensures Brands(init)[k] != last.brand
        {
          assert init[k] == rs[k];
        }
      }
    }
  }

  /** With different brand names, one answer's records list the registry's
      brands in registry order. */
  lemma AnswerBrands(a: Answer, reg: Registry)
    requires DistinctNames(reg)
    ensures Brands(AnswerRecords(a, reg)) == RegistryNames(reg)
  {
    var rs := AnswerRecords(a, reg);
    forall j | 0 <= j < |rs|
      ensures rs[j].brand == BrandName(reg, j)
    {
      AnswerRecordBrand(a, reg, j);
    }
    BrandsOfDistinct(rs);
  }

  /** Every record of the table is about a brand of the registry. */
  lemma RecordsHaveRegistryNames(answers: seq<Answer>, reg: Registry)
    ensures forall k :: 0 <= k < |Analysis(answers, reg)| ==> Analysis(answers, reg)[k].brand in RegistryNames(reg)
  {
    var rs := Analysis(answers, reg);
    FlatMapMembers(answers, RowsOf(reg));
    forall k | 0 <= k < |rs|
      ensures rs[k].brand in RegistryNames(reg)
    {
      assert rs[k] in rs;
      var a :| a in answers && rs[k] in RowsOf(reg)(a);
      var j :| 0 <= j < |AnswerRecords(a, reg)| && AnswerRecords(a, reg)[j] == rs[k];
      AnswerRecordBrand(a, reg, j);
      assert RegistryNames(reg)[j] == BrandName(reg, j);
    }
  }

  /** With different brand names and at least one answer, the summary
      dictionary holds the registry's brands in registry order. */
  lemma AnalysisBrands(answers: seq<Answer>, reg: Registry)
    requires answers != [] && DistinctNames(reg)
    ensures Brands(Analysis(answers, reg)) == RegistryNames(reg)
  {
    var first, rest := AnswerRecords(answers[0], reg), answers[1..];
    assert answers == [answers[0]] + rest;
    AnalysisAppend([answers[0]], rest, reg);
    FlatMapSingle(answers[0], RowsOf(reg));
    AnswerBrands(answers[0], reg);
    RecordsHaveRegistryNames(rest, reg);
    BrandsAddNothing(first, Analysis(rest, reg));
  }

  /** The position scores of brand `j` over the answers, one per answer. */
  function BrandScores(answers: seq<Answer>, reg: Registry, j: nat): nat
    requires j <= |reg.competitors|
  {
    if answers == [] then 0
    else BrandScores(answers[..|answers| - 1], reg, j) + AnswerRecords(answers[|answers| - 1], reg)[j].score
  }

  /** The score totals of two record lists add up. */
  lemma {:induction false} ScoreSumAppend(xs: seq<AnalysisRecord>, ys: seq<AnalysisRecord>, b: string)
    ensures ScoreSum(xs + ys, b) == ScoreSum(xs, b) + ScoreSum(ys, b)
    decreases |ys|
  {
    if ys == [] {
      assert xs + ys == xs;
    } else {
      var init := ys[..|ys| - 1];
      assert (xs + ys)[..|xs + ys| - 1] == xs + init;
      ScoreSumAppend(xs, init, b);
    }
  }

  /** In records with pairwise different brands, a brand's score total is
      the score of its one record. */
  lemma {:induction false} ScoreSumOfDistinct(rs: seq<AnalysisRecord>, j: nat)
    requires forall i, k :: 0 <= i < k < |rs| ==> rs[i].brand != rs[k].brand
    requires j < |rs|
    ensures ScoreSum(rs, rs[j].brand) == rs[j].score
  {
    var init, last := rs[..|rs| - 1], rs[|rs| - 1];
    if j == |rs| - 1 {
      BrandsAreTheRecordBrands(init);
      forall i | 0 <= i < |init|
        ensures init[i].brand != last.brand
      {
        assert init[i] == rs[i];
      }
      UnlistedBrandHasNoTotals(init, last.brand);
    } else {
      assert init[j] == rs[j];
      ScoreSumOfDistinct(init, j);
    }
  }

  /** The table of one more answer ends with that answer's records. */
  lemma AnalysisSnoc(init: seq<Answer>, last: Answer, reg: Registry)
    ensures Analysis(init + [last], reg) == Analysis(init, reg) + AnswerRecords(last, reg)
  {
    AnalysisAppend(init, [last], reg);
    FlatMapSingle(last, RowsOf(reg));
  }

  /** With different brand names, brand `j`'s score total over the records
      of one answer is its position score in that answer. */
  lemma AnswerScoreOfBrand(a: Answer, reg: Registry, j: nat)
    requires DistinctNames(reg) && j <= |reg.competitors|
    ensures ScoreSum(AnswerRecords(a, reg), BrandName(reg, j)) == AnswerRecords(a, reg)[j].score
  {
    var rs := AnswerRecords(a, reg);
    forall i, k | 0 <= i < k < |rs|
      ensures rs[i].brand != rs[k].brand
    {
      AnswerRecordBrand(a, reg, i);
      AnswerRecordBrand(a, reg, k);
    }
    AnswerRecordBrand(a, reg, j);
    ScoreSumOfDistinct(rs, j);
  }

  /** With different brand names, the summed score of brand `j` over the
      table is the sum of its position scores, one per answer. */
  lemma {:induction false} ScoreSumIsPerAnswer(answers: seq<Answer>, reg: Registry, j: nat)
    requires DistinctNames(reg) && j <= |reg.competitors|
    ensures ScoreSum(Analysis(answers, reg), BrandName(reg, j)) == BrandScores(answers, reg, j)
  {
    if answers != [] {
      var init, last := answers[..|answers| - 1], answers[|answers| - 1];
      assert init + [last] == answers;
      ScoreSumIsPerAnswer(init, reg, j);
      AnalysisSnoc(init, last, reg);
      ScoreSumAppend(Analysis(init, reg), AnswerRecords(last, reg), BrandName(reg, j));
      AnswerScoreOfBrand(last, reg, j);
    }
  }

  /** With different brand names, the printed average of each brand is its
      summed score over the table divided by the number of answers: the
      summary lists the registry's brands, line `k` is brand `k`, and the
      division by `len(results)` and the multiplication by `len(brands)`
      cancel to a division by the number of answers. */
  lemma AverageIsMeanPerAnswer(answers: seq<Answer>, reg: Registry, k: nat)
    requires answers != [] && DistinctNames(reg) && k <= |reg.competitors|
    ensures |Brands(Analysis(answers, reg))| == 1 + |reg.competitors|
    ensures var rs := Analysis(answers, reg);
      var l := LinesOf(rs, |Brands(rs)|)[k];
      l.brand == BrandName(reg, k) && l.avgScore == MeanPoints(ScoreSum(rs, l.brand), |answers|)
  {
    var rs := Analysis(answers, reg);
    AnalysisBrands(answers, reg);
    AnalysisLength(answers, reg);
    SummaryLineFacts(rs, k);
    ScaledMean(ScoreSum(rs, BrandName(reg, k)), |answers|, 1 + |reg.competitors|);
  }

  /** With different brand names, the printed average of brand `k` is the
      mean of its position scores, one per answer, in points. */
  lemma AverageIsMeanScore(answers: seq<Answer>, reg: Registry, k: nat)
    requires answers != [] && DistinctNames(reg) && k <= |reg.competitors|
    ensures |Brands(Analysis(answers, reg))| == 1 + |reg.competitors|
    ensures var rs := Analysis(answers, reg);
      LinesOf(rs, |Brands(rs)|)[k].avgScore == MeanPoints(BrandScores(answers, reg, k), |answers|)
  {
    AverageIsMeanPerAnswer(answers, reg, k);
    ScoreSumIsPerAnswer(answers, reg, k);
  }

  /** The summary line of brand `b`. */
  function LineOf(rs: seq<AnalysisRecord>, b: string): SummaryLine
    requires |rs| > 0
  {
    SummaryLine(b, FirstFlag(rs, b), CountSum(rs, b), FoundIn(rs, b),
      AverageScore(ScoreSum(rs, b), |rs|, |Brands(rs)|))
  }

  /** The lines of the first `n` brands, in dictionary order. */
  function LinesOf(rs: seq<AnalysisRecord>, n: nat): (ls: seq<SummaryLine>)
    requires n <= |Brands(rs)|
    ensures |ls| == n
  {
    if n == 0 then []
    else
      assert rs != [];
      LinesOf(rs, n - 1) + [LineOf(rs, Brands(rs)[n - 1])]
  }

  lemma {:induction false} LinesOfAt(rs: seq<AnalysisRecord>, n: nat, k: nat)
    requires k < n <= |Brands(rs)|
    ensures |rs| > 0 && LinesOf(rs, n)[k] == LineOf(rs, Brands(rs)[k])
  {
    assert rs != [];
    if k < n - 1 {
      LinesOfAt(rs, n - 1, k);
    }
  }

  /** Sort key for `sorted(..., key=count, reverse=True)`: Python's reversed
      sort is stable, which is an ascending stable sort on the negated key. */
  function ByMentionsDescending(l: SummaryLine): int {
    -(l.mentions as int)
  }

  /** `print_summary` without the printing: the summary lines in the order
      they are printed. */
  method Summary(results: seq<AnalysisRecord>) returns (lines: seq<SummaryLine>)
    ensures multiset(lines) == multiset(LinesOf(results, |Brands(results)|))
    ensures forall i, j :: 0 <= i < j < |lines| ==> lines[i].mentions >= lines[j].mentions
    ensures forall c :: WithKey(lines, ByMentionsDescending, c)
                     == WithKey(LinesOf(results, |Brands(results)|), ByMentionsDescending, c)
  {
    var order, brands := Tally(results);
    var items: seq<SummaryLine> := [];
    for k := 0 to |order|
      invariant items == LinesOf(results, k)
    {
      LinesOfAt(results, |order|, k);
      var stats := brands[order[k]];
      items := items + [SummaryLine(order[k], stats.isTarget, stats.count, stats.found,
        AverageScore(stats.scoreSum, |results|, |order|))];
    }
    lines := SortBy(items, ByMentionsDescending);
    SortByIsStableSort(items, ByMentionsDescending);
  }

  /** What a summary line says about its brand: the mentions are the sum of
      the brand's record counts, the answers found are the records of the
      brand that found it, the marker is the first record's flag, and the
      average is the score sum spread over the records and multiplied by the
      number of brands. */
  lemma SummaryLineFacts(rs: seq<AnalysisRecord>, k: nat)
    requires k < |Brands(rs)|
    ensures |rs| > 0
    ensures var l := LinesOf(rs, |Brands(rs)|)[k];
      && l.brand == Brands(rs)[k]
      && l.mentions == CountSum(rs, l.brand)
      && l.answersFound == FoundIn(rs, l.brand)
      && l.avgScore == AverageScore(ScoreSum(rs, l.brand), |rs|, |Brands(rs)|)
    ensures var l := LinesOf(rs, |Brands(rs)|)[k];
      exists i :: 0 <= i < |rs| && rs[i].brand == l.brand && l.isTarget == rs[i].isTarget
        && forall j :: 0 <= j < i ==> rs[j].brand != l.brand
  {
    LinesOfAt(rs, |Brands(rs)|, k);
    MarkerIsFirstRecords(rs, Brands(rs)[k]);
  }

  /** The target marker of a listed brand is the flag of its first record. */
  lemma MarkerIsFirstRecords(rs: seq<AnalysisRecord>, b: string)
    requires b in Brands(rs)
    ensures exists i :: 0 <= i < |rs| && rs[i].brand == b && FirstFlag(rs, b) == rs[i].isTarget
                     && forall j :: 0 <= j < i ==> rs[j].brand != b
  {
    BrandsAreTheRecordBrands(rs);
    var i := FirstIndexOf(rs, b);
    FirstFlagIsTheFirstRecords(rs, b, i);
  }

  /** The index of the first record of a listed brand. */
  function FirstIndexOf(rs: seq<AnalysisRecord>, b: string): (i: nat)
    requires exists k :: 0 <= k < |rs| && rs[k].brand == b
    ensures i < |rs| && rs[i].brand == b
    ensures forall j :: 0 <= j < i ==> rs[j].brand != b
  {
    if rs[0].brand == b then 0
    else
      var k :| 0 <= k < |rs| && rs[k].brand == b;
      assert rs[1..][k - 1] == rs[k];
      1 + FirstIndexOf(rs[1..], b)
  }

  // ---------------------------------------------------------------------
  // Loading the answers of a run
  // ---------------------------------------------------------------------

  /** One provider slot of a saved query result: `null` on failure. */
  datatype ProviderSlot = ProviderSlot(provider: string, text: Option<string>)

  /** A saved query result, `output_<id>.json`. */
  datatype OutputFile = OutputFile(id: int, question: string, response: seq<ProviderSlot>)

  /** A file of the run directory; `content` is `None` when opening,
      decoding or reading it fails (the errors `load_answers` logs and skips). */
  datatype DirEntry = DirEntry(name: string, content: Option<OutputFile>)

  predicate IsOutputFileName(name: string) {
    StartsWith(name, "output_") && EndsWith(name, ".json")
  }

  /** The directory entries whose names pass the filter, in listing order. */
  function OutputFiles(entries: seq<DirEntry>): (fs: seq<DirEntry>)
    ensures forall k :: 0 <= k < |fs| ==> fs[k] in entries && IsOutputFileName(fs[k].name)
    ensures forall e :: e in entries && IsOutputFileName(e.name) ==> e in fs
  {
    if entries == [] then []
    else
      var last := entries[|entries| - 1];
      OutputFiles(entries[..|entries| - 1]) + (if IsOutputFileName(last.name) then [last] else [])
  }

  /** One answer per provider slot that holds a text. */
  function SlotAnswers(id: int, question: string, slots: seq<ProviderSlot>): (as_: seq<Answer>)
    ensures forall k :: 0 <= k < |as_| ==>
      as_[k].questionId == id && as_[k].question == question
      && exists s :: s in slots && s.text == Some(as_[k].answer)
    ensures forall s :: s in slots && s.text.Some? ==> Answer(id, question, s.text.value) in as_
  {
    if slots == [] then []
    else
      var last := slots[|slots| - 1];
      SlotAnswers(id, question, slots[..|slots| - 1])
        + (if last.text.Some? then [Answer(id, question, last.text.value)] else [])
  }

  /** The answers one directory entry contributes. */
  function EntryAnswers(e: DirEntry): seq<Answer> {
    match e.content
    case None => []
    case Some(f) => SlotAnswers(f.id, f.question, f.response)
  }

  /** The answers in the order they are collected, before the sort. */
  function Collected(entries: seq<DirEntry>): seq<Answer> {
    FlatMap(OutputFiles(entries), EntryAnswers)
  }

  /** Sort key: the question id. */
  function QuestionIdOf(a: Answer): int { a.questionId }

  /** `load_answers` for a chosen run directory, given as its listing. */
  method LoadAnswers(entries: seq<DirEntry>) returns (responses: seq<Answer>)
    ensures SortedBy(responses, QuestionIdOf)
    ensures multiset(responses) == multiset(Collected(entries))
    ensures forall id :: WithKey(responses, QuestionIdOf, id) == WithKey(Collected(entries), QuestionIdOf, id)
  {
    var outputFiles := OutputFiles(entries);
    responses := [];
    for k := 0 to |outputFiles|
      invariant responses == FlatMap(outputFiles[..k], EntryAnswers)
    {
      if outputFiles[k].content.Some? {
        var data := outputFiles[k].content.value;
        responses := AppendSlotAnswers(responses, data.id, data.question, data.response);
      }
      FlatMapPrefix(outputFiles, EntryAnswers, k);
    }
    assert outputFiles[..|outputFiles|] == outputFiles;
    var collected := responses;
    responses := SortBy(collected, QuestionIdOf);
    SortByIsStableSort(collected, QuestionIdOf);
  }

  /** The loop over the provider slots of one file: an answer for each slot
      that holds a text, appended in slot order. */
  method AppendSlotAnswers(soFar: seq<Answer>, id: int, question: string, slots: seq<ProviderSlot>)
    returns (responses: seq<Answer>)
    ensures responses == soFar + SlotAnswers(id, question, slots)
  {
    responses := soFar;
    for s := 0 to |slots|
      invariant responses == soFar + SlotAnswers(id, question, slots[..s])
    {
      SlotAnswersPrefix(id, question, slots, s);
      var responseData := slots[s];
      if responseData.text.Some? {
        responses := responses + [Answer(id, question, responseData.text.value)];
      }
    }
    assert slots[..|slots|] == slots;
  }

  lemma SlotAnswersPrefix(id: int, question: string, slots: seq<ProviderSlot>, s: nat)
    requires s < |slots|
    ensures SlotAnswers(id, question, slots[..s + 1])
         == SlotAnswers(id, question, slots[..s]) + (if slots[s].text.Some? then [Answer(id, question, slots[s].text.value)] else [])
  {
    assert slots[..s + 1][..s] == slots[..s];
  }

  /** The collected answers are exactly those of the text-holding slots of
      the readable files whose names pass the filter. */
  lemma {:induction false} CollectedAnswers(entries: seq<DirEntry>)
    ensures forall a :: a in Collected(entries) ==>
      exists e :: e in entries && IsOutputFileName(e.name) && a in EntryAnswers(e)
    ensures forall e, s ::
      (e in entries && IsOutputFileName(e.name) && e.content.Some?
       && s in e.content.value.response && s.text.Some?) ==>
        Answer(e.content.value.id, e.content.value.question, s.text.value) in Collected(entries)
  {
    var fs := OutputFiles(entries);
    FlatMapMembers(fs, EntryAnswers);
  }
}
