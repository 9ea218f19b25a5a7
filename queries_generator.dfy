/** Query template expansion: placeholder discovery, the replace-based
    filling of one template, the competitor by use-case product of queries
    for one template, and the numbering of all queries. */
module QueriesGenerator {
  import opened Wrappers
  import opened Strings
  import opened Sequences

  // ---------------------------------------------------------------------
  // Placeholders
  // ---------------------------------------------------------------------

  /** The marker `{name}`. */
  function Braced(name: string): string {
    "{" + name + "}"
  }

  /** The number of word characters `s` starts with. */
  function WordPrefix(s: string): (n: nat)
    ensures n <= |s|
    ensures forall i :: 0 <= i < n ==> IsWordChar(s[i])
    ensures n < |s| ==> !IsWordChar(s[n])
  {
    if s != [] && IsWordChar(s[0]) then 1 + WordPrefix(s[1..]) else 0
  }

  /** `get_placeholders`: the names found by `re.findall(r'\{(\w+)\}', s)`.
      At a `{` the greedy `\w+` takes the whole run of word characters, and
      the match succeeds exactly when that run is non-empty and a `}`
      follows; the scan then resumes after the `}`, and otherwise one
      character further. */
  function Placeholders(s: string): seq<string>
    decreases |s|
  {
    if s == [] then []
    else
      var n := WordPrefix(s[1..]);
      if s[0] == '{' && 0 < n && n + 1 < |s| && s[n + 1] == '}' then
        [s[1..n + 1]] + Placeholders(s[n + 2..])
      else
        Placeholders(s[1..])
  }

  /** An occurrence in a suffix is an occurrence in the whole string. */
  lemma OccursInSuffix(s: string, k: nat, p: string, q: int)
    requires k <= |s| && OccursAt(s[k..], p, q)
    ensures OccursAt(s, p, q + k)
  {
    assert s[k..][q..q + |p|] == s[q + k..q + k + |p|];
  }

  /** Every reported name is a word that occurs in braces. */
  lemma {:induction false} PlaceholdersAreBracedWords(s: string)
    ensures forall n :: n in Placeholders(s) ==> IsWord(n) && exists q :: OccursAt(s, Braced(n), q)
    decreases |s|
  {
    if s != [] {
      var n := WordPrefix(s[1..]);
      if s[0] == '{' && 0 < n && n + 1 < |s| && s[n + 1] == '}' {
        var name, rest := s[1..n + 1], s[n + 2..];
        PlaceholdersAreBracedWords(rest);
        assert s[0..n + 2] == Braced(name);
        assert OccursAt(s, Braced(name), 0);
        forall m | m in Placeholders(rest)
          ensures exists q :: OccursAt(s, Braced(m), q)
        {
          var q :| OccursAt(rest, Braced(m), q);
          OccursInSuffix(s, n + 2, Braced(m), q);
        }
      } else {
        PlaceholdersAreBracedWords(s[1..]);
        forall m | m in Placeholders(s[1..])
          ensures exists q :: OccursAt(s, Braced(m), q)
        {
          var q :| OccursAt(s[1..], Braced(m), q);
          OccursInSuffix(s, 1, Braced(m), q);
        }
      }
    }
  }

  /** A string that starts with `{name}` reports `name` first and goes on
      after the marker. */
  lemma PlaceholdersOfLeadingMarker(s: string, name: string)
    requires IsWord(name) && OccursAt(s, Braced(name), 0)
    ensures |name| + 2 <= |s|
    ensures Placeholders(s) == [name] + Placeholders(s[|name| + 2..])
  {
    LeadingMarkerParts(s, name);
    MarkerNameIsWordPrefix(s, name);
  }

  /** The characters of a leading `{name}`. */
  lemma LeadingMarkerParts(s: string, name: string)
    requires OccursAt(s, Braced(name), 0)
    ensures |name| + 2 <= |s| && s[0] == '{' && s[|name| + 1] == '}'
    ensures s[1..|name| + 1] == name
  {
    var b := s[..|name| + 2];
    assert b == Braced(name);
    assert b[1..|name| + 1] == name;
    assert s[1..|name| + 1] == b[1..|name| + 1];
  }

  /** Behind the opening brace of `{name}` the word run is exactly `name`. */
  lemma MarkerNameIsWordPrefix(s: string, name: string)
    requires IsWord(name) && OccursAt(s, Braced(name), 0)
    ensures WordPrefix(s[1..]) == |name|
  {
    LeadingMarkerParts(s, name);
    assert s[1..][|name|] == '}';
  }

  /** A `{` never lies inside a match: between the braces are word characters. */
  lemma NoOpeningBraceInsideMarker(s: string, q: nat)
    requires s != [] && s[0] == '{'
    requires 0 < WordPrefix(s[1..]) && WordPrefix(s[1..]) + 1 < |s| && s[WordPrefix(s[1..]) + 1] == '}'
    requires 0 < q < |s| && s[q] == '{'
    ensures q >= WordPrefix(s[1..]) + 2
  {
  }

  /** An occurrence after a cut is an occurrence in what follows the cut. */
  lemma OccursAfterCut(s: string, k: nat, p: string, q: int)
    requires k <= q && OccursAt(s, p, q)
    ensures k <= |s| && OccursAt(s[k..], p, q - k)
  {
    assert s[k..][q - k..q - k + |p|] == s[q..q + |p|];
  }

  /** An occurrence of a marker starts with `{`. */
  lemma MarkerOpens(s: string, name: string, q: nat)
    requires OccursAt(s, Braced(name), q)
    ensures s[q] == '{'
  {
    assert s[q..q + |name| + 2] == Braced(name);
  }

  /** Every word that occurs in braces is reported. */
  lemma {:induction false} BracedWordsAreFound(s: string, name: string, q: nat)
    requires IsWord(name) && OccursAt(s, Braced(name), q)
    ensures name in Placeholders(s)
    decreases |s|
  {
    if q == 0 {
      PlaceholdersOfLeadingMarker(s, name);
    } else {
      MarkerOpens(s, name, q);
      var n := WordPrefix(s[1..]);
      if s[0] == '{' && 0 < n && n + 1 < |s| && s[n + 1] == '}' {
        NoOpeningBraceInsideMarker(s, q);
        OccursAfterCut(s, n + 2, Braced(name), q);
        BracedWordsAreFound(s[n + 2..], name, q - (n + 2));
        assert Placeholders(s) == [s[1..n + 1]] + Placeholders(s[n + 2..]);
      } else {
        OccursAfterCut(s, 1, Braced(name), q);
        BracedWordsAreFound(s[1..], name, q - 1);
        assert Placeholders(s) == Placeholders(s[1..]);
      }
    }
  }

  /** `get_placeholders` finds exactly the words that occur in braces. */
  lemma PlaceholdersExactly(s: string, name: string)
    ensures name in Placeholders(s) <==> IsWord(name) && exists q :: OccursAt(s, Braced(name), q)
  {
    PlaceholdersAreBracedWords(s);
    if IsWord(name) && exists q :: OccursAt(s, Braced(name), q) {
      var q :| OccursAt(s, Braced(name), q);
      BracedWordsAreFound(s, name, q);
    }
  }

  // ---------------------------------------------------------------------
  // Filling one template
  // ---------------------------------------------------------------------

  /** `fill_single_template`: for each key in dictionary order, replace
      every `{key}` of the running result by the key's value. */
  function Filled(template: string, vars: seq<(string, string)>): string {
    if vars == [] then template
    else
      var (key, value) := vars[|vars| - 1];
      Replace(Filled(template, vars[..|vars| - 1]), Braced(key), value)
  }

  method FillSingleTemplate(template: string, variables: seq<(string, string)>) returns (result: string)
    ensures result == Filled(template, variables)
  {
    result := template;
    for k := 0 to |variables|
      invariant result == Filled(template, variables[..k])
    {
      var (key, value) := variables[k];
      result := Replace(result, Braced(key), value);
      assert variables[..k + 1][..k] == variables[..k];
    }
    assert variables[..|variables|] == variables;
  }

  /** With no variables, or in a template without `{`, nothing changes. */
  lemma {:induction false} FillWithoutMarkers(template: string, vars: seq<(string, string)>)
    requires vars == [] || '{' !in template
    ensures Filled(template, vars) == template
  {
    if vars != [] {
      FillWithoutMarkers(template, vars[..|vars| - 1]);
      ReplaceWithoutFirstChar(template, Braced(vars[|vars| - 1].0), vars[|vars| - 1].1);
    }
  }

  /** A template seen as literal text and `{name}` slots. */
  datatype Piece = Text(text: string) | Slot(name: string)

  function RenderPiece(p: Piece): string {
    match p
    case Text(t) => t
    case Slot(n) => Braced(n)
  }

  /** The template text the pieces spell. */
  function Render(ps: seq<Piece>): string {
    if ps == [] then [] else RenderPiece(ps[0]) + Render(ps[1..])
  }

  /** Text pieces hold no `{` and slot names are words, so the pieces can be
      read back from the text unambiguously. */
  predicate WellFormed(ps: seq<Piece>) {
    forall i :: 0 <= i < |ps| ==>
      (ps[i].Text? ==> '{' !in ps[i].text) && (ps[i].Slot? ==> IsWord(ps[i].name))
  }

  /** The value bound to `name`: the first binding in dictionary order
      (a dictionary has at most one). */
  function Lookup(vars: seq<(string, string)>, name: string): Option<string> {
    if vars == [] then None
    else
      var found := Lookup(vars[..|vars| - 1], name);
      if found.Some? then found
      else if vars[|vars| - 1].0 == name then Some(vars[|vars| - 1].1)
      else None
  }

  /** A slot with a bound name becomes its value; everything else stays. */
  function Resolve(p: Piece, vars: seq<(string, string)>): Piece {
    match p
    case Text(_) => p
    case Slot(n) => if Lookup(vars, n).Some? then Text(Lookup(vars, n).value) else p
  }

  function Resolved(ps: seq<Piece>, vars: seq<(string, string)>): (rs: seq<Piece>)
    ensures |rs| == |ps|
    ensures forall i :: 0 <= i < |ps| ==> rs[i] == Resolve(ps[i], vars)
  {
    if ps == [] then [] else [Resolve(ps[0], vars)] + Resolved(ps[1..], vars)
  }

  /** A leading `{n}` is not the start of a different marker `{k}`. */
  lemma OtherMarkerDiffers(n: string, y: string, k: string)
    requires IsWord(n) && IsWord(k) && n != k
    requires |Braced(n) + y| >= |Braced(k)|
    ensures (Braced(n) + y)[..|Braced(k)|] != Braced(k)
  {
    var s, pat := Braced(n) + y, Braced(k);
    var j := if |k| < |n| then |k| + 1 else if |k| > |n| then |n| + 1
      else var d :| 0 <= d < |n| && n[d] != k[d]; d + 1;
    assert s[..|pat|][j] == s[j] != pat[j];
  }

  /** Replacing an `{k}` that differs from a leading `{n}` keeps that marker
      and goes on behind it. */
  lemma ReplaceAfterOtherMarker(n: string, y: string, k: string, v: string)
    requires IsWord(n) && IsWord(k) && n != k
    ensures Replace(Braced(n) + y, Braced(k), v) == Braced(n) + Replace(y, Braced(k), v)
  {
    var s, pat := Braced(n) + y, Braced(k);
    var tail := n + "}";
    assert s == [s[0]] + (tail + y) && s[0] == '{' by {
      AppendIsAssociative("{" + n, "}", y);
      AppendIsAssociative("{", n, "}" + y);
    }
    if |s| >= |pat| {
      OtherMarkerDiffers(n, y, k);
      assert Replace(s, pat, v) == [s[0]] + Replace(tail + y, pat, v);
      assert pat[0] !in tail by {
        assert forall i :: 0 <= i < |tail| ==> tail[i] != '{' by {
          assert forall i :: 0 <= i < |n| ==> tail[i] == n[i];
        }
      }
      ReplaceAfterPrefix(tail, y, pat, v);
      AppendIsAssociative([s[0]], tail, Replace(y, pat, v));
      assert [s[0]] + tail == Braced(n);
    } else {
      assert |y| < |pat|;
    }
  }

  /** One replacement acts on the pieces: every slot named `k` becomes `v`,
      provided the value brings no new `{`. */
  lemma {:induction false} ReplaceOnPieces(ps: seq<Piece>, k: string, v: string)
    requires WellFormed(ps) && IsWord(k)
    ensures Replace(Render(ps), Braced(k), v)
         == Render(seq(|ps|, i requires 0 <= i < |ps| => if ps[i] == Slot(k) then Text(v) else ps[i]))
  {
    var qs := seq(|ps|, i requires 0 <= i < |ps| => if ps[i] == Slot(k) then Text(v) else ps[i]);
    if ps != [] {
      var rest := ps[1..];
      ReplaceOnPieces(rest, k, v);
      assert qs[1..] == seq(|rest|, i requires 0 <= i < |rest| => if rest[i] == Slot(k) then Text(v) else rest[i]);
      match ps[0]
      case Text(t) =>
        ReplaceAfterPrefix(t, Render(rest), Braced(k), v);
      case Slot(n) =>
        if n == k {
          ReplaceLeading(Render(rest), Braced(k), v);
        } else {
          ReplaceAfterOtherMarker(n, Render(rest), k, v);
        }
    } else {
      assert Render(ps) == [];
    }
  }

  /** Every key is a word and no value brings a `{` of its own. */
  predicate PlainBindings(vars: seq<(string, string)>) {
    forall i :: 0 <= i < |vars| ==> IsWord(vars[i].0) && '{' !in vars[i].1
  }

  /** Filling a well-formed template (texts without `{`, slot names that
      are words) with word keys and values without `{` replaces each slot
      by the value bound to its name and leaves unbound slots and the
      literal text alone. A value holding a marker is filled again by a
      later key (`FillCascades`), so the value restriction is needed. */
  lemma {:induction false} FillOnPieces(ps: seq<Piece>, vars: seq<(string, string)>)
    requires WellFormed(ps) && PlainBindings(vars)
    ensures Filled(Render(ps), vars) == Render(Resolved(ps, vars))
    ensures WellFormed(Resolved(ps, vars))
  {
    if vars == [] {
      assert Resolved(ps, vars) == ps;
    } else {
      var front := vars[..|vars| - 1];
      var (k, v) := vars[|vars| - 1];
      assert PlainBindings(front);
      FillOnPieces(ps, front);
      var rs := Resolved(ps, front);
      ReplaceOnPieces(rs, k, v);
      var qs := seq(|rs|, i requires 0 <= i < |rs| => if rs[i] == Slot(k) then Text(v) else rs[i]);
      forall i | 0 <= i < |ps|
        ensures qs[i] == Resolved(ps, vars)[i]
      {
        if ps[i].Slot? {
          assert Lookup(vars, ps[i].name)
              == if Lookup(front, ps[i].name).Some? then Lookup(front, ps[i].name)
                 else if k == ps[i].name then Some(v) else None;
        }
      }
      assert qs == Resolved(ps, vars);
    }
  }

  /** The slot names of the pieces, in order. */
  function SlotNames(ps: seq<Piece>): (names: seq<string>)
    ensures |names| <= |ps|
  {
    if ps == [] then []
    else if ps[0].Slot? then [ps[0].name] + SlotNames(ps[1..])
    else SlotNames(ps[1..])
  }

  /** Text without `{` in front contributes no placeholder. */
  lemma {:induction false} PlaceholdersSkipText(t: string, y: string)
    requires '{' !in t
    ensures Placeholders(t + y) == Placeholders(y)
    decreases |t|
  {
    if t != [] {
      assert (t + y)[0] == t[0];
      assert (t + y)[1..] == t[1..] + y;
      PlaceholdersSkipText(t[1..], y);
    } else {
      assert t + y == y;
    }
  }

  /** `get_placeholders` reads back exactly the slots of a well-formed template. */
  lemma {:induction false} PlaceholdersOfPieces(ps: seq<Piece>)
    requires WellFormed(ps)
    ensures Placeholders(Render(ps)) == SlotNames(ps)
  {
    if ps != [] {
      var rest := Render(ps[1..]);
      assert WellFormed(ps[1..]);
      PlaceholdersOfPieces(ps[1..]);
      match ps[0]
      case Text(t) =>
        PlaceholdersSkipText(t, rest);
      case Slot(n) =>
        var s := Braced(n) + rest;
        assert s[..|n| + 2] == Braced(n);
        PlaceholdersOfLeadingMarker(s, n);
        assert s[|n| + 2..] == rest;
    }
  }

  /** A template whose slots are all bound, with texts and values free of
      braces, is filled into a string with no brace left. */
  lemma {:induction false} FillLeavesNoBrace(ps: seq<Piece>, vars: seq<(string, string)>)
    requires WellFormed(ps) && PlainBindings(vars)
    requires forall i :: 0 <= i < |ps| && ps[i].Text? ==> '}' !in ps[i].text
    requires forall i :: 0 <= i < |ps| && ps[i].Slot? ==> Lookup(vars, ps[i].name).Some?
    requires forall i :: 0 <= i < |vars| ==> '}' !in vars[i].1
    ensures '{' !in Filled(Render(ps), vars) && '}' !in Filled(Render(ps), vars)
  {
    FillOnPieces(ps, vars);
    var rs := Resolved(ps, vars);
    forall i | 0 <= i < |rs|
      ensures rs[i].Text? && '{' !in rs[i].text && '}' !in rs[i].text
    {
      if ps[i].Slot? {
        LookupIsBound(vars, ps[i].name);
      }
    }
    TextsWithoutBraces(rs);
  }

  /** A found value is the value of some binding. */
  lemma {:induction false} LookupIsBound(vars: seq<(string, string)>, name: string)
    requires Lookup(vars, name).Some?
    ensures exists i :: 0 <= i < |vars| && vars[i] == (name, Lookup(vars, name).value)
  {
    var front := vars[..|vars| - 1];
    if Lookup(front, name).Some? {
      LookupIsBound(front, name);
      var i :| 0 <= i < |front| && front[i] == (name, Lookup(front, name).value);
      assert vars[i] == front[i];
    } else {
      assert vars[|vars| - 1] == (name, Lookup(vars, name).value);
    }
  }

  /** Only-text pieces without braces spell a string without braces. */
  lemma {:induction false} TextsWithoutBraces(rs: seq<Piece>)
    requires forall i :: 0 <= i < |rs| ==> rs[i].Text? && '{' !in rs[i].text && '}' !in rs[i].text
    ensures '{' !in Render(rs) && '}' !in Render(rs)
  {
    if rs != [] {
      TextsWithoutBraces(rs[1..]);
    }
  }

  // ---------------------------------------------------------------------
  // Queries of one template
  // ---------------------------------------------------------------------

  /** What the expansion of every template shares: the `category` entry of
      the placeholders, the first target alias, the competitor names in
      dictionary order and the use cases. */
  datatype Setting = Setting(category: string, brand: string, competitors: seq<string>, useCases: seq<string>)

  /** The variables of one query, in insertion order: the base entries,
      then `brand2` and `competitor` for a competitor, then `use_case`. */
  function Variables(st: Setting, comp: Option<string>, useCase: Option<string>): seq<(string, string)> {
    [("category", st.category), ("target", st.brand), ("brand1", st.brand)]
    + (if Truthy(comp) then [("brand2", comp.value), ("competitor", comp.value)] else [])
    + (if Truthy(useCase) then [("use_case", useCase.value)] else [])
  }

  /** The choices of a list that is iterated. */
  function Choices(names: seq<string>): (r: seq<Option<string>>)
    ensures |r| == |names|
    ensures forall i :: 0 <= i < |names| ==> r[i] == Some(names[i])
  {
    if names == [] then [] else Choices(names[..|names| - 1]) + [Some(names[|names| - 1])]
  }

  /** The competitors are iterated only for a template that names `brand1`
      or `competitor`; otherwise there is the single choice of none. */
  function CompetitorChoices(needed: seq<string>, st: Setting): seq<Option<string>> {
    if "brand1" in needed || "competitor" in needed then Choices(st.competitors) else [None]
  }

  /** The use cases are iterated only for a template that names `use_case`. */
  function CaseChoices(needed: seq<string>, st: Setting): seq<Option<string>> {
    if "use_case" in needed then Choices(st.useCases) else [None]
  }

  /** The queries for one competitor choice, one per use-case choice. */
  function CaseQueries(template: string, st: Setting, comp: Option<string>, cases: seq<Option<string>>): (r: seq<string>)
    ensures |r| == |cases|
  {
    if cases == [] then []
    else CaseQueries(template, st, comp, cases[..|cases| - 1]) + [Filled(template, Variables(st, comp, cases[|cases| - 1]))]
  }

  lemma {:induction false} CaseQueriesAt(template: string, st: Setting, comp: Option<string>, cases: seq<Option<string>>, j: nat)
    requires j < |cases|
    ensures CaseQueries(template, st, comp, cases)[j] == Filled(template, Variables(st, comp, cases[j]))
  {
    if j < |cases| - 1 {
      CaseQueriesAt(template, st, comp, cases[..|cases| - 1], j);
    }
  }

  lemma CaseQueriesPrefix(template: string, st: Setting, comp: Option<string>, cases: seq<Option<string>>, j: nat)
    requires j < |cases|
    ensures CaseQueries(template, st, comp, cases[..j + 1])
         == CaseQueries(template, st, comp, cases[..j]) + [Filled(template, Variables(st, comp, cases[j]))]
  {
    assert cases[..j + 1][..j] == cases[..j];
  }

  function CompetitorRows(template: string, st: Setting, cases: seq<Option<string>>): Option<string> -> seq<string> {
    comp => CaseQueries(template, st, comp, cases)
  }

  /** The queries of one template, competitor-major and use-case-minor. */
  function Expansions(template: string, st: Setting): seq<string> {
    var needed := Placeholders(template);
    FlatMap(CompetitorChoices(needed, st), CompetitorRows(template, st, CaseChoices(needed, st)))
  }

  /** `generate_queries_from_template` raises KeyError when the
      placeholders have no `category` and IndexError when there is no
      target alias. */
  datatype GenerationError = MissingCategory | NoTarget

  function BaseError(placeholders: map<string, string>, target: seq<string>): Option<GenerationError> {
    if "category" !in placeholders then Some(MissingCategory)
    else if target == [] then Some(NoTarget)
    else None
  }

  function SettingOf(placeholders: map<string, string>, target: seq<string>, competitors: seq<string>, useCases: seq<string>): Setting
    requires BaseError(placeholders, target) == None
  {
    Setting(placeholders["category"], target[0], competitors, useCases)
  }

  function QueriesFromTemplate(template: string, placeholders: map<string, string>, target: seq<string>,
                               competitors: seq<string>, useCases: seq<string>): Result<seq<string>, GenerationError>
  {
    match BaseError(placeholders, target)
    case Some(e) => Err(e)
    case None => Ok(Expansions(template, SettingOf(placeholders, target, competitors, useCases)))
  }

  method GenerateQueriesFromTemplate(template: string, placeholders: map<string, string>, target: seq<string>,
                                     competitors: seq<string>, useCases: seq<string>)
    returns (r: Result<seq<string>, GenerationError>)
    ensures r == QueriesFromTemplate(template, placeholders, target, competitors, useCases)
  {
    var needed := Placeholders(template);
    if "category" !in placeholders {
      return Err(MissingCategory);
    }
    if target == [] {
      return Err(NoTarget);
    }
    var st := Setting(placeholders["category"], target[0], competitors, useCases);
    var results := ExpandTemplate(template, needed, st);
    return Ok(results);
  }

  /** The nested loops of `generate_queries_from_template`: competitor
      choices outside, use-case choices inside, one filled query each. */
  method ExpandTemplate(template: string, needed: seq<string>, st: Setting) returns (results: seq<string>)
    requires needed == Placeholders(template)
    ensures results == Expansions(template, st)
  {
    var compList := CompetitorChoices(needed, st);
    var caseList := CaseChoices(needed, st);
    ghost var rows := CompetitorRows(template, st, caseList);
    results := [];
    for i := 0 to |compList|
      invariant results == FlatMap(compList[..i], rows)
    {
      results := AppendCaseQueries(results, template, st, compList[i], caseList);
      FlatMapPrefix(compList, rows, i);
    }
    assert compList[..|compList|] == compList;
  }

  /** The inner loop: the queries for one competitor choice, appended in
      use-case order. */
  method AppendCaseQueries(soFar: seq<string>, template: string, st: Setting, comp: Option<string>, caseList: seq<Option<string>>)
    returns (results: seq<string>)
    ensures results == soFar + CaseQueries(template, st, comp, caseList)
  {
    results := soFar;
    for j := 0 to |caseList|
      invariant results == soFar + CaseQueries(template, st, comp, caseList[..j])
    {
      var query := FillSingleTemplate(template, Variables(st, comp, caseList[j]));
      results := results + [query];
      CaseQueriesPrefix(template, st, comp, caseList, j);
    }
    assert caseList[..|caseList|] == caseList;
  }

  /** One query per competitor choice and use-case choice, competitor-major:
      query `i * |cases| + j` fills the template for choice `i` and case `j`. */
  lemma ExpansionsShape(template: string, st: Setting, i: nat, j: nat)
    requires var needed := Placeholders(template);
      i < |CompetitorChoices(needed, st)| && j < |CaseChoices(needed, st)|
    ensures var needed := Placeholders(template);
      var comps, cases := CompetitorChoices(needed, st), CaseChoices(needed, st);
      |Expansions(template, st)| == |comps| * |cases|
      && i * |cases| + j < |Expansions(template, st)|
      && Expansions(template, st)[i * |cases| + j] == Filled(template, Variables(st, comps[i], cases[j]))
  {
    var needed := Placeholders(template);
    var comps, cases := CompetitorChoices(needed, st), CaseChoices(needed, st);
    var rows := CompetitorRows(template, st, cases);
    FlatMapLength(comps, rows, |cases|);
    FlatMapAt(comps, rows, |cases|, i, j);
    CaseQueriesAt(template, st, comps[i], cases, j);
  }

  /** A template naming none of `brand1`, `competitor` and `use_case`
      yields exactly one query: the template filled with the base entries. */
  lemma UngatedTemplate(template: string, st: Setting)
    requires var needed := Placeholders(template);
      "brand1" !in needed && "competitor" !in needed && "use_case" !in needed
    ensures Expansions(template, st) == [Filled(template, Variables(st, None, None))]
  {
    var none: seq<Option<string>> := [None];
    var rows := CompetitorRows(template, st, none);
    assert none[..0] == [];
    assert rows(None) == [Filled(template, Variables(st, None, None))] by {
      assert none[..0] == [];
    }
  }

  /** A template that iterates an empty list yields no query. */
  lemma EmptyIteratedList(template: string, st: Setting)
    requires var needed := Placeholders(template);
      (("brand1" in needed || "competitor" in needed) && st.competitors == [])
      || ("use_case" in needed && st.useCases == [])
    ensures Expansions(template, st) == []
  {
    var needed := Placeholders(template);
    var comps, cases := CompetitorChoices(needed, st), CaseChoices(needed, st);
    FlatMapLength(comps, CompetitorRows(template, st, cases), |cases|);
  }

  /** `brand2` alone does not iterate the competitors: every query fills the
      template without a competitor, one per use-case choice. */
  lemma Brand2AloneIsNotIterated(template: string, st: Setting, j: nat)
    requires var needed := Placeholders(template);
      "brand1" !in needed && "competitor" !in needed && j < |CaseChoices(needed, st)|
    ensures var cases := CaseChoices(Placeholders(template), st);
      |Expansions(template, st)| == |cases|
      && Expansions(template, st)[j] == Filled(template, Variables(st, None, cases[j]))
  {
    var cases := CaseChoices(Placeholders(template), st);
    ExpansionsShape(template, st, 0, j);
    assert 0 * |cases| + j == j && 1 * |cases| == |cases|;
  }

  /** The generation fails exactly when `category` or the target is missing,
      whatever the template. */
  lemma GenerationFails(template: string, placeholders: map<string, string>, target: seq<string>,
                        competitors: seq<string>, useCases: seq<string>)
    ensures QueriesFromTemplate(template, placeholders, target, competitors, useCases).Err?
        <==> "category" !in placeholders || target == []
    ensures QueriesFromTemplate(template, placeholders, target, competitors, useCases) == Err(MissingCategory)
        <==> "category" !in placeholders
  {
  }

  // ---------------------------------------------------------------------
  // The cases of the test suite
  // ---------------------------------------------------------------------

  /** The pieces of a template with a text between two markers. */
  lemma TwoSlotPieces(n: string, t: string, m: string, text: string)
    requires IsWord(n) && '{' !in t && IsWord(m)
    requires text == Braced(n) + t + Braced(m)
    ensures Render([Slot(n), Text(t), Slot(m)]) == text
    ensures WellFormed([Slot(n), Text(t), Slot(m)])
    ensures SlotNames([Slot(n), Text(t), Slot(m)]) == [n, m]
  {
    var ps := [Slot(n), Text(t), Slot(m)];
    assert ps[1..] == [Text(t), Slot(m)];
    assert ps[1..][1..] == [Slot(m)];
    assert ps[1..][1..][1..] == [];
    assert Render([Slot(m)]) == Braced(m) by {
      assert Braced(m) + [] == Braced(m);
    }
    assert Render(ps) == Braced(n) + (t + Braced(m));
    AppendIsAssociative(Braced(n), t, Braced(m));
    assert SlotNames([Slot(m)]) == [m];
    assert SlotNames([Text(t), Slot(m)]) == [m];
  }

  lemma TwoNamesPieces()
    ensures Render([Slot("brand1"), Text(" vs "), Slot("brand2")]) == "{brand1} vs {brand2}"
    ensures WellFormed([Slot("brand1"), Text(" vs "), Slot("brand2")])
    ensures SlotNames([Slot("brand1"), Text(" vs "), Slot("brand2")]) == ["brand1", "brand2"]
  {
    TwoSlotPieces("brand1", " vs ", "brand2", "{brand1} vs {brand2}");
  }

  lemma RepeatedNamePieces()
    ensures Render([Slot("s"), Text(" and "), Slot("s")]) == "{s} and {s}"
    ensures WellFormed([Slot("s"), Text(" and "), Slot("s")])
    ensures SlotNames([Slot("s"), Text(" and "), Slot("s")]) == ["s", "s"]
  {
    TwoSlotPieces("s", " and ", "s", "{s} and {s}");
  }

  /** `get_placeholders` finds names in order. */
  lemma PlaceholdersInOrder()
    ensures Placeholders("{brand1} vs {brand2}") == ["brand1", "brand2"]
  {
    TwoNamesPieces();
    PlaceholdersOfPieces([Slot("brand1"), Text(" vs "), Slot("brand2")]);
  }

  /** `get_placeholders` keeps duplicates. */
  lemma PlaceholdersKeepDuplicates()
    ensures Placeholders("{s} and {s}") == ["s", "s"]
  {
    RepeatedNamePieces();
    PlaceholdersOfPieces([Slot("s"), Text(" and "), Slot("s")]);
  }

  /** A text without markers has no placeholder. */
  lemma NoPlaceholders()
    ensures Placeholders("No placeholders") == []
  {
    PlaceholdersSkipText("No placeholders", []);
    assert "No placeholders" + [] == "No placeholders";
  }

  lemma RenderTexts(a: string, b: string, c: string)
    ensures Render([Text(a), Text(b), Text(c)]) == a + b + c
  {
    assert [Text(a), Text(b), Text(c)][1..] == [Text(b), Text(c)];
    assert [Text(b), Text(c)][1..] == [Text(c)];
    assert [Text(c)][1..] == [];
    assert Render([Text(c)]) == c + [];
  }

  lemma TwoNamesFilled()
    ensures Render(Resolved([Slot("brand1"), Text(" vs "), Slot("brand2")], [("brand1", "A"), ("brand2", "B")])) == "A vs B"
  {
    var vars := [("brand1", "A"), ("brand2", "B")];
    assert Lookup(vars, "brand1") == Some("A");
    assert Lookup(vars, "brand2") == Some("B");
    var rs := Resolved([Slot("brand1"), Text(" vs "), Slot("brand2")], vars);
    assert rs == [Text("A"), Text(" vs "), Text("B")];
    RenderTexts("A", " vs ", "B");
  }

  lemma UnknownPieces()
    ensures Render([Slot("brand1"), Text(" vs "), Slot("unknown")]) == "{brand1} vs {unknown}"
    ensures WellFormed([Slot("brand1"), Text(" vs "), Slot("unknown")])
  {
    TwoSlotPieces("brand1", " vs ", "unknown", "{brand1} vs {unknown}");
  }

  lemma UnknownFilled()
    ensures Render(Resolved([Slot("brand1"), Text(" vs "), Slot("unknown")], [("brand1", "A")])) == "A vs {unknown}"
  {
    var rs := Resolved([Slot("brand1"), Text(" vs "), Slot("unknown")], [("brand1", "A")]);
    assert rs == [Text("A"), Text(" vs "), Slot("unknown")];
    assert rs[1..] == [Text(" vs "), Slot("unknown")];
    assert rs[1..][1..] == [Slot("unknown")];
    assert rs[1..][1..][1..] == [];
  }

  /** Bound markers are replaced and an unknown one is left as it is. */
  lemma FillExamples()
    ensures Filled("{brand1} vs {brand2}", [("brand1", "A"), ("brand2", "B")]) == "A vs B"
    ensures Filled("{brand1} vs {unknown}", [("brand1", "A")]) == "A vs {unknown}"
  {
    TwoNamesPieces();
    FillOnPieces([Slot("brand1"), Text(" vs "), Slot("brand2")], [("brand1", "A"), ("brand2", "B")]);
    TwoNamesFilled();
    UnknownPieces();
    FillOnPieces([Slot("brand1"), Text(" vs "), Slot("unknown")], [("brand1", "A")]);
    UnknownFilled();
  }

  /** The fold cascades: a value that holds a later key's marker is filled
      in turn, so `{a}` ends up as `Z` and not as its own value `{b}`. */
  lemma FillCascades()
    ensures Lookup([("a", "{b}"), ("b", "Z")], "a") == Some("{b}")
    ensures Filled("{a}", [("a", "{b}"), ("b", "Z")]) == "Z"
  {
    var vars := [("a", "{b}"), ("b", "Z")];
    assert vars[..1] == [("a", "{b}")];
    assert vars[..1][..0] == [];
    assert Braced("a") == "{a}" && Braced("b") == "{b}";
    ReplaceLeading("", "{a}", "{b}");
    assert "{a}" + "" == "{a}" && "{b}" + "" == "{b}";
    assert Filled("{a}", vars[..1]) == "{b}";
    ReplaceLeading("", "{b}", "Z");
  }

  /** Filling with two lists of variables is filling with the first and then the second. */
  lemma {:induction false} FilledAppend(template: string, a: seq<(string, string)>, b: seq<(string, string)>)
    ensures Filled(template, a + b) == Filled(Filled(template, a), b)
    decreases |b|
  {
    if b == [] {
      assert a + b == a;
    } else {
      var front := b[..|b| - 1];
      assert (a + b)[..|a + b| - 1] == a + front;
      assert (a + b)[|a + b| - 1] == b[|b| - 1];
      FilledAppend(template, a, front);
    }
  }

  /** The pieces of a template with one marker between two texts. */
  lemma OneSlotPieces(a: string, n: string, b: string)
    requires '{' !in a && '{' !in b && IsWord(n)
    ensures Render([Text(a), Slot(n), Text(b)]) == a + Braced(n) + b
    ensures WellFormed([Text(a), Slot(n), Text(b)])
    ensures SlotNames([Text(a), Slot(n), Text(b)]) == [n]
  {
    var ps := [Text(a), Slot(n), Text(b)];
    assert ps[1..] == [Slot(n), Text(b)];
    assert ps[1..][1..] == [Text(b)];
    assert ps[1..][1..][1..] == [];
    assert Render([Text(b)]) == b + [];
    assert Render([Slot(n), Text(b)]) == Braced(n) + b;
    assert SlotNames([Text(b)]) == [];
    assert SlotNames([Slot(n), Text(b)]) == [n];
  }

  lemma CategoryPieces()
    ensures Render([Text("What are the best "), Slot("category"), Text(" apps?")]) == "What are the best " + "{category}" + " apps?"
    ensures WellFormed([Text("What are the best "), Slot("category"), Text(" apps?")])
    ensures SlotNames([Text("What are the best "), Slot("category"), Text(" apps?")]) == ["category"]
  {
    assert '{' !in "What are the best ";
    assert IsWord("category");
    OneSlotPieces("What are the best ", "category", " apps?");
  }

  lemma CategoryFilled()
    ensures Filled("What are the best " + "{category}" + " apps?", [("category", "note-taking")]) == "What are the best " + "note-taking" + " apps?"
  {
    var ps := [Text("What are the best "), Slot("category"), Text(" apps?")];
    var vars := [("category", "note-taking")];
    CategoryPieces();
    FillOnPieces(ps, vars);
    var rs := Resolved(ps, vars);
    assert rs == [Text("What are the best "), Text("note-taking"), Text(" apps?")];
    RenderTexts("What are the best ", "note-taking", " apps?");
  }

  /** A template with only `{category}` yields the one filled query. */
  lemma CategoryOnlyExample(target: seq<string>, competitors: seq<string>, useCases: seq<string>)
    requires target != []
    ensures QueriesFromTemplate("What are the best " + "{category}" + " apps?", map["category" := "note-taking"],
                                target, competitors, useCases)
         == Ok(["What are the best " + "note-taking" + " apps?"])
  {
    var template := "What are the best " + "{category}" + " apps?";
    CategoryPieces();
    PlaceholdersOfPieces([Text("What are the best "), Slot("category"), Text(" apps?")]);
    var st := Setting("note-taking", target[0], competitors, useCases);
    UngatedTemplate(template, st);
    var first, rest := [("category", "note-taking")], [("target", target[0]), ("brand1", target[0])];
    assert Variables(st, None, None) == first + rest;
    FilledAppend(template, first, rest);
    CategoryFilled();
    FillWithoutMarkers("What are the best " + "note-taking" + " apps?", rest);
  }

  /** The pieces of a template with three markers separated by two texts. */
  lemma ThreeSlotPieces(n1: string, a: string, n2: string, b: string, n3: string)
    requires IsWord(n1) && IsWord(n2) && IsWord(n3) && '{' !in a && '{' !in b
    ensures Render([Slot(n1), Text(a), Slot(n2), Text(b), Slot(n3)]) == Braced(n1) + a + Braced(n2) + b + Braced(n3)
    ensures WellFormed([Slot(n1), Text(a), Slot(n2), Text(b), Slot(n3)])
    ensures SlotNames([Slot(n1), Text(a), Slot(n2), Text(b), Slot(n3)]) == [n1, n2, n3]
  {
    var ps := [Slot(n1), Text(a), Slot(n2), Text(b), Slot(n3)];
    var rest := [Slot(n2), Text(b), Slot(n3)];
    TwoSlotPieces(n2, b, n3, Braced(n2) + b + Braced(n3));
    assert ps[1..] == [Text(a)] + rest && ps[1..][1..] == rest;
    assert Render(ps) == Braced(n1) + (a + Render(rest));
    AppendIsAssociative(Braced(n1), a, Render(rest));
    AppendIsAssociative(Braced(n1) + a, Braced(n2) + b, Braced(n3));
    AppendIsAssociative(Braced(n1) + a, Braced(n2), b);
    assert SlotNames(ps) == [n1] + SlotNames(rest);
  }

  /** A value found by `Lookup` at a binding of the name. */
  lemma {:induction false} LookupFindsBound(vars: seq<(string, string)>, name: string, i: nat)
    requires i < |vars| && vars[i].0 == name
    ensures Lookup(vars, name).Some?
  {
    var front := vars[..|vars| - 1];
    if i < |vars| - 1 && Lookup(front, name).None? {
      LookupFindsBound(front, name, i);
    }
  }

  /** Each query for one competitor fills the template for one use-case choice. */
  lemma {:induction false} CaseQueriesMembers(template: string, st: Setting, comp: Option<string>,
                                               cases: seq<Option<string>>, q: string)
    requires q in CaseQueries(template, st, comp, cases)
    ensures exists j :: 0 <= j < |cases| && q == Filled(template, Variables(st, comp, cases[j]))
  {
    var front := cases[..|cases| - 1];
    if q in CaseQueries(template, st, comp, front) {
      CaseQueriesMembers(template, st, comp, front, q);
      var j :| 0 <= j < |front| && q == Filled(template, Variables(st, comp, front[j]));
      assert front[j] == cases[j];
    } else {
      assert q == Filled(template, Variables(st, comp, cases[|cases| - 1]));
    }
  }

  /** No brace is found in a string without braces. */
  predicate BraceFree(s: string) {
    '{' !in s && '}' !in s
  }

  /** The template `{brand1} vs {brand2} for {use_case}` of the test suite. */
  function ComparisonTemplate(): string {
    Braced("brand1") + " vs " + Braced("brand2") + " for " + Braced("use_case")
  }

  function ComparisonPieces(): seq<Piece> {
    [Slot("brand1"), Text(" vs "), Slot("brand2"), Text(" for "), Slot("use_case")]
  }

  lemma ComparisonNames()
    ensures IsWord("brand1") && IsWord("brand2") && IsWord("use_case")
  {
  }

  lemma ComparisonRender()
    ensures Render(ComparisonPieces()) == ComparisonTemplate()
  {
    ComparisonNames();
    ThreeSlotPieces("brand1", " vs ", "brand2", " for ", "use_case");
  }

  lemma ComparisonWellFormed()
    ensures WellFormed(ComparisonPieces())
  {
    ComparisonNames();
    ThreeSlotPieces("brand1", " vs ", "brand2", " for ", "use_case");
  }

  lemma ComparisonPlaceholders()
    ensures Placeholders(ComparisonTemplate()) == ["brand1", "brand2", "use_case"]
  {
    ComparisonRender();
    ComparisonWellFormed();
    PlaceholdersOfPieces(ComparisonPieces());
    assert SlotNames(ComparisonPieces()) == ["brand1", "brand2", "use_case"] by {
      ComparisonNames();
      ThreeSlotPieces("brand1", " vs ", "brand2", " for ", "use_case");
    }
  }

  /** With a competitor and a use case, all three markers are bound. */
  lemma ComparisonQueryHasNoBraces(st: Setting, comp: string, useCase: string)
    requires BraceFree(st.category) && BraceFree(st.brand) && BraceFree(comp) && BraceFree(useCase)
    requires comp != [] && useCase != []
    ensures BraceFree(Filled(ComparisonTemplate(), Variables(st, Some(comp), Some(useCase))))
  {
    ComparisonRender();
    ComparisonWellFormed();
    var vars := Variables(st, Some(comp), Some(useCase));
    ComparisonBindings(st, comp, useCase);
    ComparisonSlotsBound(vars);
    FillLeavesNoBrace(ComparisonPieces(), vars);
  }

  /** The six variables of a comparison query. */
  lemma ComparisonBindings(st: Setting, comp: string, useCase: string)
    requires BraceFree(st.category) && BraceFree(st.brand) && BraceFree(comp) && BraceFree(useCase)
    requires comp != [] && useCase != []
    ensures var vars := Variables(st, Some(comp), Some(useCase));
      && PlainBindings(vars)
      && (forall i :: 0 <= i < |vars| ==> '}' !in vars[i].1)
      && Lookup(vars, "brand1").Some? && Lookup(vars, "brand2").Some? && Lookup(vars, "use_case").Some?
  {
    var vars := Variables(st, Some(comp), Some(useCase));
    assert vars == [("category", st.category), ("target", st.brand), ("brand1", st.brand),
                    ("brand2", comp), ("competitor", comp), ("use_case", useCase)];
    LookupFindsBound(vars, "brand1", 2);
    LookupFindsBound(vars, "brand2", 3);
    LookupFindsBound(vars, "use_case", 5);
    assert IsWord("category") && IsWord("target") && IsWord("brand1");
    assert IsWord("brand2") && IsWord("competitor") && IsWord("use_case");
  }

  /** The slots of the comparison template are bound once its three names are,
      and its texts hold no brace. */
  lemma ComparisonSlotsBound(vars: seq<(string, string)>)
    requires Lookup(vars, "brand1").Some? && Lookup(vars, "brand2").Some? && Lookup(vars, "use_case").Some?
    ensures var ps := ComparisonPieces();
      && (forall i :: 0 <= i < |ps| && ps[i].Text? ==> '}' !in ps[i].text)
      && (forall i :: 0 <= i < |ps| && ps[i].Slot? ==> Lookup(vars, ps[i].name).Some?)
  {
  }

  /** Every query of a template fills it with one competitor choice and one
      use-case choice. */
  lemma ExpansionOrigin(template: string, st: Setting, q: string)
    requires q in Expansions(template, st)
    ensures exists c, u :: (c in CompetitorChoices(Placeholders(template), st)
      && u in CaseChoices(Placeholders(template), st) && q == Filled(template, Variables(st, c, u)))
  {
    var needed := Placeholders(template);
    var comps, cases := CompetitorChoices(needed, st), CaseChoices(needed, st);
    var rows := CompetitorRows(template, st, cases);
    FlatMapMembers(comps, rows);
    var c :| c in comps && q in rows(c);
    CaseQueriesMembers(template, st, c, cases, q);
    var j :| 0 <= j < |cases| && q == Filled(template, Variables(st, c, cases[j]));
    assert cases[j] in cases;
  }

  /** Every query of the comparison template fills it with one competitor
      and one use case, both taken from the lists. */
  lemma ComparisonQueryOrigin(st: Setting, q: string)
    requires q in Expansions(ComparisonTemplate(), st)
    ensures exists i, j :: (0 <= i < |st.competitors| && 0 <= j < |st.useCases|
      && q == Filled(ComparisonTemplate(), Variables(st, Some(st.competitors[i]), Some(st.useCases[j]))))
  {
    ComparisonPlaceholders();
    ExpansionOrigin(ComparisonTemplate(), st, q);
    var c, u :| c in Choices(st.competitors) && u in Choices(st.useCases)
      && q == Filled(ComparisonTemplate(), Variables(st, c, u));
    var i :| 0 <= i < |st.competitors| && Choices(st.competitors)[i] == c;
    var j :| 0 <= j < |st.useCases| && Choices(st.useCases)[j] == u;
  }

  /** The comparison template, once every value is free of braces and the
      competitor names and use cases are not empty, leaves no brace in any
      query. */
  lemma ComparisonQueriesHaveNoBraces(st: Setting, q: string)
    requires BraceFree(st.category) && BraceFree(st.brand)
    requires forall c :: c in st.competitors ==> c != [] && BraceFree(c)
    requires forall u :: u in st.useCases ==> u != [] && BraceFree(u)
    requires q in Expansions(ComparisonTemplate(), st)
    ensures BraceFree(q)
  {
    ComparisonQueryOrigin(st, q);
    var i, j :| (0 <= i < |st.competitors| && 0 <= j < |st.useCases|
      && q == Filled(ComparisonTemplate(), Variables(st, Some(st.competitors[i]), Some(st.useCases[j]))));
    assert st.competitors[i] in st.competitors && st.useCases[j] in st.useCases;
    ComparisonQueryHasNoBraces(st, st.competitors[i], st.useCases[j]);
  }

  // ---------------------------------------------------------------------
  // Numbering all queries
  // ---------------------------------------------------------------------

  /** The templates of one category, in file order. */
  datatype TemplateGroup = TemplateGroup(category: string, templates: seq<string>)

  /** A generated query record. */
  datatype Query = Query(id: int, category: string, query: string)

  /** The queries of one template, each paired with the category key. */
  function Tagged(category: string, qs: seq<string>): (r: seq<(string, string)>)
    ensures |r| == |qs|
    ensures forall i :: 0 <= i < |qs| ==> r[i] == (category, qs[i])
  {
    if qs == [] then [] else Tagged(category, qs[..|qs| - 1]) + [(category, qs[|qs| - 1])]
  }

  function TagWith(category: string): seq<string> -> seq<(string, string)> {
    qs => Tagged(category, qs)
  }

  /** The expansion of every template for one setting. */
  function ExpandWith(st: Setting): string -> seq<string> {
    t => Expansions(t, st)
  }

  function TemplateRows(category: string, expand: string -> seq<string>): string -> seq<(string, string)> {
    t => Tagged(category, expand(t))
  }

  function GroupRows(expand: string -> seq<string>): TemplateGroup -> seq<(string, string)> {
    (g: TemplateGroup) => FlatMap(g.templates, TemplateRows(g.category, expand))
  }

  /** Every query with its category, category by category and template by
      template, for a given expansion of one template. */
  function Pairs(groups: seq<TemplateGroup>, expand: string -> seq<string>): seq<(string, string)> {
    FlatMap(groups, GroupRows(expand))
  }

  /** The records, numbered by position from 1. */
  function Numbered(ps: seq<(string, string)>): (r: seq<Query>)
    ensures |r| == |ps|
  {
    if ps == [] then []
    else Numbered(ps[..|ps| - 1]) + [Query(|ps|, ps[|ps| - 1].0, ps[|ps| - 1].1)]
  }

  predicate HasTemplate(groups: seq<TemplateGroup>) {
    exists i :: 0 <= i < |groups| && groups[i].templates != []
  }

  /** `generate_all_queries`: the error of the first template expanded, if
      any; otherwise every query, numbered from 1. */
  function AllQueries(groups: seq<TemplateGroup>, placeholders: map<string, string>, target: seq<string>,
                      competitors: seq<string>, useCases: seq<string>): Result<seq<Query>, GenerationError>
  {
    match BaseError(placeholders, target)
    case None => Ok(Numbered(Pairs(groups, ExpandWith(SettingOf(placeholders, target, competitors, useCases)))))
    case Some(e) => if HasTemplate(groups) then Err(e) else Ok([])
  }

  /** Appending the queries of one template, numbered on from `id`. */
  method AppendQueries(ghost before: seq<(string, string)>, soFar: seq<Query>, id: int, category: string, queries: seq<string>)
    returns (all: seq<Query>, next: int)
    requires soFar == Numbered(before) && id == |soFar| + 1
    ensures all == Numbered(before + Tagged(category, queries)) && next == |all| + 1
  {
    all, next := soFar, id;
    assert before + Tagged(category, queries[..0]) == before;
    for qi := 0 to |queries|
      invariant next == |all| + 1
      invariant all == Numbered(before + Tagged(category, queries[..qi]))
    {
      TaggedStep(category, queries, qi);
      AppendIsAssociative(before, Tagged(category, queries[..qi]), [(category, queries[qi])]);
      NumberedSnoc(before + Tagged(category, queries[..qi]), (category, queries[qi]));
      all := all + [Query(next, category, queries[qi])];
      next := next + 1;
    }
    assert queries[..|queries|] == queries;
  }

  /** Tagging one more query adds one pair at the end. */
  lemma TaggedStep(category: string, queries: seq<string>, qi: nat)
    requires qi < |queries|
    ensures Tagged(category, queries[..qi + 1]) == Tagged(category, queries[..qi]) + [(category, queries[qi])]
  {
    assert queries[..qi + 1][..qi] == queries[..qi];
  }

  /** Numbering one more pair adds one record at the end, numbered on. */
  lemma NumberedSnoc(ps: seq<(string, string)>, p: (string, string))
    ensures Numbered(ps + [p]) == Numbered(ps) + [Query(|ps| + 1, p.0, p.1)]
  {
    assert (ps + [p])[..|ps|] == ps;
  }

  /** One template of `generate_all_queries`: expanded, and its queries
      numbered on from `id`. */
  method AppendTemplate(ghost expected: seq<string>, ghost before: seq<(string, string)>, soFar: seq<Query>, id: int,
                        category: string, template: string,
                        placeholders: map<string, string>, target: seq<string>, competitors: seq<string>, useCases: seq<string>)
    returns (failed: Option<GenerationError>, all: seq<Query>, next: int)
    requires BaseError(placeholders, target) == None ==>
      expected == Expansions(template, SettingOf(placeholders, target, competitors, useCases))
    requires soFar == Numbered(before) && id == |soFar| + 1
    ensures failed == BaseError(placeholders, target)
    ensures failed == None ==> all == Numbered(before + Tagged(category, expected)) && next == |all| + 1
  {
    var result := GenerateQueriesFromTemplate(template, placeholders, target, competitors, useCases);
    if result.Err? {
      return Some(result.error), soFar, id;
    }
    all, next := AppendQueries(before, soFar, id, category, result.value);
    failed := None;
  }

  /** The inner loops of `generate_all_queries` for one category: its
      templates expanded in order and their queries numbered on. */
  method AppendGroup(ghost expected: seq<seq<string>>, ghost done: seq<(string, string)>, soFar: seq<Query>, id: int,
                     group: TemplateGroup,
                     placeholders: map<string, string>, target: seq<string>, competitors: seq<string>, useCases: seq<string>)
    returns (failed: Option<GenerationError>, all: seq<Query>, next: int)
    requires |expected| == |group.templates|
    requires BaseError(placeholders, target) == None ==> forall k :: 0 <= k < |expected| ==>
      expected[k] == Expansions(group.templates[k], SettingOf(placeholders, target, competitors, useCases))
    requires soFar == Numbered(done) && id == |soFar| + 1
    ensures failed == (if group.templates == [] then None else BaseError(placeholders, target))
    ensures failed == None ==> all == Numbered(done + FlatMap(expected, TagWith(group.category))) && next == |all| + 1
  {
    all, next := soFar, id;
    ghost var tag := TagWith(group.category);
    assert done + FlatMap(expected[..0], tag) == done;
    for ti := 0 to |group.templates|
      invariant next == |all| + 1
      invariant all == Numbered(done + FlatMap(expected[..ti], tag))
      invariant BaseError(placeholders, target) != None ==> ti == 0
    {
      failed, all, next := AppendTemplate(expected[ti], done + FlatMap(expected[..ti], tag), all, next,
                                          group.category, group.templates[ti], placeholders, target, competitors, useCases);
      if failed.Some? {
        return;
      }
      assert tag(expected[ti]) == Tagged(group.category, expected[ti]);
      FlatMapPrefixAfter(done, expected, tag, ti);
    }
    assert expected[..|expected|] == expected;
    return None, all, next;
  }

  /** The expansions of every template of a category. */
  function ExpectedOf(group: TemplateGroup, st: Setting): (r: seq<seq<string>>)
    ensures |r| == |group.templates|
    ensures forall k :: 0 <= k < |r| ==> r[k] == Expansions(group.templates[k], st)
  {
    seq(|group.templates|, k requires 0 <= k < |group.templates| => Expansions(group.templates[k], st))
  }

  function ExpectedRows(st: Setting): TemplateGroup -> seq<(string, string)> {
    (g: TemplateGroup) => FlatMap(ExpectedOf(g, st), TagWith(g.category))
  }

  /** The queries of one category are its templates' expansions, tagged. */
  lemma GroupRowsThrough(group: TemplateGroup, expand: string -> seq<string>, expected: seq<seq<string>>)
    requires |expected| == |group.templates|
    requires forall k :: 0 <= k < |expected| ==> expected[k] == expand(group.templates[k])
    ensures GroupRows(expand)(group) == FlatMap(expected, TagWith(group.category))
  {
    FlatMapThrough(group.templates, expected, expand, TagWith(group.category), TemplateRows(group.category, expand));
  }

  lemma ExpectedRowsAgree(groups: seq<TemplateGroup>, st: Setting)
    ensures Pairs(groups, ExpandWith(st)) == FlatMap(groups, ExpectedRows(st))
  {
    forall g | g in groups
      ensures GroupRows(ExpandWith(st))(g) == ExpectedRows(st)(g)
    {
      GroupRowsThrough(g, ExpandWith(st), ExpectedOf(g, st));
    }
    FlatMapSameRows(groups, GroupRows(ExpandWith(st)), ExpectedRows(st));
  }

  /** One more category adds its tagged expected rows. */
  lemma ExpectedRowsPrefix(groups: seq<TemplateGroup>, st: Setting, gi: nat)
    requires gi < |groups|
    ensures FlatMap(groups[..gi + 1], ExpectedRows(st))
         == FlatMap(groups[..gi], ExpectedRows(st)) + FlatMap(ExpectedOf(groups[gi], st), TagWith(groups[gi].category))
  {
    FlatMapPrefix(groups, ExpectedRows(st), gi);
  }

  /** When the loop of `generate_all_queries` finishes, the numbered
      expected rows are all the queries. */
  lemma AllQueriesFromExpected(groups: seq<TemplateGroup>, placeholders: map<string, string>, target: seq<string>,
                               competitors: seq<string>, useCases: seq<string>, st: Setting)
    requires BaseError(placeholders, target) == None ==> st == SettingOf(placeholders, target, competitors, useCases)
    requires BaseError(placeholders, target) != None ==> forall i :: 0 <= i < |groups| ==> groups[i].templates == []
    ensures AllQueries(groups, placeholders, target, competitors, useCases) == Ok(Numbered(FlatMap(groups, ExpectedRows(st))))
  {
    ExpectedRowsAgree(groups, st);
    if BaseError(placeholders, target) != None {
      PairsWithoutTemplates(groups, ExpandWith(st));
    }
  }

  /** A template in a category while the base placeholders are incomplete
      makes generation fail with their error. */
  lemma FirstErrorIsReported(groups: seq<TemplateGroup>, placeholders: map<string, string>, target: seq<string>,
                             competitors: seq<string>, useCases: seq<string>, gi: nat)
    requires gi < |groups| && groups[gi].templates != [] && BaseError(placeholders, target).Some?
    ensures AllQueries(groups, placeholders, target, competitors, useCases) == Err(BaseError(placeholders, target).value)
  {
    assert HasTemplate(groups);
  }

  method GenerateAllQueries(groups: seq<TemplateGroup>, placeholders: map<string, string>, target: seq<string>,
                            competitors: seq<string>, useCases: seq<string>)
    returns (r: Result<seq<Query>, GenerationError>)
    ensures r == AllQueries(groups, placeholders, target, competitors, useCases)
  {
    ghost var failure := BaseError(placeholders, target);
    ghost var st := if failure == None then SettingOf(placeholders, target, competitors, useCases)
      else Setting("", "", competitors, useCases);
    ghost var rows := ExpectedRows(st);
    var allQueries: seq<Query> := [];
    var id := 1;
    for gi := 0 to |groups|
      invariant id == |allQueries| + 1
      invariant allQueries == Numbered(FlatMap(groups[..gi], rows))
      invariant failure != None ==> forall i :: 0 <= i < gi ==> groups[i].templates == []
    {
      var group := groups[gi];
      var failed;
      failed, allQueries, id := AppendGroup(ExpectedOf(group, st), FlatMap(groups[..gi], rows), allQueries, id, group,
                                            placeholders, target, competitors, useCases);
      if failed.Some? {
        FirstErrorIsReported(groups, placeholders, target, competitors, useCases, gi);
        return Err(failed.value);
      }
      ExpectedRowsPrefix(groups, st, gi);
    }
    assert groups[..|groups|] == groups;
    AllQueriesFromExpected(groups, placeholders, target, competitors, useCases, st);
    return Ok(allQueries);
  }

  /** Categories without templates produce no query. */
  lemma {:induction false} PairsWithoutTemplates(groups: seq<TemplateGroup>, expand: string -> seq<string>)
    requires forall i :: 0 <= i < |groups| ==> groups[i].templates == []
    ensures Pairs(groups, expand) == []
  {
    if groups != [] {
      var front := groups[..|groups| - 1];
      PairsWithoutTemplates(front, expand);
      assert GroupRows(expand)(groups[|groups| - 1]) == [];
    }
  }

  /** Record `i` carries number `i + 1` and the `i`-th pair. */
  lemma {:induction false} NumberedAt(ps: seq<(string, string)>, i: nat)
    requires i < |ps|
    ensures Numbered(ps)[i] == Query(i + 1, ps[i].0, ps[i].1)
  {
    if i < |ps| - 1 {
      NumberedAt(ps[..|ps| - 1], i);
    }
  }

  /** Numbering more pairs keeps the records already numbered. */
  lemma NumberedPrefix(ps: seq<(string, string)>, qs: seq<(string, string)>)
    ensures Numbered(ps + qs)[..|ps|] == Numbered(ps)
  {
    forall i | 0 <= i < |ps|
      ensures Numbered(ps + qs)[i] == Numbered(ps)[i]
    {
      NumberedAt(ps + qs, i);
      NumberedAt(ps, i);
    }
  }

  /** The ids are 1, 2, ..., n in order, as the test suite checks. */
  lemma AllQueriesAreNumbered(groups: seq<TemplateGroup>, placeholders: map<string, string>, target: seq<string>,
                              competitors: seq<string>, useCases: seq<string>, i: nat)
    requires AllQueries(groups, placeholders, target, competitors, useCases).Ok?
    requires i < |AllQueries(groups, placeholders, target, competitors, useCases).value|
    ensures AllQueries(groups, placeholders, target, competitors, useCases).value[i].id == i + 1
  {
    if BaseError(placeholders, target) == None {
      NumberedAt(Pairs(groups, ExpandWith(SettingOf(placeholders, target, competitors, useCases))), i);
    }
  }

  /** The pairs of one group: its key with a query of one of its templates. */
  lemma GroupRowsMembers(g: TemplateGroup, expand: string -> seq<string>, c: string, q: string)
    ensures (c, q) in GroupRows(expand)(g)
        <==> c == g.category && exists t :: t in g.templates && q in expand(t)
  {
    FlatMapMembers(g.templates, TemplateRows(g.category, expand));
    if (c, q) in GroupRows(expand)(g) {
      var t :| t in g.templates && (c, q) in TemplateRows(g.category, expand)(t);
      var k :| 0 <= k < |expand(t)| && Tagged(g.category, expand(t))[k] == (c, q);
      assert expand(t)[k] in expand(t);
    }
    if c == g.category && exists t :: t in g.templates && q in expand(t) {
      var t :| t in g.templates && q in expand(t);
      var k :| 0 <= k < |expand(t)| && expand(t)[k] == q;
      assert Tagged(g.category, expand(t))[k] == (c, q);
    }
  }

  /** A pair is listed exactly when its query comes from a template of a
      category with that key. */
  lemma PairsMembers(groups: seq<TemplateGroup>, expand: string -> seq<string>, c: string, q: string)
    ensures (c, q) in Pairs(groups, expand)
        <==> exists g, t :: g in groups && t in g.templates && c == g.category && q in expand(t)
  {
    FlatMapMembers(groups, GroupRows(expand));
    if (c, q) in Pairs(groups, expand) {
      var g :| g in groups && (c, q) in GroupRows(expand)(g);
      GroupRowsMembers(g, expand, c, q);
    }
    if exists g, t :: g in groups && t in g.templates && c == g.category && q in expand(t) {
      var g, t :| g in groups && t in g.templates && c == g.category && q in expand(t);
      GroupRowsMembers(g, expand, c, q);
    }
  }

  /** Every record is a query of a template of its category, and every
      query of every template is recorded under its category. */
  lemma AllQueriesComeFromTheirCategory(groups: seq<TemplateGroup>, placeholders: map<string, string>, target: seq<string>,
                                        competitors: seq<string>, useCases: seq<string>, c: string, q: string)
    requires BaseError(placeholders, target) == None
    ensures var qs := AllQueries(groups, placeholders, target, competitors, useCases).value;
      (exists i :: 0 <= i < |qs| && qs[i].category == c && qs[i].query == q)
      <==> exists g, t :: g in groups && t in g.templates && c == g.category
             && q in Expansions(t, SettingOf(placeholders, target, competitors, useCases))
  {
    var st := SettingOf(placeholders, target, competitors, useCases);
    var expand := ExpandWith(st);
    assert AllQueries(groups, placeholders, target, competitors, useCases).value == Numbered(Pairs(groups, expand));
    NumberedMembers(Pairs(groups, expand), c, q);
    PairsMembers(groups, expand, c, q);
    if exists g, t :: g in groups && t in g.templates && c == g.category && q in Expansions(t, st) {
      var g, t :| g in groups && t in g.templates && c == g.category && q in Expansions(t, st);
      assert q in expand(t);
    }
    if exists g, t :: g in groups && t in g.templates && c == g.category && q in expand(t) {
      var g, t :| g in groups && t in g.templates && c == g.category && q in expand(t);
      assert q in Expansions(t, st);
    }
  }

  /** A record with a category and a query exists exactly when that pair was numbered. */
  lemma NumberedMembers(ps: seq<(string, string)>, c: string, q: string)
    ensures (exists i :: 0 <= i < |Numbered(ps)| && Numbered(ps)[i].category == c && Numbered(ps)[i].query == q)
        <==> (c, q) in ps
  {
    var qs := Numbered(ps);
    if exists i :: 0 <= i < |qs| && qs[i].category == c && qs[i].query == q {
      var i :| 0 <= i < |qs| && qs[i].category == c && qs[i].query == q;
      NumberedAt(ps, i);
      assert ps[i] == (c, q);
    }
    if (c, q) in ps {
      var i :| 0 <= i < |ps| && ps[i] == (c, q);
      NumberedAt(ps, i);
    }
  }

  /** Categories are expanded in order: the records of the first categories
      are a prefix of the records of all of them. */
  lemma AllQueriesInCategoryOrder(front: seq<TemplateGroup>, back: seq<TemplateGroup>, placeholders: map<string, string>,
                                  target: seq<string>, competitors: seq<string>, useCases: seq<string>)
    requires BaseError(placeholders, target) == None
    ensures var all := AllQueries(front + back, placeholders, target, competitors, useCases).value;
      var first := AllQueries(front, placeholders, target, competitors, useCases).value;
      |first| <= |all| && all[..|first|] == first
  {
    var expand := ExpandWith(SettingOf(placeholders, target, competitors, useCases));
    FlatMapAppend(front, back, GroupRows(expand));
    NumberedPrefix(Pairs(front, expand), Pairs(back, expand));
  }
}
