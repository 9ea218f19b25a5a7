/** The examples of `tests/test_mention_analyzer.py`, stated on the model of
    `detect_mentions`. Each text is cut into pieces at characters that no
    alias of the example contains: a piece is either the alias followed by
    one such character, or a stretch that lacks the letter `b` of
    "obsidian" and so holds no match. The matches of the whole text are
    then those of the pieces, moved to where each piece starts.
    The target's name is read from `brands.json` by the source; the tests
    look the mention up as "Obsidian", so the registry here names the
    target "Obsidian". */
module MentionAnalyzerTests {
  import opened Wrappers
  import opened Strings
  import opened Matching
  import opened MentionAnalyzer

  /** A stretch without `b` or `B` holds no match of either alias of the
      examples. */
  lemma NoObsidian(t: string)
    requires 'b' !in t && 'B' !in t
    ensures FindAll(Lower(t), "obsidian") == []
    ensures FindAll(Lower(t), "obsidian.md") == []
  {
    NoMatchWithout(t, "obsidian", 'b');
    NoMatchWithout(t, "obsidian.md", 'b');
  }

  lemma LowerPiece()
    ensures FindAll(Lower("obsidian "), "obsidian") == [0]
  {
    PatternAlone("obsidian ", "obsidian");
  }

  lemma UpperPiece()
    ensures FindAll(Lower("OBSIDIAN "), "obsidian") == [0]
  {
    PatternAlone("OBSIDIAN ", "obsidian");
  }

  lemma CapitalPiece()
    ensures FindAll(Lower("Obsidian "), "obsidian") == [0]
  {
    PatternAlone("Obsidian ", "obsidian");
  }

  /** The target's mention when the target has a single alias. */
  lemma SingleAliasMention(text: string, name: string, alias: string, comps: seq<Competitor>)
    ensures var ms := Mentions(text, Registry(name, [alias], comps));
      && |ms| == 1 + |comps|
      && ms[0].brand == name
      && ms[0].count == |FindAll(Lower(text), Lower(alias))|
      && (ms[0].found <==> ms[0].count > 0)
  {
    var reg := Registry(name, [alias], comps);
    MentionFacts(text, reg, 0);
    assert [alias][..0] == [];
  }

  /** The target's mention when the target has two aliases: the counts of
      both add up, and when both match only at `p` the first position is `p`. */
  lemma TwoAliasMention(text: string, name: string, a1: string, a2: string, comps: seq<Competitor>, p: nat)
    ensures var ms := Mentions(text, Registry(name, [a1, a2], comps));
      && |ms| == 1 + |comps|
      && ms[0].brand == name
      && ms[0].count == |FindAll(Lower(text), Lower(a1))| + |FindAll(Lower(text), Lower(a2))|
      && (ms[0].found <==> ms[0].count > 0)
    ensures var f1, f2 := FindAll(Lower(text), Lower(a1)), FindAll(Lower(text), Lower(a2));
      |f1| == 1 && f1[0] == p && |f2| == 1 && f2[0] == p ==>
        Mentions(text, Registry(name, [a1, a2], comps))[0].firstPosition == Some(p)
  {
    var l := Lower(text);
    var f1, f2 := FindAll(l, Lower(a1)), FindAll(l, Lower(a2));
    assert [a1, a2][..1] == [a1];
    assert [a1][..0] == [];
    assert AliasMatches(l, [a1]) == [] + f1;
    assert AliasMatches(l, [a1, a2]) == AliasMatches(l, [a1]) + f2;
    assert [] + f1 == f1;
    var ms := AliasMatches(l, [a1, a2]);
    assert ms == f1 + f2;
    assert Mentions(text, Registry(name, [a1, a2], comps))[0] == BrandMention(text, name, true, [a1, a2]);
    if |f1| == 1 && f1[0] == p && |f2| == 1 && f2[0] == p {
      assert ms == [p, p];
      assert Least(ms) == p;
    }
  }

  lemma LowerBrand()
    ensures Lower("Obsidian") == "obsidian"
  {
  }

  // test_finds_exact_brand_match

  lemma ExactText()
    ensures "I recommend using Obsidian for note-taking."
         == "I recommend using " + "Obsidian " + "for note-taking."
  {
  }

  lemma ExactHead()
    ensures |FindAll(Lower("I recommend using " + "Obsidian "), "obsidian")| == 1
  {
    NoObsidian("I recommend using ");
    CapitalPiece();
    FindAllLowerSplit("I recommend using ", "Obsidian ", "obsidian");
  }

  lemma ExactMatches()
    ensures |FindAll(Lower("I recommend using " + "Obsidian " + "for note-taking."), "obsidian")| == 1
  {
    ExactHead();
    NoObsidian("for note-taking.");
    FindAllLowerSplit("I recommend using " + "Obsidian ", "for note-taking.", "obsidian");
  }

  lemma ExactMatchesLit()
    ensures |FindAll(Lower("I recommend using Obsidian for note-taking."), "obsidian")| == 1
  {
    ExactText();
    ExactMatches();
  }

  /** `test_finds_exact_brand_match`: "Obsidian" in a sentence is found and
      counted once. */
  lemma FindsExactBrandMatch()
    ensures var ms := Mentions("I recommend using Obsidian for note-taking.",
      Registry("Obsidian", ["Obsidian"], [Competitor("Notion", ["Notion"])]));
      |ms| == 2 && ms[0].brand == "Obsidian" && ms[0].found && ms[0].count == 1
  {
    ExactMatchesLit();
    LowerBrand();
    SingleAliasMention("I recommend using Obsidian for note-taking.", "Obsidian", "Obsidian",
      [Competitor("Notion", ["Notion"])]);
  }

  // test_finds_brand_case_insensitive

  lemma CaseText()
    ensures "obsidian and OBSIDIAN are the same"
         == "obsidian " + "and " + "OBSIDIAN " + "are the same"
  {
  }

  lemma CaseHead()
    ensures |FindAll(Lower("obsidian " + "and "), "obsidian")| == 1
  {
    LowerPiece();
    NoObsidian("and ");
    FindAllLowerSplit("obsidian ", "and ", "obsidian");
  }

  lemma CaseMiddle()
    ensures |FindAll(Lower("obsidian " + "and " + "OBSIDIAN "), "obsidian")| == 2
  {
    CaseHead();
    UpperPiece();
    FindAllLowerSplit("obsidian " + "and ", "OBSIDIAN ", "obsidian");
  }

  lemma CaseMatches()
    ensures |FindAll(Lower("obsidian " + "and " + "OBSIDIAN " + "are the same"), "obsidian")| == 2
  {
    CaseMiddle();
    NoObsidian("are the same");
    FindAllLowerSplit("obsidian " + "and " + "OBSIDIAN ", "are the same", "obsidian");
  }

  lemma CaseMatchesLit()
    ensures |FindAll(Lower("obsidian and OBSIDIAN are the same"), "obsidian")| == 2
  {
    CaseText();
    CaseMatches();
  }

  /** `test_finds_brand_case_insensitive`: the lower-case and the upper-case
      spelling both count. */
  lemma FindsBrandCaseInsensitive()
    ensures var ms := Mentions("obsidian and OBSIDIAN are the same", Registry("Obsidian", ["Obsidian"], []));
      |ms| == 1 && ms[0].brand == "Obsidian" && ms[0].count == 2
  {
    CaseMatchesLit();
    LowerBrand();
    SingleAliasMention("obsidian and OBSIDIAN are the same", "Obsidian", "Obsidian", []);
  }

  // test_multiple_brand_mentions

  lemma MultipleText()
    ensures "Obsidian is great. I use Obsidian daily. Obsidian rocks!"
         == "Obsidian is great. I use " + "Obsidian daily. " + "Obsidian rocks!"
  {
  }

  lemma FirstPieces()
    ensures |FindAll(Lower("Obsidian " + "is great. I use "), "obsidian")| == 1
  {
    CapitalPiece();
    NoObsidian("is great. I use ");
    FindAllLowerSplit("Obsidian ", "is great. I use ", "obsidian");
  }

  lemma FirstSentence()
    ensures |FindAll(Lower("Obsidian is great. I use "), "obsidian")| == 1
  {
    assert "Obsidian is great. I use " == "Obsidian " + "is great. I use ";
    FirstPieces();
  }

  /** The brand once at the front, followed by a text without a `b`. */
  lemma ObsidianThenRest(rest: string)
    requires 'b' !in rest && 'B' !in rest
    ensures |FindAll(Lower("Obsidian " + rest), "obsidian")| == 1
  {
    CapitalPiece();
    NoObsidian(rest);
    FindAllLowerSplit("Obsidian ", rest, "obsidian");
  }

  lemma TwoSentences()
    ensures |FindAll(Lower("Obsidian is great. I use " + "Obsidian daily. "), "obsidian")| == 2
  {
    FirstSentence();
    ObsidianThenRest("daily. ");
    assert "Obsidian " + "daily. " == "Obsidian daily. ";
    FindAllLowerSplit("Obsidian is great. I use ", "Obsidian daily. ", "obsidian");
  }

  lemma MultipleMatches()
    ensures |FindAll(Lower("Obsidian is great. I use " + "Obsidian daily. " + "Obsidian rocks!"), "obsidian")| == 3
  {
    TwoSentences();
    ObsidianThenRest("rocks!");
    assert "Obsidian " + "rocks!" == "Obsidian rocks!";
    FindAllLowerSplit("Obsidian is great. I use " + "Obsidian daily. ", "Obsidian rocks!", "obsidian");
  }

  lemma MultipleMatchesLit()
    ensures |FindAll(Lower("Obsidian is great. I use Obsidian daily. Obsidian rocks!"), "obsidian")| == 3
  {
    MultipleText();
    MultipleMatches();
  }

  /** `test_multiple_brand_mentions`: three occurrences in one text count
      three times. */
  lemma MultipleBrandMentions()
    ensures var ms := Mentions("Obsidian is great. I use Obsidian daily. Obsidian rocks!",
      Registry("Obsidian", ["Obsidian"], []));
      |ms| == 1 && ms[0].brand == "Obsidian" && ms[0].count == 3
  {
    MultipleMatchesLit();
    LowerBrand();
    SingleAliasMention("Obsidian is great. I use Obsidian daily. Obsidian rocks!", "Obsidian", "Obsidian", []);
  }

  // test_finds_brand_alias

  lemma LowerAlias()
    ensures Lower("Obsidian.md") == "obsidian.md"
  {
  }

  lemma AliasTextShort()
    ensures "Check out Obsidian.md for your notes" == "Check out " + "Obsidian." + "md for your notes"
  {
  }

  lemma AliasTextLong()
    ensures "Check out Obsidian.md for your notes" == "Check out " + "Obsidian.md " + "for your notes"
  {
  }

  lemma ShortHead()
    ensures var f := FindAll(Lower("Check out " + "Obsidian."), "obsidian"); |f| == 1 && f[0] == 10
  {
    NoObsidian("Check out ");
    PatternAlone("Obsidian.", "obsidian");
    FindAllLowerSplit("Check out ", "Obsidian.", "obsidian");
  }

  lemma ShortMatches()
    ensures var f := FindAll(Lower("Check out " + "Obsidian." + "md for your notes"), "obsidian"); |f| == 1 && f[0] == 10
  {
    ShortHead();
    NoObsidian("md for your notes");
    FindAllLowerSplit("Check out " + "Obsidian.", "md for your notes", "obsidian");
  }

  lemma LongHead()
    ensures var f := FindAll(Lower("Check out " + "Obsidian.md "), "obsidian.md"); |f| == 1 && f[0] == 10
  {
    NoObsidian("Check out ");
    PatternAlone("Obsidian.md ", "obsidian.md");
    FindAllLowerSplit("Check out ", "Obsidian.md ", "obsidian.md");
  }

  lemma LongMatches()
    ensures var f := FindAll(Lower("Check out " + "Obsidian.md " + "for your notes"), "obsidian.md"); |f| == 1 && f[0] == 10
  {
    LongHead();
    NoObsidian("for your notes");
    FindAllLowerSplit("Check out " + "Obsidian.md ", "for your notes", "obsidian.md");
  }

  lemma AliasMatchesLit()
    ensures var f := FindAll(Lower("Check out Obsidian.md for your notes"), "obsidian"); |f| == 1 && f[0] == 10
    ensures var f := FindAll(Lower("Check out Obsidian.md for your notes"), "obsidian.md"); |f| == 1 && f[0] == 10
  {
    AliasTextShort();
    ShortMatches();
    AliasTextLong();
    LongMatches();
  }

  /** `test_finds_brand_alias`: with the aliases "Obsidian" and "Obsidian.md"
      the brand is found; each alias matches once, both at the same place. */
  lemma FindsBrandAlias()
    ensures var ms := Mentions("Check out Obsidian.md for your notes",
      Registry("Obsidian", ["Obsidian", "Obsidian.md"], []));
      |ms| == 1 && ms[0].brand == "Obsidian" && ms[0].found && ms[0].count == 2
      && ms[0].firstPosition == Some(10)
  {
    AliasMatchesLit();
    LowerBrand();
    LowerAlias();
    TwoAliasMention("Check out Obsidian.md for your notes", "Obsidian", "Obsidian", "Obsidian.md", [], 10);
  }
}
