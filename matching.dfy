/** The search the analyser runs for every alias: `re.finditer(r'\b' +
    re.escape(alias) + r'\b', text)`, a literal pattern between two word
    boundaries, scanned left to right with non-overlapping matches. */
module Matching {
  import opened Strings

  /** `\b` at position `i`: the characters on either side differ in being
      word characters, where a position outside the text counts as non-word. */
  predicate IsBoundary(t: string, i: int)
    requires 0 <= i <= |t|
  {
    (i > 0 && IsWordChar(t[i - 1])) != (i < |t| && IsWordChar(t[i]))
  }

  /** The pattern `\b p \b` matches `t` starting at position `i`. */
  predicate MatchAt(t: string, p: string, i: int) {
    0 <= i && i + |p| <= |t| && t[i..i + |p|] == p && IsBoundary(t, i) && IsBoundary(t, i + |p|)
  }

  /** Where the scan resumes after a match at `i`: its end, or one further
      on for an empty match, as Python's regex engine does. */
  function Step(p: string): nat {
    if |p| == 0 then 1 else |p|
  }

  /** Start positions of the matches found scanning from `pos`. */
  function FindFrom(t: string, p: string, pos: nat): seq<nat>
    decreases |t| + 1 - pos
  {
    if pos > |t| then []
    else if MatchAt(t, p, pos) then [pos] + FindFrom(t, p, pos + Step(p))
    else FindFrom(t, p, pos + 1)
  }

  /** Start positions of all matches of `\b p \b` in `t`. */
  function FindAll(t: string, p: string): seq<nat> {
    FindFrom(t, p, 0)
  }

  /** Every reported position is a real match at or after the scan start,
      and the matches do not overlap: each starts at least a match length
      (or one, for an empty pattern) after the previous one. */
  lemma FindFromSound(t: string, p: string, pos: nat)
    ensures forall k :: 0 <= k < |FindFrom(t, p, pos)| ==>
      pos <= FindFrom(t, p, pos)[k] && MatchAt(t, p, FindFrom(t, p, pos)[k])
    ensures forall k, l :: 0 <= k < l < |FindFrom(t, p, pos)| ==>
      FindFrom(t, p, pos)[k] + Step(p) <= FindFrom(t, p, pos)[l]
  {
    FindFromMatches(t, p, pos);
    FindFromApart(t, p, pos);
  }

  lemma {:induction false} FindFromMatches(t: string, p: string, pos: nat)
    ensures forall k :: 0 <= k < |FindFrom(t, p, pos)| ==>
      pos <= FindFrom(t, p, pos)[k] && MatchAt(t, p, FindFrom(t, p, pos)[k])
    decreases |t| + 1 - pos
  {
    if pos <= |t| {
      if MatchAt(t, p, pos) {
        FindFromMatches(t, p, pos + Step(p));
      } else {
        FindFromMatches(t, p, pos + 1);
      }
    }
  }

  /** Successive positions of `s` lie at least `step` apart. */
  predicate Apart(s: seq<nat>, step: nat) {
    forall k, l :: 0 <= k < l < |s| ==> s[k] + step <= s[l]
  }

  /** A position no later than `step` before every position of an apart
      list can go in front of it. */
  lemma ApartCons(x: nat, s: seq<nat>, step: nat)
    requires Apart(s, step)
    requires forall k :: 0 <= k < |s| ==> x + step <= s[k]
    ensures Apart([x] + s, step)
  {
    var r := [x] + s;
    forall k, l | 0 <= k < l < |r| ensures r[k] + step <= r[l] {
      assert r[l] == s[l - 1];
      if k > 0 {
        assert r[k] == s[k - 1];
      }
    }
  }

  /** A match in front of apart later matches keeps them apart. */
  lemma FindFromApartMatch(t: string, p: string, pos: nat)
    requires pos <= |t| && MatchAt(t, p, pos)
    requires Apart(FindFrom(t, p, pos + Step(p)), Step(p))
    ensures Apart(FindFrom(t, p, pos), Step(p))
  {
    var rest := FindFrom(t, p, pos + Step(p));
    FindFromMatches(t, p, pos + Step(p));
    ApartCons(pos, rest, Step(p));
    assert FindFrom(t, p, pos) == [pos] + rest;
  }

  lemma {:induction false} FindFromApart(t: string, p: string, pos: nat)
    ensures Apart(FindFrom(t, p, pos), Step(p))
    decreases |t| + 1 - pos
  {
    if pos > |t| {
      assert FindFrom(t, p, pos) == [];
    } else if MatchAt(t, p, pos) {
      FindFromApart(t, p, pos + Step(p));
      FindFromApartMatch(t, p, pos);
    } else {
      FindFromApart(t, p, pos + 1);
      assert FindFrom(t, p, pos) == FindFrom(t, p, pos + 1);
    }
  }

  /** Nothing is missed: a match at or after the scan start is reported,
      unless it starts inside a match reported before it. */
  lemma {:induction false} FindFromComplete(t: string, p: string, pos: nat, j: nat)
    requires pos <= j && MatchAt(t, p, j)
    ensures j in FindFrom(t, p, pos)
         || exists i :: i in FindFrom(t, p, pos) && i < j < i + |p|
    decreases |t| + 1 - pos
  {
    if MatchAt(t, p, pos) {
      var rest := FindFrom(t, p, pos + Step(p));
      var found := [pos] + rest;
      assert FindFrom(t, p, pos) == found;
      assert pos in found;
      if j >= pos + Step(p) {
        FindFromComplete(t, p, pos + Step(p), j);
        if j in rest {
          assert j in found;
        } else {
          var i :| i in rest && i < j < i + |p|;
          assert i in found;
        }
      }
    } else {
      assert FindFrom(t, p, pos) == FindFrom(t, p, pos + 1);
      FindFromComplete(t, p, pos + 1, j);
    }
  }

  /** The positions of `s`, each moved `d` further on. */
  function Shift(s: seq<nat>, d: nat): (r: seq<nat>)
    ensures |r| == |s|
  {
    seq(|s|, k requires 0 <= k < |s| => s[k] + d)
  }

  /** A character that is not a word character and does not occur in the
      pattern ends `a`: no match can reach across it. */
  predicate Separates(a: string, p: string) {
    |a| > 0 && !IsWordChar(a[|a| - 1]) && a[|a| - 1] !in p
  }

  /** After a non-word character, the pattern matches the text just as it
      matches the rest on its own. */
  lemma MatchAfter(a: string, b: string, p: string, j: nat)
    requires |a| > 0 && !IsWordChar(a[|a| - 1])
    ensures MatchAt(a + b, p, |a| + j) <==> MatchAt(b, p, j)
  {
    var t := a + b;
    if j + |p| <= |b| {
      assert t[|a| + j..|a| + j + |p|] == b[j..j + |p|];
      assert IsBoundary(t, |a| + j) == IsBoundary(b, j) by {
        if j > 0 {
          assert t[|a| + j - 1] == b[j - 1];
        }
        if j < |b| {
          assert t[|a| + j] == b[j];
        }
      }
      assert IsBoundary(t, |a| + j + |p|) == IsBoundary(b, j + |p|) by {
        if j + |p| > 0 {
          assert t[|a| + j + |p| - 1] == b[j + |p| - 1];
        }
        if j + |p| < |b| {
          assert t[|a| + j + |p|] == b[j + |p|];
        }
      }
    }
  }

  /** Before a separating character, the pattern matches the text just as
      it matches `a` on its own, and a match ends before the separator. */
  lemma MatchBefore(a: string, b: string, p: string, i: nat)
    requires Separates(a, p) && i < |a|
    ensures MatchAt(a + b, p, i) <==> MatchAt(a, p, i)
    ensures MatchAt(a, p, i) ==> i + |p| < |a|
  {
    var t := a + b;
    if i + |p| < |a| {
      assert t[i..i + |p|] == a[i..i + |p|];
      assert t[i + |p|] == a[i + |p|];
      if i > 0 {
        assert t[i - 1] == a[i - 1];
      }
    } else {
      var c := a[|a| - 1];
      if i + |p| <= |t| {
        assert t[i..i + |p|][|a| - 1 - i] == c;
      }
      if i + |p| <= |a| {
        assert a[i..i + |p|][|p| - 1] == c;
      }
    }
  }

  lemma ShiftCons(x: nat, s: seq<nat>, d: nat)
    ensures Shift([x] + s, d) == [x + d] + Shift(s, d)
  {
  }

  /** One step of the scan after `a`: a match in the rest is a match of the
      whole text, moved on by `|a|`. */
  lemma FindFromAfterMatch(a: string, b: string, p: string, j: nat)
    requires |a| > 0 && !IsWordChar(a[|a| - 1]) && j <= |b| && MatchAt(b, p, j)
    requires FindFrom(a + b, p, |a| + (j + Step(p))) == Shift(FindFrom(b, p, j + Step(p)), |a|)
    ensures FindFrom(a + b, p, |a| + j) == Shift(FindFrom(b, p, j), |a|)
  {
    MatchAfter(a, b, p, j);
    ShiftCons(j, FindFrom(b, p, j + Step(p)), |a|);
  }

  lemma FindFromAfterSkip(a: string, b: string, p: string, j: nat)
    requires |a| > 0 && !IsWordChar(a[|a| - 1]) && j <= |b| && !MatchAt(b, p, j)
    requires FindFrom(a + b, p, |a| + (j + 1)) == Shift(FindFrom(b, p, j + 1), |a|)
    ensures FindFrom(a + b, p, |a| + j) == Shift(FindFrom(b, p, j), |a|)
  {
    MatchAfter(a, b, p, j);
  }

  /** Scanning the text from a position after `a` finds the matches in the
      rest, moved on by `|a|`. */
  lemma {:induction false} FindFromAfter(a: string, b: string, p: string, j: nat)
    requires |a| > 0 && !IsWordChar(a[|a| - 1])
    ensures FindFrom(a + b, p, |a| + j) == Shift(FindFrom(b, p, j), |a|)
    decreases |b| + 1 - j
  {
    if j > |b| {
      assert FindFrom(b, p, j) == [];
    } else if MatchAt(b, p, j) {
      FindFromAfter(a, b, p, j + Step(p));
      FindFromAfterMatch(a, b, p, j);
    } else {
      FindFromAfter(a, b, p, j + 1);
      FindFromAfterSkip(a, b, p, j);
    }
  }

  /** Scanning the text from a position inside `a` finds the matches in `a`,
      then those after it. */
  lemma {:induction false} FindFromBefore(a: string, b: string, p: string, i: nat)
    requires Separates(a, p) && i <= |a|
    ensures FindFrom(a + b, p, i) == FindFrom(a, p, i) + FindFrom(a + b, p, |a|)
    decreases |a| - i
  {
    if i == |a| {
      assert FindFrom(a, p, i) == [];
    } else {
      MatchBefore(a, b, p, i);
      if MatchAt(a, p, i) {
        FindFromBefore(a, b, p, i + Step(p));
      } else {
        FindFromBefore(a, b, p, i + 1);
      }
    }
  }

  /** A text that breaks at a separating character has the matches of its
      first part followed by those of its second part, moved on. */
  lemma FindAllSplit(a: string, b: string, p: string)
    requires Separates(a, p)
    ensures FindAll(a + b, p) == FindAll(a, p) + Shift(FindAll(b, p), |a|)
  {
    FindFromBefore(a, b, p, 0);
    FindFromAfter(a, b, p, 0);
  }

  /** The same split for a text that is lower-cased before the search, as
      the analyser does: the matches in the lower-cased text are those of
      its lower-cased parts. */
  lemma FindAllLowerSplit(a: string, b: string, p: string)
    requires Separates(Lower(a), p)
    ensures FindAll(Lower(a + b), p) == FindAll(Lower(a), p) + Shift(FindAll(Lower(b), p), |a|)
    ensures |FindAll(Lower(a + b), p)| == |FindAll(Lower(a), p)| + |FindAll(Lower(b), p)|
  {
    LowerAppend(a, b);
    FindAllSplit(Lower(a), Lower(b), p);
  }

  /** A text in which some lower-case letter of the pattern occurs neither
      in lower nor in upper case has no match once lower-cased. */
  lemma NoMatchWithout(t: string, p: string, c: char)
    requires 'a' <= c <= 'z' && c in p
    requires c !in t && (c as int - 32) as char !in t
    ensures FindAll(Lower(t), p) == []
  {
    var l := Lower(t);
    var j :| 0 <= j < |p| && p[j] == c;
    forall i | 0 <= i <= |l|
      ensures !MatchAt(l, p, i)
    {
      if i + |p| <= |l| {
        assert l[i..i + |p|][j] == LowerChar(t[i + j]);
        assert t[i + j] in t;
      }
    }
    FindFromSound(l, p, 0);
    if FindAll(l, p) != [] {
      MatchInsideText(l, p, FindAll(l, p)[0]);
    }
  }

  /** A piece that is the pattern, in any case, followed by at most one
      non-word character, where the pattern begins and ends with a word
      character: it holds exactly one match, at its start. */
  lemma PatternAlone(t: string, p: string)
    requires |p| >= 2 && IsWordChar(p[0]) && IsWordChar(p[|p| - 1])
    requires |p| <= |t| <= |p| + 1
    requires forall k :: 0 <= k < |p| ==> LowerChar(t[k]) == p[k]
    requires |t| == |p| + 1 ==> !IsWordChar(t[|p|])
    ensures FindAll(Lower(t), p) == [0]
  {
    var l := Lower(t);
    assert l[0..|p|] == p;
    assert MatchAt(l, p, 0);
    assert FindFrom(l, p, |l| + 1) == [];
    assert FindFrom(l, p, |l|) == [];
    assert FindFrom(l, p, |p|) == [];
  }

  /** Every reported position lies within the text, and only a non-empty
      text has any. */
  lemma FindAllInsideText(t: string, p: string)
    ensures forall k :: 0 <= k < |FindAll(t, p)| ==> FindAll(t, p)[k] <= |t|
    ensures FindAll(t, p) != [] ==> 0 < |t|
  {
    FindFromSound(t, p, 0);
    if FindAll(t, p) != [] {
      MatchInsideText(t, p, FindAll(t, p)[0]);
    }
  }

  /** A match ends inside the text and the text around it is not empty:
      its start is at most the text length, and the text has at least one
      character, since a boundary needs a word character next to it. */
  lemma MatchInsideText(t: string, p: string, i: int)
    requires MatchAt(t, p, i)
    ensures 0 < |t| && i <= |t|
  {
  }
}
