/** Concatenating the rows produced for each element of a list. */
module Sequences {
  /** The concatenation of the rows of every element, in order. */
  function FlatMap<A, B>(xs: seq<A>, rows: A -> seq<B>): seq<B> {
    if xs == [] then []
    else FlatMap(xs[..|xs| - 1], rows) + rows(xs[|xs| - 1])
  }

  lemma {:induction false} FlatMapAppend<A, B>(xs: seq<A>, ys: seq<A>, rows: A -> seq<B>)
    ensures FlatMap(xs + ys, rows) == FlatMap(xs, rows) + FlatMap(ys, rows)
    decreases |ys|
  {
    if ys == [] {
      assert xs + ys == xs;
    } else {
      var init := ys[..|ys| - 1];
      assert (xs + ys)[..|xs + ys| - 1] == xs + init;
      assert (xs + ys)[|xs + ys| - 1] == ys[|ys| - 1];
      FlatMapAppend(xs, init, rows);
    }
  }

  /** A single element contributes exactly its rows. */
  lemma FlatMapSingle<A, B>(x: A, rows: A -> seq<B>)
    ensures FlatMap([x], rows) == rows(x)
  {
    assert [x][..0] == [];
    assert FlatMap([x], rows) == FlatMap([], rows) + rows(x);
  }

  /** The rows of a prefix, then those of the next slice, are the rows of the longer prefix. */
  lemma FlatMapSlices<A, B>(xs: seq<A>, rows: A -> seq<B>, i: nat, j: nat)
    requires i <= j <= |xs|
    ensures FlatMap(xs[..j], rows) == FlatMap(xs[..i], rows) + FlatMap(xs[i..j], rows)
  {
    assert xs[..i] + xs[i..j] == xs[..j];
    FlatMapAppend(xs[..i], xs[i..j], rows);
  }

  /** Concatenation is associative, stated once for terms too large to
      compare element by element. */
  lemma AppendIsAssociative<T>(a: seq<T>, b: seq<T>, c: seq<T>)
    ensures (a + b) + c == a + (b + c)
  {
  }

  /** One more element adds its rows at the end. */
  lemma FlatMapPrefix<A, B>(xs: seq<A>, rows: A -> seq<B>, i: nat)
    requires i < |xs|
    ensures FlatMap(xs[..i + 1], rows) == FlatMap(xs[..i], rows) + rows(xs[i])
  {
    assert xs[..i + 1][..i] == xs[..i];
  }

  /** The same, behind a prefix of rows already produced. */
  lemma FlatMapPrefixAfter<A, B>(done: seq<B>, xs: seq<A>, rows: A -> seq<B>, i: nat)
    requires i < |xs|
    ensures done + FlatMap(xs[..i + 1], rows) == (done + FlatMap(xs[..i], rows)) + rows(xs[i])
  {
    FlatMapPrefix(xs, rows, i);
    AppendIsAssociative(done, FlatMap(xs[..i], rows), rows(xs[i]));
  }

  /** Rows that factor through an intermediate value: flat-mapping the
      elements is flat-mapping their intermediate values. */
  lemma {:induction false} FlatMapThrough<A, M, B>(xs: seq<A>, ms: seq<M>, f: A -> M, g: M -> seq<B>, rows: A -> seq<B>)
    requires |ms| == |xs| && forall k :: 0 <= k < |xs| ==> ms[k] == f(xs[k])
    requires forall x :: rows(x) == g(f(x))
    ensures FlatMap(xs, rows) == FlatMap(ms, g)
  {
    if xs != [] {
      var n := |xs| - 1;
      FlatMapThrough(xs[..n], ms[..n], f, g, rows);
      assert rows(xs[n]) == g(ms[n]);
    }
  }

  /** Rows that agree on every element give the same flat map. */
  lemma {:induction false} FlatMapSameRows<A, B>(xs: seq<A>, rows: A -> seq<B>, others: A -> seq<B>)
    requires forall x :: x in xs ==> rows(x) == others(x)
    ensures FlatMap(xs, rows) == FlatMap(xs, others)
  {
    if xs != [] {
      FlatMapSameRows(xs[..|xs| - 1], rows, others);
    }
  }

  /** `(n + 1) * b` distributes, stated once so that no proof below needs
      non-linear arithmetic. */
  lemma MulStep(n: nat, b: nat)
    ensures (n + 1) * b == n * b + b
  {
  }

  lemma {:induction false} FlatMapLength<A, B>(xs: seq<A>, rows: A -> seq<B>, b: nat)
    requires forall x :: |rows(x)| == b
    ensures |FlatMap(xs, rows)| == |xs| * b
  {
    if xs != [] {
      var init := xs[..|xs| - 1];
      FlatMapLength(init, rows, b);
      MulStep(|init|, b);
    }
  }

  /** With `b` rows per element, row `i * b + j` is row `j` of element `i`. */
  lemma FlatMapAt<A, B>(xs: seq<A>, rows: A -> seq<B>, b: nat, i: nat, j: nat)
    requires forall x :: |rows(x)| == b
    requires i < |xs| && j < b
    ensures i * b + j < |FlatMap(xs, rows)|
    ensures FlatMap(xs, rows)[i * b + j] == rows(xs[i])[j]
  {
    var before, rest := xs[..i], xs[i..];
    assert xs == before + rest;
    assert rest == [xs[i]] + xs[i + 1..];
    FlatMapAppend(before, rest, rows);
    FlatMapAppend([xs[i]], xs[i + 1..], rows);
    assert FlatMap([xs[i]], rows) == rows(xs[i]) by {
      assert [xs[i]][..0] == [];
    }
    FlatMapLength(before, rows, b);
    FlatMapLength(xs, rows, b);
    MulStep(i, b);
    assert (i + 1) * b <= |xs| * b;
  }

  /** Membership in a flat map. */
  lemma {:induction false} FlatMapMembers<A, B>(xs: seq<A>, rows: A -> seq<B>)
    ensures forall y :: y in FlatMap(xs, rows) ==> exists x :: x in xs && y in rows(x)
    ensures forall x, y :: x in xs && y in rows(x) ==> y in FlatMap(xs, rows)
  {
    if xs != [] {
      FlatMapMembers(xs[..|xs| - 1], rows);
    }
  }
}
