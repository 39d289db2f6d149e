/** Pairing and shuffling of the transaction's aligned sequences.

    The handler zips each PSBT metadata sequence with the matching raw sequence
    of the unsigned transaction, shuffles the pairs in place and unzips them
    again, so that the two sequences are permuted by one and the same
    permutation. */
module Shuffle {

  /** The random number generator as a stream of raw draws: `rng(k)` is the
      k-th value it yields. Its distribution is not modelled; any stream is
      allowed, and every stream yields a permutation. */
  type Rng = nat -> nat

  /** Pairs `xs[i]` with `ys[i]`, stopping at the end of the shorter one. */
  function Zip<A, B>(xs: seq<A>, ys: seq<B>): (ps: seq<(A, B)>)
    ensures |ps| == if |xs| <= |ys| then |xs| else |ys|
    ensures forall i :: 0 <= i < |ps| ==> ps[i].0 == xs[i] && ps[i].1 == ys[i]
  {
    if xs == [] || ys == [] then []
    else [(xs[0], ys[0])] + Zip(xs[1..], ys[1..])
  }

  /** Splits a sequence of pairs into the sequence of first components and the
      sequence of second components. */
  function Unzip<A, B>(ps: seq<(A, B)>): (r: (seq<A>, seq<B>))
    ensures |r.0| == |ps| && |r.1| == |ps|
    ensures forall i :: 0 <= i < |ps| ==> r.0[i] == ps[i].0 && r.1[i] == ps[i].1
  {
    if ps == [] then ([], [])
    else
      var rest := Unzip(ps[1..]);
      ([ps[0].0] + rest.0, [ps[0].1] + rest.1)
  }

  /** Unzipping and zipping again gives back the pairs. */
  lemma ZipUnzip<A, B>(ps: seq<(A, B)>)
    ensures Zip(Unzip(ps).0, Unzip(ps).1) == ps
  {
    var r := Unzip(ps);
    assert |Zip(r.0, r.1)| == |ps|;
  }

  /** Zipping and unzipping again gives back both sequences, cut to the
      length of the shorter one. */
  lemma UnzipZip<A, B>(xs: seq<A>, ys: seq<B>)
    ensures var n := if |xs| <= |ys| then |xs| else |ys|;
            Unzip(Zip(xs, ys)) == (xs[..n], ys[..n])
  {
    var n := if |xs| <= |ys| then |xs| else |ys|;
    var r := Unzip(Zip(xs, ys));
    assert r.0 == xs[..n];
    assert r.1 == ys[..n];
  }

  /** Exchanges the elements at positions i and j. */
  function Swap<T>(s: seq<T>, i: nat, j: nat): (r: seq<T>)
    requires i < |s| && j < |s|
  {
    s[i := s[j]][j := s[i]]
  }

  /** Number of draws a shuffle of n elements takes from the generator. */
  function DrawCount(n: nat): nat
  {
    if n == 0 then 0 else n - 1
  }

  /** The Fisher-Yates passes for positions i down to 1: position i is
      exchanged with a position chosen among 0..i by the draw numbered k. */
  function ShuffleDown<T>(s: seq<T>, i: nat, rng: Rng, k: nat): seq<T>
    requires i < |s|
    decreases i
  {
    if i == 0 then s
    else ShuffleDown(Swap(s, i, rng(k) % (i + 1)), i - 1, rng, k + 1)
  }

  /** The whole shuffle of s, taking its draws from number `first` on. It
      only reorders: same length, same elements with the same multiplicities,
      whatever the generator yields. */
  function Shuffled<T>(s: seq<T>, rng: Rng, first: nat): (r: seq<T>)
    ensures |r| == |s|
    ensures multiset(r) == multiset(s)
  {
    if s == [] then s
    else
      ShuffleDownPermutes(s, |s| - 1, rng, first);
      ShuffleDown(s, |s| - 1, rng, first)
  }

  /** One exchange keeps the elements and their multiplicities. */
  lemma SwapPermutes<T>(s: seq<T>, i: nat, j: nat)
    requires i < |s| && j < |s|
    ensures multiset(Swap(s, i, j)) == multiset(s)
  {
  }

  lemma {:induction false} ShuffleDownPermutes<T>(s: seq<T>, i: nat, rng: Rng, k: nat)
    requires i < |s|
    ensures |ShuffleDown(s, i, rng, k)| == |s|
    ensures multiset(ShuffleDown(s, i, rng, k)) == multiset(s)
    decreases i
  {
    if i > 0 {
      var j := rng(k) % (i + 1);
      var t := Swap(s, i, j);
      SwapPermutes(s, i, j);
      ShuffleDownPermutes(t, i - 1, rng, k + 1);
    }
  }

  /** Exchanging two pairs exchanges the two components at the same places. */
  lemma UnzipSwap<A, B>(ps: seq<(A, B)>, i: nat, j: nat)
    requires i < |ps| && j < |ps|
    ensures Unzip(Swap(ps, i, j)).0 == Swap(Unzip(ps).0, i, j)
    ensures Unzip(Swap(ps, i, j)).1 == Swap(Unzip(ps).1, i, j)
  {
    var t := Swap(ps, i, j);
    var u, v := Unzip(t), Unzip(ps);
    var left, right := Swap(v.0, i, j), Swap(v.1, i, j);
    forall m | 0 <= m < |ps|
      ensures u.0[m] == left[m] && u.1[m] == right[m]
    {
      var n := if m == j then i else if m == i then j else m;
      assert t[m] == ps[n] && left[m] == v.0[n] && right[m] == v.1[n];
    }
    assert u.0 == left;
    assert u.1 == right;
  }

  lemma {:induction false} ShuffleDownProjects<A, B>(ps: seq<(A, B)>, i: nat, rng: Rng, k: nat)
    requires i < |ps|
    ensures Unzip(ShuffleDown(ps, i, rng, k)).0 == ShuffleDown(Unzip(ps).0, i, rng, k)
    ensures Unzip(ShuffleDown(ps, i, rng, k)).1 == ShuffleDown(Unzip(ps).1, i, rng, k)
    decreases i
  {
    if i > 0 {
      var j := rng(k) % (i + 1);
      var t := Swap(ps, i, j);
      UnzipSwap(ps, i, j);
      ShuffleDownProjects(t, i - 1, rng, k + 1);
    }
  }

  /** Shuffling pairs and then splitting them is the same as applying the
      same shuffle (same draws) to each component: position i of both
      components comes from one original pair. */
  lemma ShuffledProjects<A, B>(ps: seq<(A, B)>, rng: Rng, first: nat)
    ensures Unzip(Shuffled(ps, rng, first)).0 == Shuffled(Unzip(ps).0, rng, first)
    ensures Unzip(Shuffled(ps, rng, first)).1 == Shuffled(Unzip(ps).1, rng, first)
  {
    var r := Unzip(ps);
    if ps == [] {
      assert r.0 == [] && r.1 == [];
    } else {
      ShuffleDownProjects(ps, |ps| - 1, rng, first);
      assert Shuffled(r.0, rng, first) == ShuffleDown(r.0, |ps| - 1, rng, first);
      assert Shuffled(r.1, rng, first) == ShuffleDown(r.1, |ps| - 1, rng, first);
    }
  }

  /** `SliceRandom::shuffle` on a vector: Fisher-Yates in place, from the
      last position down to position 1. */
  method ShuffleInPlace<T>(a: array<T>, rng: Rng, first: nat)
    modifies a
    ensures a[..] == Shuffled(old(a[..]), rng, first)
  {
    if a.Length == 0 {
      return;
    }
    var i := a.Length - 1;
    var k := first;
    while i > 0
      invariant 0 <= i < a.Length
      invariant ShuffleDown(a[..], i, rng, k) == Shuffled(old(a[..]), rng, first)
    {
      var j := rng(k) % (i + 1);
      ghost var before := a[..];
      var t := a[i];
      a[i] := a[j];
      a[j] := t;
      assert a[..] == Swap(before, i, j);
      i := i - 1;
      k := k + 1;
    }
  }
}
