/** Generic sequence functions shared by the scripts' loops: "the first element that satisfies a test"
    and "concatenate what each element contributes". */
module Seqs {
  import opened Wrappers

  /** The index of the first element of `xs` satisfying `p`, or None when no element does. */
  function FirstIndex<T>(xs: seq<T>, p: T -> bool): (r: Option<nat>)
    ensures r.Some? ==> r.value < |xs| && p(xs[r.value])
    ensures r.Some? ==> forall j :: 0 <= j < r.value ==> !p(xs[j])
    ensures r.None? ==> forall j :: 0 <= j < |xs| ==> !p(xs[j])
  {
    if xs == [] then None
    else if p(xs[0]) then Some(0)
    else
      match FirstIndex(xs[1..], p)
      case None =>
        assert forall j :: 1 <= j < |xs| ==> xs[j] == xs[1..][j - 1];
        None
      case Some(k) =>
        assert forall j :: 1 <= j <= k ==> xs[j] == xs[1..][j - 1];
        Some(k + 1)
  }

  /** Any index whose element satisfies `p` and is preceded only by elements that do not is the one
      `FirstIndex` returns. */
  lemma FirstIndexIsUnique<T>(xs: seq<T>, p: T -> bool, k: nat)
    requires k < |xs| && p(xs[k])
    requires forall j :: 0 <= j < k ==> !p(xs[j])
    ensures FirstIndex(xs, p) == Some(k)
  {
  }

  /** `f` applied to every element of `xs`, in order. */
  function MapSeq<T, U>(xs: seq<T>, f: T -> U): (ys: seq<U>)
    ensures |ys| == |xs|
    ensures forall i :: 0 <= i < |xs| ==> ys[i] == f(xs[i])
  {
    if xs == [] then [] else [f(xs[0])] + MapSeq(xs[1..], f)
  }

  lemma MapSeqSnoc<T, U>(xs: seq<T>, x: T, f: T -> U)
    ensures MapSeq(xs + [x], f) == MapSeq(xs, f) + [f(x)]
  {
  }

  /** The concatenation, in order, of `f(x)` for every element `x` of `xs`. */
  function MapConcat<T, U>(xs: seq<T>, f: T -> seq<U>): seq<U>
  {
    if xs == [] then [] else f(xs[0]) + MapConcat(xs[1..], f)
  }

  lemma {:induction false} MapConcatAppend<T, U>(a: seq<T>, b: seq<T>, f: T -> seq<U>)
    ensures MapConcat(a + b, f) == MapConcat(a, f) + MapConcat(b, f)
  {
    if a == [] {
      assert a + b == b;
    } else {
      assert (a + b)[1..] == a[1..] + b;
      MapConcatAppend(a[1..], b, f);
    }
  }

  lemma MapConcatSnoc<T, U>(xs: seq<T>, x: T, f: T -> seq<U>)
    ensures MapConcat(xs + [x], f) == MapConcat(xs, f) + f(x)
  {
    MapConcatAppend(xs, [x], f);
    assert MapConcat([x], f) == f(x) + MapConcat([x][1..], f);
  }

  /** Element `j` of the contribution of `xs[i]` sits, in the concatenation, right after everything
      the elements before `xs[i]` contribute. */
  lemma MapConcatIndex<T, U>(xs: seq<T>, f: T -> seq<U>, i: nat, j: nat)
    requires i < |xs| && j < |f(xs[i])|
    ensures |MapConcat(xs[..i], f)| + j < |MapConcat(xs, f)|
    ensures MapConcat(xs, f)[|MapConcat(xs[..i], f)| + j] == f(xs[i])[j]
  {
    assert xs == xs[..i] + [xs[i]] + xs[i + 1..];
    MapConcatAppend(xs[..i] + [xs[i]], xs[i + 1..], f);
    MapConcatSnoc(xs[..i], xs[i], f);
  }

  /** Every position of the concatenation belongs to the contribution of exactly one element. */
  lemma {:induction false} MapConcatLocate<T, U>(xs: seq<T>, f: T -> seq<U>, k: nat) returns (i: nat, j: nat)
    requires k < |MapConcat(xs, f)|
    ensures i < |xs| && j < |f(xs[i])| && k == |MapConcat(xs[..i], f)| + j
  {
    if k < |f(xs[0])| {
      assert xs[..0] == [];
      i, j := 0, k;
    } else {
      var i', j' := MapConcatLocate(xs[1..], f, k - |f(xs[0])|);
      i, j := i' + 1, j';
      assert (xs[..i])[1..] == xs[1..][..i'];
    }
  }

  /** An element of the concatenation comes from the contribution of some element. */
  lemma {:induction false} MapConcatMember<T, U>(xs: seq<T>, f: T -> seq<U>, u: U)
    requires u in MapConcat(xs, f)
    ensures exists i :: 0 <= i < |xs| && u in f(xs[i])
  {
    if u in f(xs[0]) {
    } else {
      MapConcatMember(xs[1..], f, u);
      var i :| 0 <= i < |xs[1..]| && u in f(xs[1..][i]);
      assert xs[i + 1] == xs[1..][i];
    }
  }
}
