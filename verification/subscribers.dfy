/**
  Subscriber lists of a stream. A subscriber is a callback function that the
  stream only ever compares by identity, so it is modelled as an opaque id.
  Both `callbacks` and `errorCallbacks` are plain arrays in index.js: a
  subscription pushes at the end, and a removal looks up the first position
  with `indexOf` and deletes it with `splice(index, 1)`.
 */
module Subscribers {

  /** The identity of a callback function. */
  type Id = nat

  /** `xs.indexOf(x)`: the first position holding `x`, or -1 when there is none. */
  function IndexOf(xs: seq<Id>, x: Id): (i: int)
    ensures -1 <= i < |xs|
    ensures i == -1 <==> x !in xs
    ensures 0 <= i ==> xs[i] == x
    ensures forall k :: 0 <= k < i ==> xs[k] != x
  {
    if |xs| == 0 then -1
    else if xs[0] == x then 0
    else
      var j := IndexOf(xs[1..], x);
      if j == -1 then -1
      else
        assert xs[..j + 1] == [xs[0]] + xs[1..][..j];
        j + 1
  }

  /**
    `off` / `offRejection`: splice out the first occurrence of `x` when
    `indexOf` finds one, and leave the list alone otherwise.
   */
  function Remove(xs: seq<Id>, x: Id): (r: seq<Id>)
    ensures x !in xs ==> r == xs
    ensures x in xs ==> |r| == |xs| - 1
    ensures multiset(r) == multiset(xs) - multiset{x}
  {
    var i := IndexOf(xs, x);
    if i > -1 then
      assert xs == xs[..i] + [xs[i]] + xs[i + 1..];
      xs[..i] + xs[i + 1..]
    else xs
  }

  /** First-occurrence deletion defined element by element, as a reference for `Remove`. */
  function DropFirst(xs: seq<Id>, x: Id): seq<Id>
  {
    if |xs| == 0 then []
    else if xs[0] == x then xs[1..]
    else [xs[0]] + DropFirst(xs[1..], x)
  }

  /** Removing from a list whose head is not `x` keeps the head and removes from the tail. */
  lemma RemoveSkipsHead(xs: seq<Id>, x: Id)
    requires |xs| > 0 && xs[0] != x
    ensures Remove(xs, x) == [xs[0]] + Remove(xs[1..], x)
  {
    var t := xs[1..];
    var j := IndexOf(t, x);
    assert IndexOf(xs, x) == (if j == -1 then -1 else j + 1);
    if j > -1 {
      SpliceSkipsHead(xs, j + 1);
    } else {
      assert xs == [xs[0]] + t;
    }
  }

  /** Splicing out a position after the head keeps the head in front. */
  lemma SpliceSkipsHead(xs: seq<Id>, i: nat)
    requires 0 < i < |xs|
    ensures xs[..i] + xs[i + 1..] == [xs[0]] + (xs[1..][..i - 1] + xs[1..][i..])
  {
    assert xs[..i] == [xs[0]] + xs[1..][..i - 1];
    assert xs[i + 1..] == xs[1..][i..];
  }

  /**
    The index-and-splice removal is exactly the structural first-occurrence
    deletion: the survivors keep their relative order and only the first `x`
    goes.
   */
  lemma {:induction false} RemoveIsDropFirst(xs: seq<Id>, x: Id)
    ensures Remove(xs, x) == DropFirst(xs, x)
  {
    if |xs| == 0 {
    } else if xs[0] == x {
      assert IndexOf(xs, x) == 0;
    } else {
      RemoveSkipsHead(xs, x);
      RemoveIsDropFirst(xs[1..], x);
    }
  }

  /** Removing an id that was just appended, and occurs nowhere else, gives back the list. */
  lemma RemoveAppendedFresh(xs: seq<Id>, x: Id)
    requires x !in xs
    ensures Remove(xs + [x], x) == xs
  {
    var ys := xs + [x];
    assert x !in ys[..|xs|] by { assert ys[..|xs|] == xs; }
    assert IndexOf(ys, x) == |xs|;
    assert ys[..|xs|] == xs;
  }

  /** When `x` already occurs in `xs`, removal never reaches what was appended after `xs`. */
  lemma {:induction false} RemoveBeforeSuffix(xs: seq<Id>, ys: seq<Id>, x: Id)
    requires x in xs
    ensures Remove(xs + ys, x) == Remove(xs, x) + ys
  {
    RemoveIsDropFirst(xs + ys, x);
    RemoveIsDropFirst(xs, x);
    DropFirstBeforeSuffix(xs, ys, x);
  }

  lemma {:induction false} DropFirstBeforeSuffix(xs: seq<Id>, ys: seq<Id>, x: Id)
    requires x in xs
    ensures DropFirst(xs + ys, x) == DropFirst(xs, x) + ys
  {
    assert (xs + ys)[0] == xs[0];
    if xs[0] == x {
      assert (xs + ys)[1..] == xs[1..] + ys;
    } else {
      assert (xs + ys)[1..] == xs[1..] + ys;
      DropFirstBeforeSuffix(xs[1..], ys, x);
    }
  }
}
