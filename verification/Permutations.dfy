/** Bijections of positions, moved lists, and the in-place shuffle (packages/crypto/src/shuffle.ts). */
module Permutations {
  import opened Results

  predicate IsPermutation(pi: seq<int>, n: nat) {
    && |pi| == n
    && (forall i :: 0 <= i < n ==> 0 <= pi[i] < n)
    && forall i, j :: 0 <= i < j < n ==> pi[i] != pi[j]
  }

  /** `pi[old]` is the new place of the item at `old`. */
  predicate IsMoved<T(==)>(items: seq<T>, pi: seq<int>, moved: seq<T>) {
    && |moved| == |items| && IsPermutation(pi, |items|)
    && forall i :: 0 <= i < |items| ==> moved[pi[i]] == items[i]
  }

  function Range(n: nat): (r: set<int>)
    ensures |r| == n && forall x :: x in r <==> 0 <= x < n
  {
    if n == 0 then {} else Range(n - 1) + {n - 1}
  }

  lemma {:induction false} DistinctElements(xs: seq<int>)
    requires forall i, j :: 0 <= i < j < |xs| ==> xs[i] != xs[j]
    ensures |set x | x in xs| == |xs|
  {
    if xs == [] {
      assert (set x | x in xs) == {};
    } else {
      var front, last := xs[..|xs| - 1], xs[|xs| - 1];
      DistinctElements(front);
      assert xs == front + [last];
      assert (set x | x in xs) == (set x | x in front) + {last};
    }
  }

  lemma {:induction false} SameSize(a: set<int>, b: set<int>)
    requires a <= b && |a| == |b|
    ensures a == b
  {
    if exists x :: x in a {
      var x :| x in a;
      SameSize(a - {x}, b - {x});
      assert a == (a - {x}) + {x} && b == (b - {x}) + {x};
    } else {
      assert a == {};
      assert b == {};
    }
  }

  /** A list of `n` distinct places below `n` reaches every place. */
  lemma PlaceReached(pi: seq<int>, n: nat, place: int) returns (i: nat)
    requires IsPermutation(pi, n) && 0 <= place < n
    ensures i < n && pi[i] == place
  {
    var places := set x | x in pi;
    DistinctElements(pi);
    SameSize(places, Range(n));
    assert place in places;
    i :| 0 <= i < n && pi[i] == place;
  }

  ghost function PlaceOf(pi: seq<int>, place: int): (i: nat)
    requires IsPermutation(pi, |pi|) && 0 <= place < |pi|
    ensures i < |pi| && pi[i] == place
  {
    assert exists i: nat :: i < |pi| && pi[i] == place by {
      var i := PlaceReached(pi, |pi|, place);
    }
    var i: nat :| i < |pi| && pi[i] == place;
    i
  }

  ghost function Inverse(pi: seq<int>): (r: seq<int>)
    requires IsPermutation(pi, |pi|)
    ensures IsPermutation(r, |pi|)
    ensures forall i :: 0 <= i < |pi| ==> r[pi[i]] == i && pi[r[i]] == i
  {
    var r := seq(|pi|, place requires 0 <= place < |pi| => PlaceOf(pi, place));
    assert forall i :: 0 <= i < |pi| ==> pi[r[i]] == i;
    assert forall i, j :: 0 <= i < j < |pi| ==> pi[r[i]] != pi[r[j]];
    assert forall i :: 0 <= i < |pi| ==> pi[r[pi[i]]] == pi[i];
    r
  }

  /** `first`, and then `second`. */
  ghost function Then(first: seq<int>, second: seq<int>): (r: seq<int>)
    requires IsPermutation(first, |first|) && IsPermutation(second, |first|)
    ensures IsPermutation(r, |first|) && forall i :: 0 <= i < |first| ==> r[i] == second[first[i]]
  {
    var r := seq(|first|, i requires 0 <= i < |first| => second[first[i]]);
    forall i, j | 0 <= i < j < |first| ensures r[i] != r[j] {
      var a, b := first[i], first[j];
      assert a != b && second[a] != second[b];
    }
    r
  }

  /** A permutation moves a list to exactly one list. */
  lemma MovedOnce<T>(items: seq<T>, pi: seq<int>, a: seq<T>, b: seq<T>)
    requires IsMoved(items, pi, a) && IsMoved(items, pi, b)
    ensures a == b
  {
    forall place | 0 <= place < |a| ensures a[place] == b[place] {
      var i := PlaceReached(pi, |items|, place);
    }
  }

  /** The one list a permutation moves a list to. */
  ghost function Moved<T>(items: seq<T>, pi: seq<int>): (r: seq<T>)
    requires IsPermutation(pi, |items|)
    ensures IsMoved(items, pi, r)
  {
    var back := Inverse(pi);
    var r := seq(|items|, place requires 0 <= place < |items| => items[back[place]]);
    assert forall i :: 0 <= i < |items| ==> back[pi[i]] == i;
    r
  }

  /** Indexed writes into a copy of the list. */
  method Permute<T>(items: seq<T>, pi: seq<int>) returns (moved: seq<T>)
    requires IsPermutation(pi, |items|)
    ensures moved == Moved(items, pi)
  {
    moved := items;
    for i := 0 to |items|
      invariant |moved| == |items|
      invariant forall k :: 0 <= k < i ==> moved[pi[k]] == items[k]
    {
      moved := moved[pi[i] := items[i]];
    }
    MovedOnce(items, pi, moved, Moved(items, pi));
  }

  /** The Fisher-Yates walk: whatever the draws, the result is a bijection. */
  method RoundPermutation(length: nat, draw: (nat, nat) -> nat) returns (permutation: array<int>)
    requires forall end: nat, limit: nat :: limit > 0 ==> draw(end, limit) < limit
    ensures fresh(permutation) && IsPermutation(permutation[..], length)
  {
    permutation := new int[length](i => i);
    var end := length - 1;
    while end > 0
      invariant -1 <= end < length
      invariant IsPermutation(permutation[..], length)
    {
      var swap := draw(end, end + 1);
      ghost var prior := permutation[..];
      permutation[end], permutation[swap] := permutation[swap], permutation[end];
      SwapKeeps(prior, length, end, swap);
      assert permutation[..] == prior[end := prior[swap]][swap := prior[end]];
      end := end - 1;
    }
  }

  lemma SwapKeeps(pi: seq<int>, n: nat, a: nat, b: nat)
    requires IsPermutation(pi, n) && a < n && b < n
    ensures IsPermutation(pi[a := pi[b]][b := pi[a]], n)
  {
  }
}
