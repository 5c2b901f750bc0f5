/** `Collections.shuffle`: for i from the list's size down to 2, swap entry i − 1 with a
    uniformly drawn index below i. The random draws are an input: `roll(i - 1)` is the draw
    taken at that step, reduced into range as `nextInt(i)` would return it. */
module Shuffling {

  predicate Distinct<T(==)>(s: seq<T>)
  {
    forall p, q :: 0 <= p < q < |s| ==> s[p] != s[q]
  }

  function Swapped<T>(s: seq<T>, i: nat, j: nat): (r: seq<T>)
    requires i < |s| && j < |s|
    ensures |r| == |s|
  {
    s[i := s[j]][j := s[i]]
  }

  /** The list after the steps for positions i − 1 down to 1. */
  function ShuffleFrom<T>(s: seq<T>, roll: nat -> nat, i: nat): (r: seq<T>)
    requires i <= |s|
    ensures |r| == |s|
    ensures multiset(r) == multiset(s)
    decreases i
  {
    if i <= 1 then s
    else
      SwappedPermutes(s, i - 1, roll(i - 1) % i);
      ShuffleFrom(Swapped(s, i - 1, roll(i - 1) % i), roll, i - 1)
  }

  /** The whole shuffle of s: a permutation of it. */
  function Shuffled<T>(s: seq<T>, roll: nat -> nat): (r: seq<T>)
    ensures |r| == |s|
    ensures multiset(r) == multiset(s)
  {
    ShuffleFrom(s, roll, |s|)
  }

  /** Swapping two entries permutes the sequence. */
  lemma SwappedPermutes<T>(s: seq<T>, i: nat, j: nat)
    requires i < |s| && j < |s|
    ensures multiset(Swapped(s, i, j)) == multiset(s)
  {
    var t := s[i := s[j]];
    assert multiset(t) == multiset(s) - multiset{s[i]} + multiset{s[j]};
    assert multiset(t[j := s[i]]) == multiset(t) - multiset{t[j]} + multiset{s[i]};
  }

  lemma SwappedKeepsElements<T>(s: seq<T>, i: nat, j: nat)
    requires i < |s| && j < |s|
    ensures forall x :: x in Swapped(s, i, j) <==> x in s
    ensures Distinct(s) ==> Distinct(Swapped(s, i, j))
  {
    var r := Swapped(s, i, j);
    forall x | x in s
      ensures x in r
    {
      var k :| 0 <= k < |s| && s[k] == x;
      if k == i {
        assert r[j] == x;
      } else if k == j {
        assert r[i] == x;
      } else {
        assert r[k] == x;
      }
    }
  }

  /** A shuffle repeats no element that was not repeated before. */
  lemma {:induction false} ShuffleFromKeepsDistinct<T>(s: seq<T>, roll: nat -> nat, i: nat)
    requires i <= |s|
    ensures Distinct(s) ==> Distinct(ShuffleFrom(s, roll, i))
    decreases i
  {
    if i > 1 {
      var t := Swapped(s, i - 1, roll(i - 1) % i);
      SwappedKeepsElements(s, i - 1, roll(i - 1) % i);
      ShuffleFromKeepsDistinct(t, roll, i - 1);
    }
  }

  lemma ShuffledKeepsDistinct<T>(s: seq<T>, roll: nat -> nat)
    ensures Distinct(s) ==> Distinct(Shuffled(s, roll))
  {
    ShuffleFromKeepsDistinct(s, roll, |s|);
  }

  /** `Collections.shuffle` on a list held in an array. */
  method Shuffle<T>(a: array<T>, roll: nat -> nat)
    modifies a
    ensures a[..] == Shuffled(old(a[..]), roll)
  {
    var i := a.Length;
    while i > 1
      invariant 0 <= i <= a.Length
      invariant ShuffleFrom(a[..], roll, i) == Shuffled(old(a[..]), roll)
    {
      var j := roll(i - 1) % i;
      assert a[..][i - 1 := a[j]][j := a[i - 1]] == Swapped(a[..], i - 1, j);
      a[i - 1], a[j] := a[j], a[i - 1];
      i := i - 1;
    }
  }
}
