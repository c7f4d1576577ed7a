/**
 * The one-time Fisher-Yates shuffle that ReelsView runs when it is created.
 * `Math.random` is replaced by a choice sequence `js`: at step `i` the source
 * draws `j = floor(random * (i + 1))`, so `js[i]` is any index in `[0, i]`.
 */
module Shuffle {

  /** The swap `[a[i], a[j]] = [a[j], a[i]]` on a sequence value. */
  function Swapped<T>(s: seq<T>, i: nat, j: nat): (r: seq<T>)
    requires i < |s| && j < |s|
    ensures |r| == |s|
  {
    s[i := s[j]][j := s[i]]
  }

  /** The swap exchanges the two cells, keeps every other one, and so keeps the multiset. */
  lemma SwapExchanges<T>(s: seq<T>, i: nat, j: nat)
    requires i < |s| && j < |s|
    ensures Swapped(s, i, j)[i] == s[j] && Swapped(s, i, j)[j] == s[i]
    ensures forall k :: 0 <= k < |s| && k != i && k != j ==> Swapped(s, i, j)[k] == s[k]
    ensures multiset(Swapped(s, i, j)) == multiset(s)
  {
  }

  /** The choices are legal draws: `js[i]` lies in `[0, i]` for every step `i > 0` the loop takes. */
  predicate ValidChoices(js: seq<nat>, n: nat) {
    |js| == n && forall i :: 0 < i < n ==> js[i] <= i
  }

  /** What is left of the loop when its counter is `i`: the swaps for `i, i-1, ..., 1`. */
  function ShuffleFrom<T>(s: seq<T>, js: seq<nat>, i: nat): seq<T>
    requires i < |s| || i == 0
    requires ValidChoices(js, |s|)
    decreases i
  {
    if i == 0 then s else ShuffleFrom(Swapped(s, i, js[i]), js, i - 1)
  }

  /** The whole shuffle: the loop runs `i` from `|s| - 1` down to 1. */
  function Shuffled<T>(s: seq<T>, js: seq<nat>): seq<T>
    requires ValidChoices(js, |s|)
  {
    if |s| == 0 then s else ShuffleFrom(s, js, |s| - 1)
  }

  /** Whatever the choices, the remaining swaps only permute the items. */
  lemma {:induction false} ShuffleFromPermutes<T>(s: seq<T>, js: seq<nat>, i: nat)
    requires i < |s| || i == 0
    requires ValidChoices(js, |s|)
    ensures |ShuffleFrom(s, js, i)| == |s|
    ensures multiset(ShuffleFrom(s, js, i)) == multiset(s)
    decreases i
  {
    if i > 0 {
      var t := Swapped(s, i, js[i]);
      assert ShuffleFrom(s, js, i) == ShuffleFrom(t, js, i - 1);
      ShuffleFromPermutes(t, js, i - 1);
      SwapExchanges(s, i, js[i]);
    }
  }

  /** The shuffled feed holds exactly the bundled items: same length, every item as often as before. */
  lemma ShuffledIsPermutation<T>(s: seq<T>, js: seq<nat>)
    requires ValidChoices(js, |s|)
    ensures |Shuffled(s, js)| == |s|
    ensures multiset(Shuffled(s, js)) == multiset(s)
  {
    if |s| > 0 {
      ShuffleFromPermutes(s, js, |s| - 1);
    }
  }

  /** One turn of the loop: the swap at `i` followed by the turns below it. */
  lemma ShuffleFromStep<T>(s: seq<T>, js: seq<nat>, i: nat)
    requires 0 < i < |s| && ValidChoices(js, |s|)
    ensures ShuffleFrom(s, js, i) == ShuffleFrom(Swapped(s, i, js[i]), js, i - 1)
  {
  }

  /** The destructuring swap on the array itself. */
  method SwapCells<T>(a: array<T>, i: nat, j: nat)
    requires i < a.Length && j < a.Length
    modifies a
    ensures a[..] == Swapped(old(a[..]), i, j)
  {
    a[i], a[j] := a[j], a[i];
  }

  /** The source's loop, swapping array cells in place. */
  method ShuffleInPlace<T>(a: array<T>, js: seq<nat>)
    requires ValidChoices(js, a.Length)
    modifies a
    ensures a[..] == Shuffled(old(a[..]), js)
    ensures multiset(a[..]) == multiset(old(a[..]))
  {
    ghost var orig := a[..];
    if a.Length > 0 {
      var i := a.Length - 1;
      while i > 0
        invariant 0 <= i < a.Length
        invariant ShuffleFrom(a[..], js, i) == Shuffled(orig, js)
        decreases i
      {
        ghost var before := a[..];
        SwapCells(a, i, js[i]);
        ShuffleFromStep(before, js, i);
        i := i - 1;
      }
    }
    ShuffledIsPermutation(orig, js);
  }
}
