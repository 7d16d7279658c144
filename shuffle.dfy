/** Durstenfeld's in-place Fisher-Yates shuffle run on a copy of its input.
    The random source is replaced by the indices it leads to: the k-th draw
    is made for position i = n-1-k and picks some j with 0 <= j <= i. */
module Shuffle {

  /** Exchanges the elements at positions `i` and `j`. */
  function Swap<T>(s: seq<T>, i: nat, j: nat): (r: seq<T>)
    requires i < |s| && j < |s|
    ensures |r| == |s| && r[i] == s[j] && r[j] == s[i]
    ensures forall k :: 0 <= k < |s| && k != i && k != j ==> r[k] == s[k]
  {
    s[i := s[j]][j := s[i]]
  }

  /** An exchange keeps every element with its multiplicity. */
  lemma SwapPermutes<T>(s: seq<T>, i: nat, j: nat)
    requires i < |s| && j < |s|
    ensures multiset(Swap(s, i, j)) == multiset(s)
  {
  }

  /** `choices` holds one in-range index per swap of a pass over `n`
      elements: the k-th is at most n-1-k. */
  predicate ValidChoices(n: nat, choices: seq<nat>) {
    |choices| >= n - 1 && forall k :: 0 <= k < n - 1 ==> choices[k] <= n - 1 - k
  }

  /** The remaining swaps of the pass, from position `i` down to 1; the swap
      at position i uses the draw numbered |s|-1-i. */
  function Passes<T>(s: seq<T>, i: nat, choices: seq<nat>): seq<T>
    requires i < |s| && ValidChoices(|s|, choices)
    decreases i
  {
    if i == 0 then s else Passes(Swap(s, i, choices[|s| - 1 - i]), i - 1, choices)
  }

  /** The sequence the shuffle returns for `items` and the given draws. */
  function ShuffleOf<T>(items: seq<T>, choices: seq<nat>): seq<T>
    requires ValidChoices(|items|, choices)
  {
    if |items| == 0 then items else Passes(items, |items| - 1, choices)
  }

  /** The pass only exchanges elements: the result is a permutation. */
  lemma {:induction false} PassesPermutes<T>(s: seq<T>, i: nat, choices: seq<nat>)
    requires i < |s| && ValidChoices(|s|, choices)
    ensures |Passes(s, i, choices)| == |s|
    ensures multiset(Passes(s, i, choices)) == multiset(s)
    decreases i
  {
    if i > 0 {
      SwapPermutes(s, i, choices[|s| - 1 - i]);
      PassesPermutes(Swap(s, i, choices[|s| - 1 - i]), i - 1, choices);
    }
  }

  /** Shuffling yields a permutation of the input: same length, same elements
      with the same multiplicities. */
  lemma ShuffleIsPermutation<T>(items: seq<T>, choices: seq<nat>)
    requires ValidChoices(|items|, choices)
    ensures |ShuffleOf(items, choices)| == |items|
    ensures multiset(ShuffleOf(items, choices)) == multiset(items)
  {
    if |items| > 0 {
      PassesPermutes(items, |items| - 1, choices);
    }
  }

  /** One step of the pass: exchanges two cells of the array in place. */
  method SwapCells<T>(a: array<T>, i: nat, j: nat)
    requires i < a.Length && j < a.Length
    modifies a
    ensures a[..] == Swap(old(a[..]), i, j)
  {
    a[i], a[j] := a[j], a[i];
  }

  /** The shuffle: the input sequence is copied into a fresh array, which the
      loop permutes in place from the last position down to position 1. */
  method Shuffle<T>(items: seq<T>, choices: seq<nat>) returns (r: seq<T>)
    requires ValidChoices(|items|, choices)
    ensures r == ShuffleOf(items, choices)
    ensures |r| == |items| && multiset(r) == multiset(items)
    ensures |items| <= 1 ==> r == items
  {
    var copy := new T[|items|](k requires 0 <= k < |items| => items[k]);
    var n := copy.Length;
    var i := n - 1;
    assert copy[..] == items;
    while i > 0
      invariant n == 0 ==> i == -1
      invariant n > 0 ==> 0 <= i < n
      invariant n > 0 ==> Passes(copy[..], i, choices) == ShuffleOf(items, choices)
    {
      SwapCells(copy, i, choices[n - 1 - i]);
      i := i - 1;
    }
    r := copy[..];
    ShuffleIsPermutation(items, choices);
  }

  // ----- From the uniform generator to indices -----

  /** Scaling by a factor below one shrinks a positive number. */
  lemma ScaleBelow(u: real, m: real)
    requires 0.0 <= u < 1.0 && m > 0.0
    ensures u * m < m
  {
    assert m - u * m == (1.0 - u) * m;
    assert (1.0 - u) * m > 0.0;
  }

  /** The index the source derives from one draw `u` in [0, 1) for position
      `i`: floor(u * (i + 1)), which always lies in [0, i]. */
  function ChoiceFromUniform(u: real, i: nat): (j: nat)
    requires 0.0 <= u < 1.0
    ensures j <= i
  {
    var m: real := (i + 1) as real;
    ScaleBelow(u, m);
    (u * m).Floor
  }

  /** The indices one pass over `n` elements derives from the draws, in the
      order the loop consumes them. */
  function ChoicesFromDraws(draws: seq<real>, n: nat): (choices: seq<nat>)
    requires |draws| >= n - 1
    requires forall k :: 0 <= k < |draws| ==> 0.0 <= draws[k] < 1.0
    ensures ValidChoices(n, choices)
  {
    seq(if n == 0 then 0 else n - 1, k requires 0 <= k < n - 1 => ChoiceFromUniform(draws[k], n - 1 - k))
  }

  /** A generator that always returns 0.5 draws the indices 2, 1, 1 for a
      pass over four elements. */
  lemma HalfGeneratorChoices()
    ensures ChoicesFromDraws([0.5, 0.5, 0.5], 4) == [2, 1, 1]
  {
    assert ChoiceFromUniform(0.5, 3) == 2 by { assert 0.5 * 4.0 == 2.0; }
    assert ChoiceFromUniform(0.5, 2) == 1 by { assert 0.5 * 3.0 == 1.5; }
    assert ChoiceFromUniform(0.5, 1) == 1 by { assert 0.5 * 2.0 == 1.0; }
  }

  /** With those indices, [1, 2, 3, 4] is shuffled into [1, 4, 2, 3]. */
  lemma HalfGeneratorVector()
    ensures ShuffleOf([1, 2, 3, 4], [2, 1, 1]) == [1, 4, 2, 3]
  {
    var s1 := Swap([1, 2, 3, 4], 3, 2);
    assert s1 == [1, 2, 4, 3];
    var s2 := Swap(s1, 2, 1);
    assert s2 == [1, 4, 2, 3];
    var s3 := Swap(s2, 1, 1);
    assert s3 == s2;
    assert Passes(s2, 1, [2, 1, 1]) == Passes(s3, 0, [2, 1, 1]);
    assert Passes(s1, 2, [2, 1, 1]) == Passes(s2, 1, [2, 1, 1]);
    assert Passes([1, 2, 3, 4], 3, [2, 1, 1]) == Passes(s1, 2, [2, 1, 1]);
  }
}
