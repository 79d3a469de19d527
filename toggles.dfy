/** The list toggling used by the note-filter and string-selection buttons
    (script.js:482-486 and 523-527): a value already in the list is removed
    with `filter(v => v !== x)`, otherwise it is appended with `push(x)`. */
module Toggles {

  predicate NoDuplicates(xs: seq<int>) {
    forall i, j :: 0 <= i < j < |xs| ==> xs[i] != xs[j]
  }

  /** `xs.filter(v => v !== x)`: every element except `x`, in order. */
  function Without(xs: seq<int>, x: int): (r: seq<int>)
    ensures forall y :: y in r <==> y in xs && y != x
    ensures |r| <= |xs|
    ensures NoDuplicates(xs) ==> NoDuplicates(r)
  {
    if xs == [] then []
    else
      var rest := Without(xs[1..], x);
      assert forall y :: y in xs[1..] ==> y in xs;
      assert NoDuplicates(xs) ==> NoDuplicates(xs[1..]) && xs[0] !in rest by {
        if NoDuplicates(xs) {
          forall i, j | 0 <= i < j < |xs[1..]| ensures xs[1..][i] != xs[1..][j] {
            assert xs[1..][i] == xs[i + 1] && xs[1..][j] == xs[j + 1];
          }
          forall k | 0 <= k < |xs[1..]| ensures xs[1..][k] != xs[0] {
            assert xs[1..][k] == xs[k + 1];
          }
        }
      }
      if xs[0] == x then rest else [xs[0]] + rest
  }

  /** Removing a value that is absent leaves the list as it was. */
  lemma {:induction false} WithoutAbsent(xs: seq<int>, x: int)
    requires x !in xs
    ensures Without(xs, x) == xs
  {
    if xs != [] {
      WithoutAbsent(xs[1..], x);
    }
  }

  /** Removing `x` from `xs + [x]` gives back `xs` when `x` was not in it. */
  lemma {:induction false} WithoutAppended(xs: seq<int>, x: int)
    requires x !in xs
    ensures Without(xs + [x], x) == xs
  {
    if xs == [] {
      assert Without([x], x) == [] + Without([], x);
    } else {
      assert (xs + [x])[1..] == xs[1..] + [x];
      WithoutAppended(xs[1..], x);
    }
  }

  /** One click on a toggle button: remove `x` if present, else append it. */
  function Toggled(xs: seq<int>, x: int): (r: seq<int>)
    ensures x in r <==> x !in xs
    ensures forall y :: y != x ==> (y in r <==> y in xs)
    ensures NoDuplicates(xs) ==> NoDuplicates(r)
  {
    if x in xs then Without(xs, x) else xs + [x]
  }

  /** Two clicks on the same button restore the set of selected values, and
      when the value was not selected the list itself is restored exactly. */
  lemma ToggleTwice(xs: seq<int>, x: int)
    ensures forall y :: y in Toggled(Toggled(xs, x), x) <==> y in xs
    ensures x !in xs ==> Toggled(Toggled(xs, x), x) == xs
  {
    if x !in xs {
      WithoutAppended(xs, x);
    }
  }
}
