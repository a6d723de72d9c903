/** Facts about sequences that several modules need. */
module Sequences {

  function Elements<T>(items: seq<T>): set<T> {
    set x | x in items
  }

  lemma ElementsSnoc<T>(items: seq<T>, x: T)
    ensures Elements(items + [x]) == Elements(items) + {x}
  {
  }

  predicate NoRepeats<T(==)>(items: seq<T>) {
    forall i, j :: 0 <= i < j < |items| ==> items[i] != items[j]
  }

  lemma TwiceCounts<T>(s: seq<T>, i: nat, j: nat)
    requires i < j < |s| && s[i] == s[j]
    ensures multiset(s)[s[i]] >= 2
  {
    assert s == s[..i] + [s[i]] + s[i + 1..j] + [s[j]] + s[j + 1..];
  }

  /** A value taken through a list of inputs. */
  function Fold<S, C>(f: (S, C) -> S, s: S, inputs: seq<C>): S
    decreases |inputs|
  {
    if inputs == [] then s else Fold(f, f(s, inputs[0]), inputs[1..])
  }

  /** Each input meets its guard when it is taken. */
  ghost predicate FoldsUnder<S, C>(f: (S, C) -> S, guard: (S, C) -> bool, s: S, inputs: seq<C>)
    decreases |inputs|
  {
    inputs == [] || (guard(s, inputs[0]) && FoldsUnder(f, guard, f(s, inputs[0]), inputs[1..]))
  }

  lemma {:induction false} FoldInParts<S, C>(f: (S, C) -> S, guard: (S, C) -> bool, s: S, first: seq<C>, second: seq<C>)
    requires FoldsUnder(f, guard, s, first) && FoldsUnder(f, guard, Fold(f, s, first), second)
    ensures FoldsUnder(f, guard, s, first + second)
    ensures Fold(f, s, first + second) == Fold(f, Fold(f, s, first), second)
    decreases |first|
  {
    if first == [] {
      assert first + second == second;
    } else {
      assert (first + second)[1..] == first[1..] + second;
      FoldInParts(f, guard, f(s, first[0]), first[1..], second);
    }
  }
}
