/**
Deltas of room state: two of them, applied one after the other, are folded into one in which adds and
removes cancel out.
*/
module StateDelta {
  import opened Sequences

  type EventId = string

  datatype Delta = Delta(adds: set<EventId>, removes: set<EventId>)

  function Apply(state: set<EventId>, d: Delta): set<EventId> {
    (state + d.adds) - d.removes
  }

  /** The meaning of two deltas: add(1), remove(1), add(2), remove(2). */
  function InTurn(state: set<EventId>, d1: Delta, d2: Delta): set<EventId> {
    Apply(Apply(state, d1), d2)
  }

  /** What one pass leaves: values found in `removeFrom` cancel there, the others join `addTo`. */
  function Cancel(values: set<EventId>, removeFrom: set<EventId>): set<EventId> {
    values - removeFrom
  }

  /** The two passes of each delta, on sets. */
  function Combined(d1: Delta, d2: Delta): Delta {
    var adds1 := d1.adds;
    var adds2, removes2 := adds1 - d1.removes, Cancel(d1.removes, adds1);
    var adds3, removes3 := adds2 + Cancel(d2.adds, removes2), removes2 - d2.adds;
    Delta(adds3 - d2.removes, removes3 + Cancel(d2.removes, adds3))
  }

  /** The closure inside combineDeltas, on the two maps it changes. */
  method CombinePass(values: seq<EventId>, removeFrom: set<EventId>, addTo: set<EventId>)
    returns (removeFrom': set<EventId>, addTo': set<EventId>)
    ensures removeFrom' == removeFrom - Elements(values)
    ensures addTo' == addTo + Cancel(Elements(values), removeFrom)
  {
    removeFrom', addTo' := removeFrom, addTo;
    var processed: set<EventId> := {};
    for i := 0 to |values|
      invariant processed == Elements(values[..i])
      invariant removeFrom' == removeFrom - processed
      invariant addTo' == addTo + Cancel(processed, removeFrom)
    {
      var value := values[i];
      assert values[..i + 1] == values[..i] + [value];
      assert Elements(values[..i + 1]) == processed + {value};
      if value in processed {
        continue;
      }
      processed := processed + {value};
      if value in removeFrom' {
        removeFrom' := removeFrom' - {value};
      } else {
        addTo' := addTo' + {value};
      }
    }
    assert values[..|values|] == values;
  }

  /** Ranging over a map, in any order. */
  method Listed(values: set<EventId>) returns (list: seq<EventId>)
    ensures NoRepeats(list) && Elements(list) == values
  {
    list := [];
    var todo := values;
    while todo != {}
      invariant todo <= values && NoRepeats(list) && Elements(list) == values - todo
      decreases todo
    {
      var v :| v in todo;
      assert forall i :: 0 <= i < |list| ==> list[i] in Elements(list);
      assert Elements(list + [v]) == Elements(list) + {v};
      list := list + [v];
      todo := todo - {v};
    }
  }

  /** combineDeltas: the outputs depend on the sets of values only, and list each value once. */
  method CombineDeltas(adds1: seq<EventId>, removes1: seq<EventId>, adds2: seq<EventId>, removes2: seq<EventId>)
    returns (adds: seq<EventId>, removes: seq<EventId>)
    ensures NoRepeats(adds) && NoRepeats(removes)
    ensures Delta(Elements(adds), Elements(removes))
         == Combined(Delta(Elements(adds1), Elements(removes1)), Delta(Elements(adds2), Elements(removes2)))
  {
    var addSet: set<EventId>, removeSet: set<EventId>, none: set<EventId> := {}, {}, {};
    none, addSet := CombinePass(adds1, none, addSet);
    addSet, removeSet := CombinePass(removes1, addSet, removeSet);
    removeSet, addSet := CombinePass(adds2, removeSet, addSet);
    addSet, removeSet := CombinePass(removes2, addSet, removeSet);
    adds := Listed(addSet);
    removes := Listed(removeSet);
  }

  /** No event is both added and removed, whatever the inputs. */
  lemma CombinedIsDisjoint(d1: Delta, d2: Delta)
    ensures Combined(d1, d2).adds !! Combined(d1, d2).removes
  {
    var adds2, removes2 := d1.adds - d1.removes, d1.removes - d1.adds;
    assert adds2 !! removes2;
  }

  /** Adds were absent before and removes are present: what a delta between two states looks like. */
  predicate Effective(state: set<EventId>, d: Delta) {
    d.adds !! state && d.removes <= state + d.adds
  }

  /**
  What cancellation presumes. Events taken away by the first delta and added back by the second were in
  the state; events added by either delta and taken away again were not.
  */
  predicate CancellationIsSound(state: set<EventId>, d1: Delta, d2: Delta) {
    var kept1 := d1.adds - d1.removes;
    var gone1 := d1.removes - d1.adds;
    && ((gone1 * d2.adds) - d2.removes) <= state
    && ((d1.adds * d1.removes) - d2.adds - d2.removes) !! state
    && (d2.removes * (kept1 + (d2.adds - gone1))) !! state
  }

  /** Folding two deltas into one is right exactly when what cancelled out was already as it ends up. */
  lemma CombinedPreservesExactlyWhen(state: set<EventId>, d1: Delta, d2: Delta)
    ensures Apply(state, Combined(d1, d2)) == InTurn(state, d1, d2) <==> CancellationIsSound(state, d1, d2)
  {
    var left, right := Apply(state, Combined(d1, d2)), InTurn(state, d1, d2);
    if CancellationIsSound(state, d1, d2) {
      forall x ensures x in left <==> x in right { }
    }
    if left == right {
      forall x | x in (d1.removes - d1.adds) * d2.adds - d2.removes ensures x in state {
        assert x in right;
      }
      forall x | x in (d1.adds * d1.removes) - d2.adds - d2.removes ensures x !in state {
        assert x !in right;
      }
      forall x | x in d2.removes * ((d1.adds - d1.removes) + (d2.adds - (d1.removes - d1.adds))) ensures x !in state {
        assert x !in right;
      }
    }
  }

  /** For deltas between actual states nothing is lost by folding them. */
  lemma CombinedPreservesEffectiveDeltas(state: set<EventId>, d1: Delta, d2: Delta)
    requires Effective(state, d1) && Effective(Apply(state, d1), d2)
    ensures Apply(state, Combined(d1, d2)) == InTurn(state, d1, d2)
    ensures Combined(d1, d2).removes <= state
  {
    CombinedPreservesExactlyWhen(state, d1, d2);
  }

  /** The folded delta is minimal: it lists no event that is already as it should be. */
  lemma CombinedIsEffective(state: set<EventId>, d1: Delta, d2: Delta)
    requires Effective(state, d1) && Effective(Apply(state, d1), d2)
    ensures Effective(state, Combined(d1, d2))
  {
    CombinedPreservesEffectiveDeltas(state, d1, d2);
  }
}
