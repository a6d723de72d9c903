/**
User-interactive authentication for registration: matching completed stages against required flows, and
the dictionary of sessions.
*/
module Registration {
  import opened Sequences

  type Stage = string

  // --- the order of strings ---------------------------------------------------------------------

  predicate Less(a: string, b: string)
    decreases |a|
  {
    if b == [] then false
    else if a == [] then true
    else a[0] < b[0] || (a[0] == b[0] && Less(a[1..], b[1..]))
  }

  lemma {:induction false} LessIsTotal(a: string, b: string)
    ensures Less(a, b) || a == b || Less(b, a)
    ensures !(Less(a, b) && Less(b, a)) && !Less(a, a)
    decreases |a|
  {
    if a != [] && b != [] && a[0] == b[0] {
      LessIsTotal(a[1..], b[1..]);
      assert a == [a[0]] + a[1..] && b == [b[0]] + b[1..];
    }
    if a != [] {
      LessIsTotal(a[1..], a[1..]);
    }
  }

  lemma {:induction false} LessIsTransitive(a: string, b: string, c: string)
    requires !Less(b, a) && !Less(c, b)
    ensures !Less(c, a)
    decreases |a|
  {
    if a != [] && b != [] && c != [] && a[0] == b[0] == c[0] {
      LessIsTransitive(a[1..], b[1..], c[1..]);
    }
  }

  ghost predicate Sorted(s: seq<Stage>) {
    forall i, j :: 0 <= i < j < |s| ==> !Less(s[j], s[i])
  }

  /** sort.Slice on a copy: some sorted rearrangement. */
  method SortStages(stages: seq<Stage>) returns (sorted: seq<Stage>)
    ensures Sorted(sorted) && multiset(sorted) == multiset(stages)
  {
    sorted := [];
    for i := 0 to |stages|
      invariant Sorted(sorted) && multiset(sorted) == multiset(stages[..i])
    {
      var p := |sorted|;
      while p > 0 && Less(stages[i], sorted[p - 1])
        invariant 0 <= p <= |sorted|
        invariant forall k :: p <= k < |sorted| ==> Less(stages[i], sorted[k])
      {
        p := p - 1;
      }
      InsertKeepsSorted(sorted, p, stages[i]);
      assert stages[..i + 1] == stages[..i] + [stages[i]];
      assert sorted == sorted[..p] + sorted[p..];
      sorted := sorted[..p] + [stages[i]] + sorted[p..];
    }
    assert stages[..|stages|] == stages;
  }

  lemma InsertKeepsSorted(s: seq<Stage>, p: nat, x: Stage)
    requires Sorted(s) && p <= |s|
    requires p > 0 ==> !Less(x, s[p - 1])
    requires forall k :: p <= k < |s| ==> Less(x, s[k])
    ensures Sorted(s[..p] + [x] + s[p..])
  {
    var t := s[..p] + [x] + s[p..];
    forall i, j | 0 <= i < j < |t| ensures !Less(t[j], t[i]) {
      if j == p {
        if i < p - 1 { LessIsTransitive(s[i], s[p - 1], x); }
      } else if i == p {
        LessIsTotal(x, s[j - 1]);
      }
    }
  }

  // --- matching -------------------------------------------------------------------------------------

  lemma SortedTail(s: seq<Stage>, i: nat, x: Stage)
    requires Sorted(s) && i < |s| && Less(x, s[i])
    ensures x !in s[i..]
  {
    forall k | i <= k < |s| ensures s[k] != x {
      LessIsTotal(x, s[i]);
    }
    assert forall k :: 0 <= k < |s[i..]| ==> s[i..][k] == s[i + k];
  }

  lemma HeadOff(s: seq<Stage>, i: nat)
    requires i < |s|
    ensures multiset(s[i..]) == multiset{s[i]} + multiset(s[i + 1..])
  {
    assert s[i..] == [s[i]] + s[i + 1..];
  }

  lemma CancelHead(a: multiset<Stage>, b: multiset<Stage>, x: Stage)
    ensures multiset{x} + a <= multiset{x} + b <==> a <= b
  {
    if multiset{x} + a <= multiset{x} + b {
      forall y ensures a[y] <= b[y] {
        assert (multiset{x} + a)[y] <= (multiset{x} + b)[y];
      }
    }
  }

  /** One turn of the merge: whether the rest of the required stages is covered does not change. */
  lemma MergeStep(completed: seq<Stage>, required: seq<Stage>, i: nat, j: nat)
    requires Sorted(completed) && Sorted(required) && i < |completed| && j < |required|
    ensures var j' := if completed[i] == required[j] then j + 1 else j;
            multiset(required[j..]) <= multiset(completed[i..])
            <==> multiset(required[j'..]) <= multiset(completed[i + 1..])
  {
    HeadOff(completed, i);
    HeadOff(required, j);
    var c, r := completed[i], required[j];
    LessIsTotal(c, r);
    if c == r {
      CancelHead(multiset(required[j + 1..]), multiset(completed[i + 1..]), c);
    } else if Less(c, r) {
      SortedTail(required, j, c);
      assert multiset(required[j..])[c] == 0;
    } else {
      SortedTail(completed, i, r);
      assert multiset(completed[i..])[r] == 0 && multiset(required[j..])[r] > 0;
    }
  }

  /** checkFlows, for all lists: every required stage was completed, as often as it is required. */
  method CheckFlows(completedStages: seq<Stage>, requiredStages: seq<Stage>) returns (ok: bool)
    ensures ok <==> multiset(requiredStages) <= multiset(completedStages)
  {
    var completed := SortStages(completedStages);
    var required := SortStages(requiredStages);
    var i, j := 0, 0;
    assert completed[0..] == completed && required[0..] == required;
    while j < |required|
      invariant 0 <= i <= |completed| && 0 <= j <= |required|
      invariant multiset(requiredStages) <= multiset(completedStages)
                <==> multiset(required[j..]) <= multiset(completed[i..])
      decreases |completed| - i
    {
      if i >= |completed| {
        assert multiset(required[j..])[required[j]] > 0 by { HeadOff(required, j); }
        return false;
      }
      MergeStep(completed, required, i, j);
      if completed[i] == required[j] {
        j := j + 1;
      }
      i := i + 1;
    }
    assert required[j..] == [];
    return true;
  }

  predicate FlowCompleted(flow: seq<Stage>, allowed: seq<seq<Stage>>) {
    exists k :: 0 <= k < |allowed| && multiset(allowed[k]) <= multiset(flow)
  }

  method CheckFlowCompleted(flow: seq<Stage>, allowedFlows: seq<seq<Stage>>) returns (ok: bool)
    ensures ok <==> FlowCompleted(flow, allowedFlows)
  {
    for k := 0 to |allowedFlows|
      invariant forall m :: 0 <= m < k ==> !(multiset(allowedFlows[m]) <= multiset(flow))
    {
      var matches := CheckFlows(flow, allowedFlows[k]);
      if matches {
        return true;
      }
    }
    return false;
  }

  /** The order of the completed stages does not matter, and more stages never undo a completed flow. */
  lemma FlowIgnoresOrderAndExtras(flow: seq<Stage>, other: seq<Stage>, extra: seq<Stage>, allowed: seq<seq<Stage>>)
    requires multiset(other) == multiset(flow + extra) && FlowCompleted(flow, allowed)
    ensures FlowCompleted(other, allowed)
  {
    var k :| 0 <= k < |allowed| && multiset(allowed[k]) <= multiset(flow);
    assert multiset(allowed[k]) <= multiset(other);
  }

  lemma {:induction false} NoRepeatsCount(stages: seq<Stage>, s: Stage)
    requires NoRepeats(stages)
    ensures multiset(stages)[s] == if s in stages then 1 else 0
  {
    if stages != [] {
      var n := |stages| - 1;
      assert stages == stages[..n] + [stages[n]];
      NoRepeatsCount(stages[..n], s);
    }
  }

  /**
  A session records each stage once, so for sessions a flow is completed exactly when it lists no stage
  twice and all its stages are recorded.
  */
  lemma SessionFlow(recorded: seq<Stage>, required: seq<Stage>)
    requires NoRepeats(recorded)
    ensures multiset(required) <= multiset(recorded)
            <==> NoRepeats(required) && forall s :: s in required ==> s in recorded
  {
    forall s ensures multiset(recorded)[s] == if s in recorded then 1 else 0 {
      NoRepeatsCount(recorded, s);
    }
    if NoRepeats(required) {
      forall s ensures multiset(required)[s] == if s in required then 1 else 0 {
        NoRepeatsCount(required, s);
      }
      if multiset(required) <= multiset(recorded) {
        forall s | s in required ensures s in recorded {
          assert multiset(required)[s] <= multiset(recorded)[s];
        }
      }
    } else {
      var i, j :| 0 <= i < j < |required| && required[i] == required[j];
      TwiceCounts(required, i, j);
    }
  }

  // --- sessions ---------------------------------------------------------------------------------------

  class SessionsDict {
    var sessions: map<string, seq<Stage>>
    var completedResult: map<string, string>
    var params: map<string, string>
    var timers: set<string>
    var deviceToDelete: map<string, string>

    /** Stages are recorded once, and whatever the client keeps adding to has a clean-up timer. */
    ghost predicate Valid()
      reads this
    {
      && (forall id :: id in sessions ==> NoRepeats(sessions[id]))
      && sessions.Keys + params.Keys + deviceToDelete.Keys <= timers
    }

    constructor ()
      ensures Valid() && sessions == map[] && params == map[] && completedResult == map[]
    {
      sessions, completedResult, params, timers, deviceToDelete := map[], map[], map[], {}, map[];
    }

    function CompletedStages(id: string): seq<Stage>
      reads this
    {
      if id in sessions then sessions[id] else []
    }

    method AddCompletedSessionStage(id: string, stage: Stage)
      requires Valid()
      modifies this`sessions, this`timers
      ensures Valid() && timers == old(timers) + {id}
      ensures forall s :: s in CompletedStages(id) <==> s == stage || s in old(CompletedStages(id))
      ensures old(CompletedStages(id)) <= CompletedStages(id)
      ensures forall other :: other != id ==> CompletedStages(other) == old(CompletedStages(other))
    {
      timers := timers + {id};
      var stages := CompletedStages(id);
      for i := 0 to |stages|
        invariant stage !in stages[..i]
      {
        if stages[i] == stage {
          return;
        }
      }
      assert stages[..|stages|] == stages;
      sessions := sessions[id := stages + [stage]];
    }

    method AddParams(id: string, r: string)
      requires Valid()
      modifies this`params, this`timers
      ensures Valid() && params == old(params)[id := r] && timers == old(timers) + {id}
    {
      timers := timers + {id};
      params := params[id := r];
    }

    method AddDeviceToDelete(id: string, device: string)
      requires Valid()
      modifies this`deviceToDelete, this`timers
      ensures Valid() && deviceToDelete == old(deviceToDelete)[id := device] && timers == old(timers) + {id}
    {
      timers := timers + {id};
      deviceToDelete := deviceToDelete[id := device];
    }

    /** The result of a registration is kept without a timer of its own. */
    method AddCompletedRegistration(id: string, response: string)
      requires Valid()
      modifies this`completedResult
      ensures Valid() && completedResult == old(completedResult)[id := response]
    {
      completedResult := completedResult[id := response];
    }

    /** deleteSession, called on success or by the timer: nothing of the session is left, others stay. */
    method DeleteSession(id: string)
      requires Valid()
      modifies this
      ensures Valid() && id !in timers
      ensures sessions == old(sessions) - {id} && params == old(params) - {id}
      ensures deviceToDelete == old(deviceToDelete) - {id} && completedResult == old(completedResult) - {id}
      ensures timers == old(timers) - {id}
    {
      params := params - {id};
      sessions := sessions - {id};
      deviceToDelete := deviceToDelete - {id};
      completedResult := completedResult - {id};
      timers := timers - {id};
    }
  }
}
