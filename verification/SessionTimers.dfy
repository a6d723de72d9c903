/**
The session dictionary under several goroutines: one mutex, and for each session a timer whose callback deletes it.
A timer made by AfterFunc has no channel, so waiting for one that has fired never ends.
*/
module SessionTimers {
  type Session = string
  type Tid = nat

  datatype Timer = Armed | Fired

  datatype Op = Start(session: Session) | Delete(session: Session)

  datatype PC =
    | Idle
    | AtLock(op: Op)        // at d.Lock()
    | Inside(op: Op)        // has the dictionary's mutex
    | Waiting(op: Op)       // in `<-t.C`, with the mutex

  /** `timers` is the timer map of the dictionary. */
  datatype State = State(held: bool, timers: map<Session, Timer>, threads: map<Tid, PC>)

  const FRESH := State(false, map[], map[])

  function At(s: State, t: Tid): PC {
    if t in s.threads then s.threads[t] else Idle
  }

  datatype Action =
    | Call(t: Tid, op: Op)                // startTimer or deleteSession is called
    | Fire(t: Tid, session: Session)      // the timer runs its callback on a goroutine of its own
    | Step(t: Tid)

  predicate Possible(s: State, a: Action) {
    match a
    case Call(t, _) => At(s, t).Idle?
    case Fire(t, session) => At(s, t).Idle? && session in s.timers && s.timers[session].Armed?
    case Step(t) => At(s, t).Inside? || (At(s, t).AtLock? && !s.held)
  }

  function Goto(s: State, t: Tid, pc: PC): State {
    s.(threads := s.threads[t := pc])
  }

  function Apply(s: State, a: Action): State
    requires Possible(s, a)
  {
    match a
    case Call(t, op) => Goto(s, t, AtLock(op))
    case Fire(t, session) => Goto(s, t, AtLock(Delete(session))).(timers := s.timers[session := Fired])
    case Step(t) =>
      match At(s, t)
      case AtLock(op) => Goto(s, t, Inside(op)).(held := true)
      case Inside(op) =>
        match op
        case Delete(session) => Goto(s, t, Idle).(held := false, timers := s.timers - {session})
        case Start(session) =>
          if session !in s.timers then Goto(s, t, Idle).(held := false, timers := s.timers[session := Armed])
          else if s.timers[session].Armed? then Goto(s, t, Idle).(held := false)
          else Goto(s, t, Waiting(op))
  }

  /** Calls come at any time from whoever is not in one; a timer fires once; whoever wants the mutex waits for it. */
  lemma TheWorldIsFree(s: State)
    ensures forall t, op :: Possible(s, Call(t, op)) <==> At(s, t) == Idle
    ensures forall t, session :: Possible(s, Fire(t, session)) <==>
              At(s, t) == Idle && session in s.timers && s.timers[session] == Armed
    ensures forall t, op :: At(s, t) == AtLock(op) ==> (Possible(s, Step(t)) <==> !s.held)
    ensures forall t, op :: At(s, t) == Inside(op) ==> Possible(s, Step(t))
    ensures forall t, op :: At(s, t) == Waiting(op) ==> !Possible(s, Step(t))
  {
  }

  // --- invariants -------------------------------------------------------------------------------------------

  predicate Owns(pc: PC) {
    pc.Inside? || pc.Waiting?
  }

  predicate Deletes(pc: PC, session: Session) {
    pc == AtLock(Delete(session)) || pc == Inside(Delete(session))
  }

  ghost predicate SomebodyDeletes(s: State, session: Session) {
    exists t :: Deletes(At(s, t), session)
  }

  predicate HasFired(s: State, session: Session) {
    session in s.timers && s.timers[session].Fired?
  }

  /** One owner of the mutex at most, and for a timer that has fired somebody is about to delete the session. */
  ghost predicate Inv(s: State) {
    && (forall t, u :: Owns(At(s, t)) && Owns(At(s, u)) ==> t == u)
    && (forall t :: Owns(At(s, t)) ==> s.held)
    && (s.held ==> exists t :: Owns(At(s, t)))
    && (forall session :: HasFired(s, session) ==> SomebodyDeletes(s, session))
    && (forall t :: At(s, t).Waiting? ==> At(s, t).op.Start? && HasFired(s, At(s, t).op.session))
  }

  lemma OthersStay(s: State, a: Action, u: Tid)
    requires Possible(s, a) && u != a.t
    ensures At(Apply(s, a), u) == At(s, u)
  {
  }

  lemma MutexStays(s: State, a: Action)
    requires Possible(s, a) && Inv(s)
    ensures var s' := Apply(s, a);
            && (forall t, u :: Owns(At(s', t)) && Owns(At(s', u)) ==> t == u)
            && (forall t :: Owns(At(s', t)) ==> s'.held)
            && (s'.held ==> exists t :: Owns(At(s', t)))
  {
    var s' := Apply(s, a);
    forall u | u != a.t ensures At(s', u) == At(s, u) {
      OthersStay(s, a, u);
    }
    if s.held {
      var owner :| Owns(At(s, owner));
      assert s'.held ==> Owns(At(s', owner));
    } else {
      assert s'.held ==> Owns(At(s', a.t));
    }
  }

  lemma FiredStaysCared(s: State, a: Action, session: Session)
    requires Possible(s, a) && Inv(s)
    requires HasFired(Apply(s, a), session)
    ensures SomebodyDeletes(Apply(s, a), session)
  {
    var s' := Apply(s, a);
    if HasFired(s, session) {
      var t :| Deletes(At(s, t), session);
      if t != a.t {
        OthersStay(s, a, t);
      }
      assert Deletes(At(s', t), session);
    } else {
      assert Deletes(At(s', a.t), session);
    }
  }

  /** Whoever waits has the mutex, so the timer it waits for stays as it is. */
  lemma WaitingStays(s: State, a: Action, t: Tid)
    requires Possible(s, a) && Inv(s) && At(Apply(s, a), t).Waiting?
    ensures var pc := At(Apply(s, a), t); pc.op.Start? && HasFired(Apply(s, a), pc.op.session)
  {
    if t != a.t {
      OthersStay(s, a, t);
      assert Owns(At(s, t)) && (a.Step? ==> !Owns(At(s, a.t)));
    }
  }

  lemma StepKeepsInv(s: State, a: Action)
    requires Possible(s, a) && Inv(s)
    ensures Inv(Apply(s, a))
  {
    MutexStays(s, a);
    forall session | HasFired(Apply(s, a), session) ensures SomebodyDeletes(Apply(s, a), session) {
      FiredStaysCared(s, a, session);
    }
    forall t | At(Apply(s, a), t).Waiting?
      ensures At(Apply(s, a), t).op.Start? && HasFired(Apply(s, a), At(Apply(s, a), t).op.session)
    {
      WaitingStays(s, a, t);
    }
  }

  // --- runs -----------------------------------------------------------------------------------------------------

  predicate IsRun(s: State, run: seq<Action>)
    decreases |run|, 0
  {
    run == [] || (IsRun(s, run[..|run| - 1]) && Possible(After(s, run[..|run| - 1]), run[|run| - 1]))
  }

  function After(s: State, run: seq<Action>): State
    requires IsRun(s, run)
    decreases |run|, 1
  {
    if run == [] then s else Apply(After(s, run[..|run| - 1]), run[|run| - 1])
  }

  lemma {:induction false} EveryRunKeepsInv(s: State, run: seq<Action>)
    requires Inv(s) && IsRun(s, run)
    ensures Inv(After(s, run))
    decreases |run|
  {
    if run != [] {
      EveryRunKeepsInv(s, run[..|run| - 1]);
      StepKeepsInv(After(s, run[..|run| - 1]), run[|run| - 1]);
    }
  }

  /** The last step of the run ends a deletion of the session. */
  predicate EndsDelete(run: seq<Action>, session: Session)
    requires run != [] && IsRun(FRESH, run)
  {
    var a := run[|run| - 1];
    a.Step? && At(After(FRESH, run[..|run| - 1]), a.t) == Inside(Delete(session))
  }

  /** The timer of the session has fired, and no deletion of the session has ended since. */
  predicate Overdue(run: seq<Action>, session: Session)
    requires IsRun(FRESH, run)
    decreases |run|
  {
    run != [] &&
    (run[|run| - 1] == Fire(run[|run| - 1].t, session)
     || (Overdue(run[..|run| - 1], session) && !EndsDelete(run, session)))
  }

  lemma {:induction false} OverdueIsFired(run: seq<Action>, session: Session)
    requires IsRun(FRESH, run)
    ensures Overdue(run, session) <==> HasFired(After(FRESH, run), session)
    decreases |run|
  {
    if run != [] {
      OverdueIsFired(run[..|run| - 1], session);
    }
  }

  /** The last step of the run is one of startTimer, which resets the timer of a session whose deletion is overdue. */
  predicate ResetsOverdue(run: seq<Action>)
    requires run != [] && IsRun(FRESH, run)
  {
    var before, a := run[..|run| - 1], run[|run| - 1];
    var pc := At(After(FRESH, before), a.t);
    a.Step? && pc.Inside? && pc.op.Start? && Overdue(before, pc.op.session)
  }

  lemma StepGetsStuck(run: seq<Action>)
    requires run != [] && IsRun(FRESH, run)
    ensures At(After(FRESH, run), run[|run| - 1].t).Waiting? <==> ResetsOverdue(run)
  {
    var before, a := run[..|run| - 1], run[|run| - 1];
    var pc := At(After(FRESH, before), a.t);
    if pc.Inside? {
      OverdueIsFired(before, pc.op.session);
    }
  }

  ghost predicate SomebodyIsStuck(s: State) {
    exists t :: At(s, t).Waiting?
  }

  ghost predicate StuckAt(run: seq<Action>, n: int)
    requires IsRun(FRESH, run)
  {
    0 < n <= |run| && IsRun(FRESH, run[..n]) && ResetsOverdue(run[..n])
  }

  lemma StuckStays(s: State, a: Action)
    requires Possible(s, a)
    ensures forall t :: At(s, t).Waiting? ==> At(Apply(s, a), t).Waiting?
    ensures forall t :: At(Apply(s, a), t).Waiting? ==> t == a.t || At(s, t).Waiting?
  {
    forall t | t != a.t ensures At(Apply(s, a), t) == At(s, t) {
      OthersStay(s, a, t);
    }
  }

  /**
  For all calls and interleavings: somebody is stuck, with the mutex, exactly when at some point startTimer reset the
  timer of a session that had fired, before the deletion it called for had ended.
  */
  lemma {:induction false} GetsStuckExactlyWhen(run: seq<Action>)
    requires IsRun(FRESH, run)
    ensures SomebodyIsStuck(After(FRESH, run)) <==> exists n :: StuckAt(run, n)
    decreases |run|
  {
    if run != [] {
      var before, a := run[..|run| - 1], run[|run| - 1];
      GetsStuckExactlyWhen(before);
      StepGetsStuck(run);
      StuckStays(After(FRESH, before), a);
      assert run[..|run|] == run;
      forall n | 0 <= n <= |before| ensures run[..n] == before[..n] { }
      assert StuckAt(run, |run|) <==> ResetsOverdue(run);
      forall n | 0 < n <= |before| ensures StuckAt(run, n) <==> StuckAt(before, n) { }
    }
  }

  /** The one who is stuck holds back the callback that would end its wait for the session. */
  lemma StuckHoldsBackDeletion(run: seq<Action>, t: Tid)
    requires IsRun(FRESH, run) && At(After(FRESH, run), t).Waiting?
    ensures var s := After(FRESH, run);
            At(s, t).op.Start? && s.held && exists u :: At(s, u) == AtLock(Delete(At(s, t).op.session))
  {
    EveryRunKeepsInv(FRESH, run);
    var s := After(FRESH, run);
    assert Owns(At(s, t));
    var u :| Deletes(At(s, u), At(s, t).op.session);
    assert u != t && !Owns(At(s, u));
  }

  /** Once somebody is stuck the dictionary stays locked: nobody else's call, and no clean-up, ever ends. */
  lemma {:induction false} StuckForEver(s: State, run: seq<Action>, stuck: Tid, u: Tid)
    requires Inv(s) && At(s, stuck).Waiting? && IsRun(s, run)
    ensures At(After(s, run), stuck).Waiting? && After(s, run).held
    ensures At(s, u).AtLock? ==> At(After(s, run), u) == At(s, u)
    ensures forall session :: session in s.timers ==> session in After(s, run).timers
    decreases |run|
  {
    EveryRunKeepsInv(s, run);
    assert Owns(At(After(s, run), stuck)) || run != [];
    if run != [] {
      var before, a := After(s, run[..|run| - 1]), run[|run| - 1];
      StuckForEver(s, run[..|run| - 1], stuck, u);
      EveryRunKeepsInv(s, run[..|run| - 1]);
      assert Owns(At(before, stuck)) && (a.Step? ==> !Owns(At(before, a.t)));
      StuckStays(before, a);
      if u != a.t {
        OthersStay(before, a, u);
      }
    }
  }

  // --- it does happen -------------------------------------------------------------------------------------------

  ghost predicate Reachable(s: State) {
    exists run :: IsRun(FRESH, run) && After(FRESH, run) == s
  }

  lemma Reaches(s: State, a: Action) returns (s': State)
    requires Reachable(s) && Possible(s, a)
    ensures Reachable(s') && s' == Apply(s, a)
  {
    var run :| IsRun(FRESH, run) && After(FRESH, run) == s;
    s' := Apply(s, a);
    assert (run + [a])[..|run|] == run;
    assert After(FRESH, run + [a]) == s';
  }

  /** Two goroutines are enough: the timer of a session fires while a request for the session is about to reset it. */
  lemma ResetAfterFiringGetsStuck(session: Session) returns (s: State)
    ensures Reachable(s) && At(s, 0) == Waiting(Start(session)) && At(s, 1) == AtLock(Delete(session))
  {
    assert IsRun(FRESH, []) && After(FRESH, []) == FRESH;
    s := Reaches(FRESH, Call(0, Start(session)));
    s := Reaches(s, Step(0));
    s := Reaches(s, Step(0));
    s := Reaches(s, Fire(1, session));
    s := Reaches(s, Call(0, Start(session)));
    s := Reaches(s, Step(0));
    s := Reaches(s, Step(0));
  }
}
