/**
The backoff timer of one destination, run beside its queue: `backingOff` promises that somebody will wake the
queue, and the timer is what keeps the promise.
*/
module BackoffTimer {
  import opened Wrappers
  import opened Delivery
  import opened QueueProtocol
  import opened QueueInvariants
  import opened QueueCourses
  import opened QueueRounds
  import opened QueueRuns

  /**
  The queue, and the server statistics: `started` is their flag, `armed` says that the timer is running, and
  `firing` counts callbacks that have been started and have not cleared the backoff yet.
  */
  datatype Timed = Timed(p: Point, started: bool, armed: bool, firing: nat)

  datatype Event =
    | Operation(t: Tid, ch: Choice)     // one atomic operation of a goroutine of the queue
    | Entry(t: Tid, pc: PC)             // a send, a retry or a forced wake-up enters the queue
    | Fire                              // the timer starts its callback
    | Finish(t: Tid)                    // the callback clears the backoff and calls the queue's notifier
    | SuccessElsewhere                  // another request to the destination succeeds, or it is marked alive
    | FailureElsewhere(blacklists: bool)

  function Op(x: Timed, e: Event): Option<PC> {
    if e.Operation? && e.t in x.p.q.threads then Some(x.p.q.threads[e.t]) else None
  }

  predicate Blacklisted(x: Timed) {
    x.p.q.destination in x.p.w.blacklisted
  }

  /** A failure that is the first of its backoff may be the one that blacklists. */
  ghost predicate Possible(x: Timed, e: Event) {
    match e
    case Operation(t, ch) =>
      Enabled(x.p.q, x.p.w, t, ch) && (x.p.q.threads[t].Fail? && ch.yes && !Blacklisted(x) ==> !x.started)
    case Entry(t, pc) => t !in x.p.q.threads && MayBegin(x.p.w, pc)
    case Fire => x.armed
    case Finish(t) => x.firing > 0 && t !in x.p.q.threads
    case SuccessElsewhere => true
    case FailureElsewhere(blacklists) => blacklists ==> !x.started
  }

  /** Statistics.Failure */
  function Failed(x: Timed, blacklists: bool): Timed {
    if Blacklisted(x) || x.started then x
    else if blacklists then x.(armed := false)
    else x.(started := true, armed := true)
  }

  /** ClearBackoff */
  function Cleared(x: Timed): Timed {
    x.(started := false, armed := false)
  }

  /** Whether the operation of the worker stops the timer: its own success, or a shutdown. */
  predicate WorkerClears(x: Timed, pc: PC, ch: Choice) {
    pc.Succeed? || (pc.Wait? && ch.select.Quit?)
  }

  function After(x: Timed, e: Event): Timed
    requires e.Operation? ==> e.t in x.p.q.threads
    requires e.Finish? ==> x.firing > 0
  {
    match e
    case Operation(t, ch) =>
      var pc := x.p.q.threads[t];
      var y := if pc.Fail? then Failed(x, ch.yes) else if WorkerClears(x, pc, ch) then Cleared(x) else x;
      y.(p := Next(x.p, t, ch))
    case Entry(t, pc) => x.(p := Point(Begin(x.p.q, t, pc), x.p.w))
    case Fire => x.(armed := false, firing := x.firing + 1)
    case Finish(t) => Cleared(x).(firing := x.firing - 1, p := Point(Begin(x.p.q, t, BackoffTest), x.p.w))
    case SuccessElsewhere => Cleared(x).(p := x.p.(w := x.p.w.(blacklisted := x.p.w.blacklisted - {x.p.q.destination})))
    case FailureElsewhere(blacklists) =>
      var listed := if blacklists then {x.p.q.destination} else {};
      Failed(x, blacklists).(p := x.p.(w := x.p.w.(blacklisted := x.p.w.blacklisted + listed)))
  }

  /**
  What may happen: the timer fires when it runs, a callback that was started ends on a fresh goroutine, other requests
  succeed at any time, and fail at any time; a failure blacklists only if it begins a backoff period.
  */
  lemma TheWorldIsFree(x: Timed)
    ensures Possible(x, Fire) <==> x.armed
    ensures forall t :: Possible(x, Finish(t)) <==> x.firing > 0 && t !in x.p.q.threads
    ensures Possible(x, SuccessElsewhere) && Possible(x, FailureElsewhere(false))
    ensures Possible(x, FailureElsewhere(true)) <==> !x.started
    ensures forall t, pc :: Possible(x, Entry(t, pc)) <==> t !in x.p.q.threads && MayBegin(x.p.w, pc)
    ensures forall t, ch :: Possible(x, Operation(t, ch)) <==>
              && Enabled(x.p.q, x.p.w, t, ch)
              && (x.p.q.threads[t] == Fail && ch.yes ==> !x.started || x.p.q.destination in x.p.w.blacklisted)
  {
  }

  /** Other requests change nothing but the blacklist, and there only this destination; and nobody's goroutine. */
  lemma OthersChangeTheBlacklist(x: Timed, blacklists: bool)
    ensures After(x, SuccessElsewhere).p ==
              x.p.(w := x.p.w.(blacklisted := x.p.w.blacklisted - {x.p.q.destination}))
    ensures After(x, FailureElsewhere(blacklists)).p ==
              if blacklists then x.p.(w := x.p.w.(blacklisted := x.p.w.blacklisted + {x.p.q.destination})) else x.p
    ensures After(x, Fire).p == x.p
  {
  }

  // --- the promise ------------------------------------------------------------------------------------------

  /** A goroutine that will end the backoff. */
  predicate Waking(pc: PC) {
    pc.BackoffTest? || pc.WakeNotify? || pc.WakeClear?
  }

  /** A queue that is backing off has a timer running, a callback under way, or a goroutine about to wake it. */
  ghost predicate Promised(x: Timed) {
    x.p.q.sig.backingOff ==> x.armed || x.firing > 0 || SomeThread(x.p.q.threads, Waking)
  }

  /** The timer is stopped without the queue being told: by a success, or by a shutdown. */
  predicate StopsTimer(x: Timed, e: Event) {
    || e.SuccessElsewhere?
    || (Op(x, e).Some? && WorkerClears(x, Op(x, e).value, e.ch))
  }

  /** The worker is about to set `backingOff`. */
  predicate SetsBackoff(x: Timed, e: Event) {
    Op(x, e) == Some(BackOff)
  }

  lemma WakersKeepOn(pc: PC, d: Server, sig: Signals, mem: Memory, w: World, ch: Choice)
    requires Waking(pc) && sig.backingOff
    ensures Waking(NextPC(pc, d, sig, mem, w, ch)) || !NextSignals(pc, sig, mem, ch).backingOff
  {
  }

  lemma BackoffComesFrom(pc: PC, sig: Signals, mem: Memory, ch: Choice)
    ensures NextSignals(pc, sig, mem, ch).backingOff ==> sig.backingOff || pc.BackOff?
    ensures pc.BackOff? ==> NextSignals(pc, sig, mem, ch).backingOff
    ensures sig.backingOff && !NextSignals(pc, sig, mem, ch).backingOff ==> pc.WakeClear?
  {
  }

  /** A failure arms the timer or leaves it as it is, unless it blacklists, and then the timer was not running. */
  ghost predicate Sound(x: Timed) {
    (x.armed ==> x.started)
  }

  lemma EventKeepsSound(x: Timed, e: Event)
    requires Sound(x) && Possible(x, e)
    ensures Sound(After(x, e))
  {
  }

  /** An operation that neither stops the timer nor sets `backingOff` keeps the promise. */
  lemma OperationKeepsPromise(x: Timed, t: Tid, ch: Choice)
    requires Sound(x) && Promised(x) && Possible(x, Operation(t, ch))
    requires !StopsTimer(x, Operation(t, ch)) && !SetsBackoff(x, Operation(t, ch))
    ensures Promised(After(x, Operation(t, ch)))
  {
    var q, pc, q' := x.p.q, x.p.q.threads[t], Do(x.p.q, x.p.w, t, ch);
    BackoffComesFrom(pc, q.sig, q.mem, ch);
    if q'.sig.backingOff && !x.armed && x.firing == 0 {
      var u :| u in q.threads && Waking(q.threads[u]);
      if u == t {
        WakersKeepOn(pc, q.destination, q.sig, q.mem, x.p.w, ch);
        assert Waking(q'.threads[t]);
      } else {
        assert q'.threads[u] == q.threads[u];
      }
    }
  }

  lemma BeginKeepsWakers(q: Queue, t: Tid, pc: PC)
    requires t !in q.threads && SomeThread(q.threads, Waking)
    ensures SomeThread(Begin(q, t, pc).threads, Waking)
  {
    var u :| u in q.threads && Waking(q.threads[u]);
    assert Begin(q, t, pc).threads[u] == q.threads[u];
  }

  /** Where the timer is stopped, or `backingOff` set, no waker comes or goes. */
  lemma StoppingWakesNobody(x: Timed, t: Tid, ch: Choice)
    requires Possible(x, Operation(t, ch))
    requires StopsTimer(x, Operation(t, ch)) || SetsBackoff(x, Operation(t, ch))
    ensures SomeThread(Do(x.p.q, x.p.w, t, ch).threads, Waking) <==> SomeThread(x.p.q.threads, Waking)
  {
    var q, q' := x.p.q, Do(x.p.q, x.p.w, t, ch);
    assert !Waking(q.threads[t]) && !Waking(q'.threads[t]);
    assert forall u :: u in q.threads && u != t ==> q'.threads[u] == q.threads[u];
    assert q'.threads.Keys == q.threads.Keys;
  }

  /**
  The event stops the timer of a queue that is backing off, or sets `backingOff` when the timer is not running any
  more, while no callback and no waker is on its way.
  */
  ghost predicate Abandons(x: Timed, e: Event) {
    && ((StopsTimer(x, e) && x.p.q.sig.backingOff) || (SetsBackoff(x, e) && !x.armed))
    && x.firing == 0 && !SomeThread(x.p.q.threads, Waking)
  }

  /** The promise is broken exactly by an event that abandons the queue. */
  lemma PromiseBreaksExactlyWhen(x: Timed, e: Event)
    requires Sound(x) && Promised(x) && Possible(x, e)
    ensures !Promised(After(x, e)) <==> Abandons(x, e)
  {
    match e
    case Operation(t, ch) =>
      var pc := x.p.q.threads[t];
      BackoffComesFrom(pc, x.p.q.sig, x.p.q.mem, ch);
      if !StopsTimer(x, e) && !SetsBackoff(x, e) {
        OperationKeepsPromise(x, t, ch);
      } else {
        StoppingWakesNobody(x, t, ch);
      }
    case Entry(t, pc) =>
      if SomeThread(x.p.q.threads, Waking) {
        BeginKeepsWakers(x.p.q, t, pc);
      }
    case Finish(t) =>
      assert Waking(After(x, e).p.q.threads[t]);
    case _ =>
  }

  // --- runs ---------------------------------------------------------------------------------------------------

  ghost predicate IsRun(x: Timed, run: seq<Event>)
    decreases |run|
  {
    run == [] || (Possible(x, run[0]) && IsRun(After(x, run[0]), run[1..]))
  }

  ghost function End(x: Timed, run: seq<Event>): Timed
    requires IsRun(x, run)
    decreases |run|
  {
    if run == [] then x else End(After(x, run[0]), run[1..])
  }

  ghost predicate NeverAbandons(x: Timed, run: seq<Event>)
    requires IsRun(x, run)
    decreases |run|
  {
    run == [] || (!Abandons(x, run[0]) && NeverAbandons(After(x, run[0]), run[1..]))
  }

  /** In a run without such an event every backoff ends: at its end, too, somebody is there to wake the queue. */
  lemma {:induction false} EveryBackoffIsWatched(x: Timed, run: seq<Event>)
    requires Sound(x) && Promised(x) && IsRun(x, run) && NeverAbandons(x, run)
    ensures Sound(End(x, run)) && Promised(End(x, run))
    decreases |run|
  {
    if run != [] {
      EventKeepsSound(x, run[0]);
      PromiseBreaksExactlyWhen(x, run[0]);
      EveryBackoffIsWatched(After(x, run[0]), run[1..]);
    }
  }

  // --- the backoff period ---------------------------------------------------------------------------------------

  /** A backoff period that has begun has a timer, or a callback that will end it. */
  predicate Timely(x: Timed) {
    x.started ==> x.armed || x.firing > 0
  }

  lemma EventKeepsTimely(x: Timed, e: Event)
    requires Timely(x) && Possible(x, e)
    ensures Timely(After(x, e))
  {
  }

  /**
  Just these events start the timer, when no period is on: a failure, of the worker or of another request, that does
  not blacklist. A period ends with the callback, a success, or a shutdown that the worker sees; a failure leaves it on.
  */
  lemma TimerStartsExactlyWhen(x: Timed, e: Event)
    requires Sound(x) && Possible(x, e)
    ensures !x.armed && After(x, e).armed <==>
              && !x.started && !Blacklisted(x)
              && (e == FailureElsewhere(false) || (Op(x, e) == Some(Fail) && !e.ch.yes))
    ensures x.started && !After(x, e).started <==>
              && x.started
              && (e.Finish? || e == SuccessElsewhere
                  || (Op(x, e).Some? && (Op(x, e).value.Succeed? || (Op(x, e) == Some(Wait) && e.ch.select == Quit))))
    ensures x.armed && !After(x, e).armed <==>
              x.armed && (e == Fire || (x.started && !After(x, e).started))
  {
  }

  lemma {:induction false} EveryRunIsTimely(x: Timed, run: seq<Event>)
    requires Sound(x) && Timely(x) && IsRun(x, run)
    ensures Sound(End(x, run)) && Timely(End(x, run))
    decreases |run|
  {
    if run != [] {
      EventKeepsSound(x, run[0]);
      EventKeepsTimely(x, run[0]);
      EveryRunIsTimely(After(x, run[0]), run[1..]);
    }
  }

  /**
  Whatever has happened, however many failures in a row: when the worker fails and the destination is not blacklisted,
  a timer runs or a callback is under way.
  */
  lemma EveryFailureHasATimer(x: Timed, run: seq<Event>, t: Tid, ch: Choice)
    requires !x.started && !x.armed && IsRun(x, run)
    requires var y := End(x, run);
             && Possible(y, Operation(t, ch)) && y.p.q.threads[t] == Fail && !Blacklisted(y) && !ch.yes
    ensures var z := After(End(x, run), Operation(t, ch));
            z.started && (z.armed || z.firing > 0)
  {
    EveryRunIsTimely(x, run);
  }

  // --- it does happen ---------------------------------------------------------------------------------------------

  lemma NobodyWakes(q: Queue)
    requires q.threads == map[1 := Done, 2 := Stop]
    ensures !SomeThread(q.threads, Waking)
  {
  }

  /** The failure arms the timer, and the worker sets `backingOff`. */
  lemma WorkerBacksOffTimed(c: Setting) returns (x: Timed, y: Timed, e: Event, f: Event)
    requires c.id != ""
    ensures Reachable(x.p) && !x.started && !x.armed && x.firing == 0 && Possible(x, e)
    ensures Possible(After(x, e), f) && y == After(After(x, e), f)
    ensures y.p.q.threads == map[1 := Done, 2 := Stop] && y.p.q.sig.backingOff && y.armed && y.firing == 0
    ensures y.p.q.mem.pdus == [First(c)] && Promised(y) && Sound(y)
  {
    var p := LoneWorkerFails(c);
    x := Timed(p, false, false, 0);
    e, f := Operation(2, Plain(0)), Operation(2, Plain(0));
    FailsAndBacksOff(x);
    y := After(After(x, e), f);
  }

  lemma FailsAndBacksOff(x: Timed)
    requires x.p.q.threads == map[1 := Done, 2 := Fail] && x.p.q.lock.None? && !Blacklisted(x) && !x.started
    ensures var e := Operation(2, Plain(0)); var y := After(x, e);
            && Possible(x, e) && Possible(y, e)
            && After(y, e).p.q.threads == map[1 := Done, 2 := Stop]
            && After(y, e).p.q.sig == x.p.q.sig.(backingOff := true) && After(y, e).p.q.mem == x.p.q.mem
            && After(y, e).armed && After(y, e).started && After(y, e).firing == x.firing
  {
    var e := Operation(2, Plain(0));
    var y := After(x, e);
    assert y.p.q.threads == map[1 := Done, 2 := BackOff];
  }

  /**
  A worker fails for the first time and backs off; then any other request to the destination succeeds. The PDU is
  pending, the queue goes on backing off, and no timer is left to end it.
  */
  lemma SuccessElsewhereAbandons(c: Setting) returns (x: Timed, run: seq<Event>)
    requires c.id != ""
    ensures Reachable(x.p) && !x.started && !x.armed && x.firing == 0 && IsRun(x, run)
    ensures End(x, run).p.q.mem.pdus == [First(c)] && End(x, run).p.q.sig.backingOff && !Promised(End(x, run))
  {
    var y, e, f;
    x, y, e, f := WorkerBacksOffTimed(c);
    run := [e, f, SuccessElsewhere];
    NobodyWakes(y.p.q);
    var z := After(y, SuccessElsewhere);
    assert run[1..] == [f, SuccessElsewhere] && run[1..][1..] == [SuccessElsewhere];
    assert [SuccessElsewhere][1..] == [];
    assert IsRun(z, []) && End(z, []) == z;
    assert IsRun(y, [SuccessElsewhere]) && End(y, [SuccessElsewhere]) == z;
  }
}
