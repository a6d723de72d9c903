/**
No dead end: whatever has happened, after a restart a stored PDU can be delivered and is then cleaned up.
*/
module Recovery {
  import opened Wrappers
  import opened Sequences
  import opened QueueMemory
  import opened Delivery
  import opened QueueProtocol
  import opened QueueInvariants
  import opened QueueRounds
  import opened QueueCourses
  import opened QueueSystem

  // --- runs in parts -------------------------------------------------------------------------------------------

  lemma {:induction false} RunsInParts(s: System, first: seq<Action>, second: seq<Action>)
    requires IsRun(s, first) && IsRun(After(s, first), second)
    ensures IsRun(s, first + second) && After(s, first + second) == After(After(s, first), second)
    decreases |first|
  {
    if first == [] {
      assert first + second == second;
    } else {
      assert (first + second)[1..] == first[1..] + second;
      RunsInParts(Apply(s, first[0]), first[1..], second);
    }
  }

  function Operations(t: Tid, choices: seq<Choice>): seq<Action> {
    seq(|choices|, k requires 0 <= k < |choices| => Operation(0, t, choices[k]))
  }

  /** The steps of one goroutine of the only queue are a run of the system. */
  lemma {:induction false} AloneIsRun(p: Point, t: Tid, choices: seq<Choice>)
    requires t in p.q.threads && MayRunAlone(p, t, choices)
    ensures var s := System(p.w, map[0 := p.q]);
            && IsRun(s, Operations(t, choices))
            && After(s, Operations(t, choices)) == System(Alone(p, t, choices).w, map[0 := Alone(p, t, choices).q])
    decreases |choices|
  {
    if choices != [] {
      var ops := Operations(t, choices);
      var next := Point(Do(p.q, p.w, t, choices[0]), WorldAfter(p.q, p.w, t, choices[0]));
      assert ops[1..] == Operations(t, choices[1..]);
      AloneIsRun(next, t, choices[1..]);
      assert Apply(System(p.w, map[0 := p.q]), ops[0]) == System(next.w, map[0 := next.q]);
    }
  }

  // --- an answer with a given row in front ---------------------------------------------------------------------

  lemma SomeMember<T>(members: set<T>) returns (n: T)
    requires members != {}
    ensures n in members
  {
    n :| n in members;
  }

  /** Some of the members, none twice. */
  lemma {:induction false} Listing(members: set<Nid>, k: nat) returns (list: seq<Nid>)
    requires k <= |members|
    ensures |list| == k && NoRepeats(list) && Elements(list) <= members
    decreases k
  {
    if k == 0 {
      list := [];
      assert Elements(list) == {};
    } else {
      var n := SomeMember(members);
      var rest := Listing(members - {n}, k - 1);
      list := [n] + rest;
      forall i, j | 0 <= i < j < |list| ensures list[i] != list[j] {
        assert list[j] == rest[j - 1] && rest[j - 1] in Elements(rest);
      }
      assert Elements(list) == {n} + Elements(rest);
    }
  }

  function Items(stored: map<Nid, Json>, list: seq<Nid>): seq<Queued>
    requires Elements(list) <= stored.Keys
  {
    seq(|list|, k requires 0 <= k < |list| => ItemOf(stored, list, k))
  }

  function ItemOf(stored: map<Nid, Json>, list: seq<Nid>, k: nat): Queued
    requires Elements(list) <= stored.Keys && k < |list|
  {
    assert list[k] in Elements(list);
    Queued(list[k], Some(stored[list[k]]))
  }

  lemma AnswerStartingWith(stored: map<Nid, Json>, n: Nid) returns (rows: seq<Queued>)
    requires n in stored
    ensures Answers(rows, stored) && rows != [] && rows[0] == Queued(n, Some(stored[n]))
  {
    var others := stored.Keys - {n};
    assert |others| == |stored.Keys| - 1;
    var rest := Listing(others, Min(127, |others|));
    var list := [n] + rest;
    forall i, j | 0 <= i < j < |list| ensures list[i] != list[j] {
      assert list[j] == rest[j - 1] && rest[j - 1] in Elements(rest);
    }
    assert Elements(list) == {n} + Elements(rest);
    rows := Items(stored, list);
  }

  lemma FirstIsTaken(rows: seq<Queued>)
    requires rows != []
    ensures TopUp([], Some(rows)) != [] && TopUp([], Some(rows))[0] == rows[0]
  {
    AbsorbExtends([rows[0]], {}, rows[1..]);
    assert Receipts([]) == {} && [] + [rows[0]] == [rows[0]];
    assert Absorb([], {}, rows) == Absorb([rows[0]], {}, rows[1..]);
  }

  // --- from a restart to the delivery --------------------------------------------------------------------------

  lemma OneAction(s: System, a: Action)
    requires Possible(s, a)
    ensures IsRun(s, [a]) && After(s, [a]) == Apply(s, a)
  {
    assert [a][1..] == [];
    assert IsRun(Apply(s, a), []);
  }

  lemma Opens(w: World, d: Server) returns (run: seq<Action>)
    ensures IsRun(System(w, map[]), run)
    ensures After(System(w, map[]), run) == System(w, map[0 := NewQueue(d).(threads := map[1 := WakeClear])])
  {
    var s, q := System(w, map[]), NewQueue(d);
    var a, b := Open(0, d), Launch(0, 1, WakeClear);
    OneAction(s, a);
    assert Apply(s, a) == System(w, map[0 := q]);
    OneAction(Apply(s, a), b);
    assert map[0 := q][0 := Begin(q, 1, WakeClear)] == map[0 := Begin(q, 1, WakeClear)];
    RunsInParts(s, [a], [b]);
    run := [a] + [b];
  }

  lemma WakesWorker(p: Point, d: Server) returns (run: seq<Action>)
    requires p.q == NewQueue(d).(threads := map[1 := WakeClear])
    ensures IsRun(System(p.w, map[0 := p.q]), run)
    ensures After(System(p.w, map[0 := p.q]), run) ==
              System(p.w, map[0 := NewQueue(d).(threads := map[1 := Done, 2 := Start])])
  {
    var s := System(p.w, map[0 := p.q]);
    var op := Operation(0, 1, Plain(2));
    var q1, q2 := NewQueue(d).(threads := map[1 := WakeTest]), NewQueue(d).(threads := map[1 := Done, 2 := Start]);
    ClearsNothing(p.q, p.w, d);
    OneAction(s, op);
    assert map[0 := p.q][0 := q1] == map[0 := q1];
    WakeEnds(q1, p.w, 1, 2);
    assert q1.threads[1 := Done][2 := Start] == q2.threads;
    OneAction(Apply(s, op), op);
    assert map[0 := q1][0 := q2] == map[0 := q2];
    RunsInParts(s, [op], [op]);
    run := [op] + [op];
  }

  lemma ClearsNothing(q: Queue, w: World, d: Server)
    requires q == NewQueue(d).(threads := map[1 := WakeClear])
    ensures Enabled(q, w, 1, Plain(2)) && WorldAfter(q, w, 1, Plain(2)) == w
    ensures Do(q, w, 1, Plain(2)) == NewQueue(d).(threads := map[1 := WakeTest])
  {
    assert q.threads[1 := WakeTest] == map[1 := WakeTest];
  }

  /** A new queue whose hydration timer has started a worker, goroutine 2. */
  lemma Hydration(w: World, d: Server) returns (p: Point, run: seq<Action>)
    ensures var s := System(w, map[]); IsRun(s, run) && After(s, run) == System(w, map[0 := p.q])
    ensures p == Point(NewQueue(d).(threads := map[1 := Done, 2 := Start]), w)
  {
    p := Point(NewQueue(d).(threads := map[1 := Done, 2 := Start]), w);
    var first := Opens(w, d);
    var second := WakesWorker(Point(NewQueue(d).(threads := map[1 := WakeClear]), w), d);
    RunsInParts(System(w, map[]), first, second);
    run := first + second;
  }

  /** All steps of the worker: it enters, scans, takes its token, posts, cleans up and drops. */
  function Course(rows: seq<Queued>, mem: Memory, o: Outcomes): seq<Choice> {
    Entering() + (Scanning(Some(rows), None) + ([Waiting(TakeToken)] + QueueRounds.Course(mem, o)))
  }

  function AllGoesWell(): Outcomes {
    var ch := Choice(None, true, TakeToken, "id", 0);
    Outcomes(ch, ch, ch, ch, ch, ch, ch, ch, ch, ch, ch)
  }

  lemma WorkerDelivers(l: Local, d: Server, t: Tid, rows: seq<Queued>) returns (choices: seq<Choice>)
    requires l.pc == Start && !l.w.shutdown && !l.sig.running && l.lock.None? && l.mem.pdus == []
    requires Answers(rows, StoredFor(l.w, l.w.pduRows, d)) && rows != [] && rows[0].body.Some?
    ensures MaySteps(l, d, t, choices)
    ensures var end := Steps(l, d, t, choices);
            && end.pc == Loop && (d, rows[0].receipt) !in end.w.pduRows
            && |end.w.accepted| == |l.w.accepted| + 1 && end.w.recorded == l.w.recorded
            && var txn := end.w.accepted[|l.w.accepted|]; txn.destination == d && rows[0].body.value in txn.pdus
  {
    EnteringIs(l, d, t);
    var a := Steps(l, d, t, Entering());
    ScanCourse(a, d, t, Some(rows), None);
    FirstIsTaken(rows);
    var b := Steps(a, d, t, Scanning(Some(rows), None));
    WaitEnds(b, d, t, TakeToken);
    OneStep(b, d, t, Waiting(TakeToken));
    var c := Step(b, d, t, Waiting(TakeToken));
    var o := AllGoesWell();
    SuccessfulRound(c, d, t, o);
    FirstIsCarried(c.mem, rows[0]);
    choices := Course(rows, c.mem, o);
    StepsInParts(b, d, t, [Waiting(TakeToken)], QueueRounds.Course(c.mem, o));
    StepsInParts(a, d, t, Scanning(Some(rows), None), [Waiting(TakeToken)] + QueueRounds.Course(c.mem, o));
    var afterwards := [Waiting(TakeToken)] + QueueRounds.Course(c.mem, o);
    StepsInParts(l, d, t, Entering(), Scanning(Some(rows), None) + afterwards);
    StepsKeepRecorded(l, d, t, choices);
  }

  lemma {:induction false} StepsKeepRecorded(l: Local, d: Server, t: Tid, choices: seq<Choice>)
    ensures Steps(l, d, t, choices).w.recorded == l.w.recorded
    decreases |choices|
  {
    if choices != [] {
      StepsKeepRecorded(Step(l, d, t, choices[0]), d, t, choices[1..]);
    }
  }

  lemma FirstIsCarried(mem: Memory, x: Queued)
    requires mem.pdus != [] && mem.pdus[0] == x && x.body.Some?
    ensures HasPending(mem) && x.receipt in ReceiptList(NextBatch(mem).pdus)
    ensures x.body.value in Bodies(NextBatch(mem).pdus)
  {
    var front := NextBatch(mem).pdus;
    assert front[0] == x;
    assert ReceiptList(front)[0] == x.receipt && Bodies(front)[0] == x.body.value;
  }

  /**
  From every consistent store: a PDU row of a destination can be delivered, by a run of a new queue, after which the
  row is gone.
  */
  lemma StoredPduCanBeDelivered(w: World, d: Server, n: Nid) returns (run: seq<Action>)
    requires WorldInv(w) && !w.shutdown && (d, n) in w.pduRows
    ensures var s := System(w, map[]);
            && IsRun(s, run)
            && Delivered(After(s, run).world, d, n) && (d, n) !in After(s, run).world.pduRows
  {
    StoredForIsExact(w, w.pduRows, d, n);
    assert (d, n) in w.posted;
    var rows := AnswerStartingWith(StoredFor(w, w.pduRows, d), n);
    var p, first := Hydration(w, d);
    var choices := WorkerDelivers(Seen(p, 2), d, 2, rows);
    AloneIsSteps(p, 2, choices);
    AloneIsRun(p, 2, choices);
    var s := System(w, map[]);
    RunsInParts(s, first, Operations(2, choices));
    run := first + Operations(2, choices);
    var end := Alone(p, 2, choices);
    assert Seen(end, 2).w == After(s, run).world;
    assert end.w.accepted[|w.accepted|].destination == d;
  }

  /** So whatever has happened to a PDU that is still stored, a restart leaves a way to deliver it. */
  lemma RestartCanDeliver(s: System, actions: seq<Action>, d: Server, n: Nid) returns (later: seq<Action>)
    requires Fresh(s) && IsRun(s, actions) && (d, n) in After(s, actions).world.pduRows
    ensures IsRun(After(s, actions), [Restart] + later)
    ensures var w := After(After(s, actions), [Restart] + later).world;
            Delivered(w, d, n) && (d, n) !in w.pduRows
  {
    EveryRunKeepsInv(s, actions);
    var before := After(s, actions);
    var w := before.world.(shutdown := false);
    ActionKeepsInv(before, Restart);
    later := StoredPduCanBeDelivered(w, d, n);
    assert Apply(before, Restart) == System(w, map[]);
    assert [Restart][1..] == [];
    assert IsRun(before, [Restart]) && After(before, [Restart]) == System(w, map[]);
    RunsInParts(before, [Restart], later);
  }
}
