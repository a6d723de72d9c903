/**
Runs of the queue system that end where one would rather not be: work stranded by a late wake-up, a stored
row that no scan looks for, retries that carry more than the attempt before them or do not even begin with it.
*/
module QueueRuns {
  import opened Wrappers
  import opened Sequences
  import opened QueueMemory
  import opened Delivery
  import opened QueueProtocol
  import opened QueueInvariants
  import opened QueueCourses
  import opened QueueRounds
  import opened QueueSystem
  import Receiver

  // --- reaching a state of the only queue ---------------------------------------------------------------

  /** Some run of a system that starts without queues ends with this queue and this store. */
  ghost predicate Reachable(p: Point) {
    exists start, run :: Fresh(start) && IsRun(start, run) && After(start, run) == System(p.w, map[0 := p.q])
  }

  lemma {:induction false} RunSnoc(s: System, run: seq<Action>, a: Action)
    requires IsRun(s, run) && Possible(After(s, run), a)
    ensures IsRun(s, run + [a]) && After(s, run + [a]) == Apply(After(s, run), a)
    decreases |run|
  {
    if run == [] {
      assert run + [a] == [a];
      assert [a][1..] == [];
    } else {
      assert (run + [a])[1..] == run[1..] + [a];
      RunSnoc(Apply(s, run[0]), run[1..], a);
    }
  }

  lemma Reaches(p: Point, a: Action, p': Point)
    requires Reachable(p) && Possible(System(p.w, map[0 := p.q]), a)
    requires Apply(System(p.w, map[0 := p.q]), a) == System(p'.w, map[0 := p'.q])
    ensures Reachable(p')
  {
    var start, run :| Fresh(start) && IsRun(start, run) && After(start, run) == System(p.w, map[0 := p.q]);
    RunSnoc(start, run, a);
    assert After(start, run + [a]) == System(p'.w, map[0 := p'.q]);
  }

  lemma OnlyQueue(q: Queue, q': Queue)
    ensures map[0 := q][0 := q'] == map[0 := q']
  {
  }

  function Next(p: Point, t: Tid, ch: Choice): Point
    requires t in p.q.threads
  {
    Point(Do(p.q, p.w, t, ch), WorldAfter(p.q, p.w, t, ch))
  }

  lemma StepReaches(p: Point, t: Tid, ch: Choice)
    requires Reachable(p) && Enabled(p.q, p.w, t, ch)
    ensures Reachable(Next(p, t, ch))
  {
    OnlyQueue(p.q, Next(p, t, ch).q);
    Reaches(p, Operation(0, t, ch), Next(p, t, ch));
  }

  lemma {:induction false} AloneReaches(p: Point, t: Tid, choices: seq<Choice>)
    requires Reachable(p) && t in p.q.threads && MayRunAlone(p, t, choices)
    ensures Reachable(Alone(p, t, choices))
    decreases |choices|
  {
    if choices != [] {
      StepReaches(p, t, choices[0]);
      AloneReaches(Next(p, t, choices[0]), t, choices[1..]);
    }
  }

  /** A goroutine steps alone for a while. */
  lemma Runs(p: Point, t: Tid, choices: seq<Choice>) returns (end: Point)
    requires Reachable(p) && t in p.q.threads && MaySteps(Seen(p, t), p.q.destination, t, choices)
    ensures Reachable(end) && OthersWait(p, end, t)
    ensures Seen(end, t) == Steps(Seen(p, t), p.q.destination, t, choices)
  {
    AloneIsSteps(p, t, choices);
    AloneReaches(p, t, choices);
    end := Alone(p, t, choices);
  }

  lemma Moves(p: Point, t: Tid, ch: Choice) returns (end: Point)
    requires Reachable(p) && t in p.q.threads && MayStepHere(Seen(p, t), p.q.destination, ch)
    ensures Reachable(end) && OthersWait(p, end, t)
    ensures Seen(end, t) == Step(Seen(p, t), p.q.destination, t, ch)
  {
    DoIsStep(p, t, ch);
    StepReaches(p, t, ch);
    end := Next(p, t, ch);
  }

  lemma Enters(p: Point, t: Tid, pc: PC) returns (end: Point)
    requires Reachable(p) && t !in p.q.threads && MayBegin(p.w, pc)
    ensures Reachable(end) && end == Point(Begin(p.q, t, pc), p.w)
  {
    end := Point(Begin(p.q, t, pc), p.w);
    OnlyQueue(p.q, end.q);
    Reaches(p, Launch(0, t, pc), end);
  }

  // One operation each, with what it changes.

  lemma Notifies(p: Point, t: Tid) returns (end: Point)
    requires Reachable(p) && t in p.q.threads && p.q.threads[t] == WakeNotify
    ensures Reachable(end) && OthersWait(p, end, t)
    ensures Seen(end, t) == Seen(p, t).(pc := WakeClear, sig := p.q.sig.(notify := true),
                                        lock := Hold(p.q.lock, false, t))
  {
    end := Moves(p, t, Plain(0));
  }

  lemma Clears(p: Point, t: Tid) returns (end: Point)
    requires Reachable(p) && t in p.q.threads && p.q.threads[t] == WakeClear
    ensures Reachable(end) && OthersWait(p, end, t)
    ensures Seen(end, t) == Seen(p, t).(pc := WakeTest, sig := p.q.sig.(backingOff := false),
                                        lock := Hold(p.q.lock, false, t), marks := end.q.marks)
    ensures end.q.marks.leftOnBlacklist == p.q.marks.leftOnBlacklist
    ensures end.q.marks.leftOnShutdown == p.q.marks.leftOnShutdown
    ensures !p.q.sig.backingOff ==> end.q.marks == p.q.marks
  {
    end := Moves(p, t, Plain(0));
  }

  lemma TakesToken(p: Point, t: Tid) returns (end: Point)
    requires Reachable(p) && t in p.q.threads && p.q.threads[t] == Wait && p.q.sig.notify
    ensures Reachable(end) && OthersWait(p, end, t)
    ensures Seen(end, t) == Seen(p, t).(pc := Pick, sig := p.q.sig.(notify := false), lock := Hold(p.q.lock, false, t))
  {
    end := Moves(p, t, Plain(0));
  }

  lemma Stops(p: Point, t: Tid) returns (end: Point)
    requires Reachable(p) && t in p.q.threads && p.q.threads[t] == Stop
    ensures Reachable(end) && OthersWait(p, end, t)
    ensures Seen(end, t) == Seen(p, t).(pc := CloseCheck, sig := p.q.sig.(running := false),
                                        lock := Hold(p.q.lock, false, t))
  {
    end := Moves(p, t, Plain(0));
  }

  /** A batch is picked and posted, in vain. */
  lemma PostsInVain(p: Point, t: Tid, o: Outcomes) returns (end: Point)
    requires Reachable(p) && t in p.q.threads && p.q.threads[t] == Pick && HasPending(p.q.mem) && p.q.lock.None?
    requires o.build.id != "" && !o.post.yes
    ensures Reachable(end) && OthersWait(p, end, t) && end.w == p.w
    ensures end.q.threads[t] == Fail && end.q.sig == p.q.sig && end.q.lock.None? && end.q.marks == p.q.marks
    ensures end.q.mem.pdus == p.q.mem.pdus && end.q.mem.edus == p.q.mem.edus
    ensures end.q.mem.transactionID == NextId(p.q.mem, o)
    ensures end.q.mem.tried == p.q.mem.tried + [NextBatch(p.q.mem)]
  {
    SendingIs(Seen(p, t), p.q.destination, t, o);
    end := Runs(p, t, Sending(o));
  }

  lemma BacksOff(p: Point, t: Tid, o: Outcomes) returns (end: Point)
    requires Reachable(p) && t in p.q.threads && p.q.threads[t] == Fail && p.q.lock.None?
    requires p.q.destination !in p.w.blacklisted && !o.fail.yes
    ensures Reachable(end) && OthersWait(p, end, t) && end.w == p.w
    ensures Seen(end, t) == Seen(p, t).(pc := Stop, sig := p.q.sig.(backingOff := true))
  {
    GivingUpIs(Seen(p, t), p.q.destination, t, o);
    end := Runs(p, t, GivingUp(o));
  }

  /** A waker that finds no worker starts one. */
  lemma Starts(p: Point, t: Tid, child: Tid) returns (end: Point)
    requires Reachable(p) && t in p.q.threads && p.q.threads[t].WakeTest? && !p.q.sig.running && child !in p.q.threads
    ensures Reachable(end) && end.q.destination == p.q.destination
    ensures end.q.threads == p.q.threads[t := Done][child := Start]
    ensures Seen(end, child) == Local(Start, p.q.sig, p.q.mem, p.w, Hold(p.q.lock, false, t), p.q.marks)
  {
    var ch := Choice(None, false, TakeToken, "", child);
    StepReaches(p, t, ch);
    end := Next(p, t, ch);
  }

  // --- a worker from its start to its first wait --------------------------------------------------------------

  /** A worker just started comes to wait, its lists topped up. */
  lemma WorkerComesToWait(p: Point, t: Tid, pdus: Option<seq<Queued>>, edus: Option<seq<Queued>>) returns (end: Point)
    requires Reachable(p) && t in p.q.threads && p.q.threads[t] == Start
    requires !p.w.shutdown && !p.q.sig.running && p.q.lock.None? && MayAnswer(p.w, p.q.destination, pdus, edus)
    requires !AnswerIsFull(p.q.mem.pdus, pdus) && !AnswerIsFull(p.q.mem.edus, edus)
    ensures Reachable(end) && OthersWait(p, end, t) && end.w == p.w && end.q.threads[t] == Wait
    ensures end.q.lock.None? && end.q.marks == p.q.marks
    ensures end.q.mem.pdus == TopUp(p.q.mem.pdus, pdus) && end.q.mem.edus == TopUp(p.q.mem.edus, edus)
    ensures end.q.mem.transactionID == p.q.mem.transactionID && end.q.mem.tried == p.q.mem.tried
    ensures end.q.sig ==
              Signals(p.q.sig.notify || end.q.mem.pdus != p.q.mem.pdus || end.q.mem.edus != p.q.mem.edus,
                      true, p.q.sig.backingOff, false)
  {
    EnteringIs(Seen(p, t), p.q.destination, t);
    var entered := Runs(p, t, Entering());
    ScanCourse(Seen(entered, t), p.q.destination, t, pdus, edus);
    end := Runs(entered, t, Scanning(pdus, edus));
  }

  // --- the setting --------------------------------------------------------------------------------------------

  /** The destination, the row and body of the one PDU stored for it, and the ID its transaction will get. */
  datatype Setting = Setting(d: Server, nid: Nid, body: Json, id: string)

  function Item(nid: Nid, body: Json): Queued {
    Queued(nid, Some(body))
  }

  /** The one PDU stored at first. */
  function First(c: Setting): Queued {
    Item(c.nid, c.body)
  }

  function Store(c: Setting): World {
    World(map[c.nid := Blob(false, c.body)], {c.nid}, {(c.d, c.nid)}, {(c.d, c.nid)}, {}, [], {}, false)
  }

  lemma OneRowIsStored(c: Setting)
    ensures MayAnswer(Store(c), c.d, Some([First(c)]), Some([]))
    ensures TopUp([], Some([First(c)])) == [First(c)] && TopUp([], Some([])) == []
  {
    var stored := StoredFor(Store(c), Store(c).pduRows, c.d);
    assert (c.d, c.nid) in Store(c).pduRows;
    assert stored.Keys == {c.nid};
    assert StoredFor(Store(c), Store(c).eduRows, c.d).Keys == {};
    assert Absorb([], {}, [First(c)]) == Absorb([First(c)], {}, []) by {
      assert [] + [First(c)] == [First(c)];
    }
    assert Receipts([]) == {};
  }

  lemma QueueOpens(c: Setting) returns (p: Point)
    ensures Reachable(p) && p == Point(NewQueue(c.d), Store(c))
  {
    var start, a := System(Store(c), map[]), Open(0, c.d);
    p := Point(NewQueue(c.d), Store(c));
    assert Fresh(start);
    RunSnoc(start, [], a);
    assert After(start, [] + [a]) == System(p.w, map[0 := p.q]);
  }

  /** Nothing but the lists and signals given, in the store of the setting. */
  predicate Quiet(c: Setting, p: Point, sig: Signals, pdus: seq<Queued>, id: string, tried: seq<Batch>) {
    && p.w == Store(c) && p.q.destination == c.d && p.q.lock.None? && p.q.marks == Marks(false, false, false)
    && p.q.sig == sig && p.q.mem.pdus == pdus && p.q.mem.edus == []
    && p.q.mem.transactionID == id && p.q.mem.tried == tried
  }

  /** The hydration timer (goroutine 1) has started the worker (goroutine 2) of the new queue. */
  lemma Hydrated(c: Setting) returns (p: Point)
    ensures Reachable(p) && p.q.threads == map[1 := Done, 2 := Start]
    ensures Quiet(c, p, Signals(false, false, false, false), [], "", [])
  {
    p := QueueOpens(c);
    p := Enters(p, 1, WakeClear);
    p := Clears(p, 1);
    p := Starts(p, 1, 2);
  }

  // --- a row that no scan looks for ----------------------------------------------------------------------------

  /**
  A run in which both queries of the scan fail: the worker comes to wait with `overflowed` cleared and no token,
  although a row is stored for the destination and memory is empty.
  */
  lemma RowCanBeForgotten(c: Setting) returns (p: Point)
    ensures Reachable(p) && (p.q.destination, c.nid) in p.w.pduRows && c.nid in p.w.blobs
    ensures p.q.mem.pdus == [] && !p.q.sig.overflowed && !p.q.sig.notify && p.q.threads == map[1 := Done, 2 := Wait]
  {
    var before := Hydrated(c);
    p := WorkerComesToWait(before, 2, None, None);
    PairMoves(before, p, Start);
  }

  // --- a failed attempt ----------------------------------------------------------------------------------------

  /** Goroutine 0 is a forced retry, 1 the hydration timer, 2 the worker. */
  ghost predicate Trio(p: Point, waker: PC, worker: PC) {
    p.q.threads == map[0 := waker, 1 := Done, 2 := worker]
  }

  lemma TrioMoves(p: Point, end: Point, waker: PC, worker: PC, t: Tid)
    requires Trio(p, waker, worker) && OthersWait(p, end, t) && (t == 0 || t == 2)
    ensures Trio(end, if t == 0 then end.q.threads[0] else waker, if t == 2 then end.q.threads[2] else worker)
  {
  }

  lemma NoFullAnswer(x: Queued)
    ensures !AnswerIsFull([], Some([x])) && !AnswerIsFull([], Some([]))
  {
  }

  lemma PairMoves(p: Point, end: Point, worker: PC)
    requires p.q.threads == map[1 := Done, 2 := worker] && OthersWait(p, end, 2)
    ensures end.q.threads == map[1 := Done, 2 := end.q.threads[2]]
  {
  }

  lemma WorkerWaits(c: Setting) returns (p: Point)
    ensures Reachable(p) && p.q.threads == map[1 := Done, 2 := Wait]
    ensures Quiet(c, p, Signals(true, true, false, false), [First(c)], "", [])
  {
    var before := Hydrated(c);
    OneRowIsStored(c);
    NoFullAnswer(First(c));
    p := WorkerComesToWait(before, 2, Some([First(c)]), Some([]));
    PairMoves(before, p, Start);
  }

  /** The same without the retry: the worker of the new queue has posted its PDU in vain. */
  lemma LoneWorkerFails(c: Setting) returns (p: Point)
    requires c.id != ""
    ensures Reachable(p) && p.q.threads == map[1 := Done, 2 := Fail]
    ensures Quiet(c, p, Signals(false, true, false, false), [First(c)], c.id, [Batch([First(c)], [])])
  {
    var waiting := WorkerWaits(c);
    var picking := TakesToken(waiting, 2);
    PairMoves(waiting, picking, Wait);
    OneItem(picking.q.mem, First(c));
    p := PostsInVain(picking, 2, Failing(c));
    PairMoves(picking, p, Pick);
  }

  lemma TrioEntered(p: Point, end: Point)
    requires p.q.threads == map[1 := Done, 2 := Wait] && end == Point(Begin(p.q, 0, WakeNotify), p.w)
    ensures Trio(end, WakeNotify, Wait)
  {
  }

  lemma RetryNotifies(c: Setting) returns (p: Point)
    ensures Reachable(p) && Trio(p, WakeClear, Wait)
    ensures Quiet(c, p, Signals(true, true, false, false), [First(c)], "", [])
  {
    var before := WorkerWaits(c);
    var entered := Enters(before, 0, WakeNotify);
    TrioEntered(before, entered);
    p := Notifies(entered, 0);
    TrioMoves(entered, p, WakeNotify, Wait, 0);
  }

  lemma TokenIsTaken(c: Setting) returns (p: Point)
    ensures Reachable(p) && Trio(p, WakeClear, Pick)
    ensures Quiet(c, p, Signals(false, true, false, false), [First(c)], "", [])
  {
    var before := RetryNotifies(c);
    p := TakesToken(before, 2);
    TrioMoves(before, p, WakeClear, Wait, 2);
  }

  function Failing(c: Setting): Outcomes {
    var ch := Plain(0).(id := c.id);
    Outcomes(ch, ch, ch, ch, ch, ch, ch, ch, ch, ch, ch)
  }

  lemma OneItem(mem: Memory, x: Queued)
    requires mem.pdus == [x] && mem.edus == []
    ensures HasPending(mem) && NextBatch(mem) == Batch([x], [])
  {
  }

  lemma PostedInVain(c: Setting) returns (p: Point)
    requires c.id != ""
    ensures Reachable(p) && Trio(p, WakeClear, Fail)
    ensures Quiet(c, p, Signals(false, true, false, false), [First(c)], c.id, [Batch([First(c)], [])])
  {
    var before := TokenIsTaken(c);
    OneItem(before.q.mem, First(c));
    p := PostsInVain(before, 2, Failing(c));
    TrioMoves(before, p, WakeClear, Pick, 2);
  }

  lemma WorkerBacksOff(c: Setting) returns (p: Point)
    requires c.id != ""
    ensures Reachable(p) && Trio(p, WakeClear, Stop)
    ensures Quiet(c, p, Signals(false, true, true, false), [First(c)], c.id, [Batch([First(c)], [])])
  {
    var before := PostedInVain(c);
    p := BacksOff(before, 2, Failing(c));
    TrioMoves(before, p, WakeClear, Fail, 2);
  }

  /** The worker has posted its PDU in vain, under `id`; goroutine 0 has notified but not cleared `backingOff` yet. */
  lemma AttemptFails(c: Setting) returns (p: Point)
    requires c.id != ""
    ensures Reachable(p) && Trio(p, WakeClear, CloseCheck)
    ensures Quiet(c, p, Signals(false, false, true, false), [First(c)], c.id, [Batch([First(c)], [])])
  {
    var before := WorkerBacksOff(c);
    p := Stops(before, 2);
    TrioMoves(before, p, WakeClear, Stop, 2);
  }

  // --- stranded work ---------------------------------------------------------------------------------------------

  lemma NobodyCarries(p: Point)
    requires Trio(p, WakeTest, CloseCheck)
    ensures !SomeThread(p.q.threads, Carrier)
  {
  }

  /**
  Pending work can be stranded although nothing was blacklisted and nothing shut down. A waker notifies, but before
  it clears `backingOff` its token is taken, the attempt fails, and the worker backs off and closes. Clearing the
  flag then strands what is pending: a worker started now finds nothing new in the database and goes idle, and the
  backoff timer finds `backingOff` clear and does nothing.
  */
  lemma WorkCanBeStranded(c: Setting) returns (p: Point)
    requires c.id != ""
    ensures Reachable(p) && p.w == Store(c) && p.q.mem.pdus == [First(c)] && Stranded(p.q)
    ensures !p.q.sig.running && !p.q.marks.leftOnBlacklist && !p.q.marks.leftOnShutdown
  {
    var before := AttemptFails(c);
    p := Clears(before, 0);
    TrioMoves(before, p, WakeClear, CloseCheck, 0);
    NobodyCarries(p);
  }

  // --- a retry that carries more ----------------------------------------------------------------------------------

  /** The store once a second PDU is associated with the destination. */
  function BothStored(c: Setting, nid: Nid, body: Json): World
    requires nid != c.nid
  {
    AssociatePDU(Record(Store(c), nid, Blob(false, body)), {c.d}, nid)
  }

  lemma SecondIsStored(c: Setting, p: Point, nid: Nid, body: Json) returns (end: Point)
    requires Reachable(p) && p.w == Store(c) && nid != c.nid
    ensures Reachable(end) && end == Point(p.q, BothStored(c, nid, body))
  {
    var stored := Point(p.q, Record(p.w, nid, Blob(false, body)));
    Reaches(p, StoreJson(nid, Blob(false, body)), stored);
    end := Point(p.q, BothStored(c, nid, body));
    Reaches(stored, AddPduRows({c.d}, nid), end);
  }

  lemma TwoRowsAreStored(c: Setting, nid: Nid, body: Json)
    requires nid != c.nid
    ensures MayAnswer(BothStored(c, nid, body), c.d, Some([First(c), Item(nid, body)]), Some([]))
  {
    var w := BothStored(c, nid, body);
    StoredTwo(c, nid, body);
    TwoAnswer(First(c), Item(nid, body), StoredFor(w, w.pduRows, c.d));
    NoneAnswers(StoredFor(w, w.eduRows, c.d));
  }

  lemma TwoAnswer(x: Queued, y: Queued, stored: map<Nid, Json>)
    requires x.receipt != y.receipt && x.body.Some? && y.body.Some?
    requires stored == map[x.receipt := x.body.value, y.receipt := y.body.value]
    ensures Answers([x, y], stored)
  {
    assert stored.Keys == {x.receipt, y.receipt};
    assert |stored.Keys| == 2;
  }

  lemma NoneAnswers(stored: map<Nid, Json>)
    requires stored == map[]
    ensures Answers([], stored)
  {
    assert stored.Keys == {};
  }

  lemma StoredTwo(c: Setting, nid: Nid, body: Json)
    requires nid != c.nid
    ensures var w := BothStored(c, nid, body);
            && StoredFor(w, w.pduRows, c.d) == map[c.nid := c.body, nid := body]
            && StoredFor(w, w.eduRows, c.d) == map[]
  {
    var w := BothStored(c, nid, body);
    assert w.pduRows == {(c.d, c.nid), (c.d, nid)} && w.blobs == {c.nid, nid};
    assert w.recorded == map[c.nid := Blob(false, c.body), nid := Blob(false, body)];
  }

  /** Rows that memory holds already leave it as it is. */
  lemma {:induction false} AbsorbKnown(list: seq<Queued>, got: set<Nid>, rows: seq<Queued>)
    requires forall i :: 0 <= i < |rows| ==> rows[i].receipt in got
    ensures Absorb(list, got, rows) == list
    decreases |rows|
  {
    if rows != [] {
      AbsorbKnown(list, got, rows[1..]);
    }
  }

  lemma NothingNew(list: seq<Queued>)
    requires |list| < MAX_IN_MEMORY
    ensures TopUp(list, Some(list)) == list && !AnswerIsFull(list, Some(list))
    ensures TopUp([], Some([])) == [] && !AnswerIsFull([], Some([]))
  {
    AbsorbKnown(list, Receipts(list), list);
    AbsorbKnown([], Receipts([]), []);
  }

  /** The lists, the signals and the transaction of a queue that serves the destination of the setting. */
  predicate Shows(c: Setting, p: Point, w: World, sig: Signals, pdus: seq<Queued>) {
    && p.w == w && p.q.destination == c.d && p.q.lock.None? && p.q.sig == sig
    && p.q.mem.pdus == pdus && p.q.mem.edus == []
    && p.q.mem.transactionID == c.id && p.q.mem.tried == [Batch([First(c)], [])]
  }

  /** A send puts its item behind the others and finds the queue backing off or not. */
  lemma Appends(p: Point, t: Tid, item: Queued) returns (end: Point)
    requires Reachable(p) && t !in p.q.threads && item.body.Some? && Faithful(p.w, false, item)
    requires p.q.destination !in p.w.blacklisted && |p.q.mem.pdus| < MAX_IN_MEMORY && p.q.lock.None?
    ensures Reachable(end) && end.w == p.w && end.q.destination == p.q.destination && end.q.lock.None?
    ensures end.q.threads.Keys == p.q.threads.Keys + {t} && end.q.threads[t] == SendTest && end.q.sig == p.q.sig
    ensures forall u :: u in p.q.threads ==> end.q.threads[u] == p.q.threads[u]
    ensures end.q.mem.pdus == p.q.mem.pdus + [item] && end.q.mem.edus == p.q.mem.edus
    ensures end.q.mem.transactionID == p.q.mem.transactionID && end.q.mem.tried == p.q.mem.tried
  {
    var entered := Enters(p, t, SendCheck(false, item));
    AppendSteps(Seen(entered, t), p.q.destination, t, item);
    end := Runs(entered, t, [Plain(0), Plain(0)]);
  }

  lemma AppendSteps(l: Local, d: Server, t: Tid, item: Queued)
    requires l.pc == SendCheck(false, item) && item.body.Some? && d !in l.w.blacklisted
    requires |l.mem.pdus| < MAX_IN_MEMORY && l.lock.None?
    ensures MaySteps(l, d, t, [Plain(0), Plain(0)])
    ensures var end := Steps(l, d, t, [Plain(0), Plain(0)]);
            && end.pc == SendTest && end.sig == l.sig && end.w == l.w && end.lock.None?
            && end.mem.pdus == l.mem.pdus + [item] && end.mem.edus == l.mem.edus
            && end.mem.transactionID == l.mem.transactionID && end.mem.tried == l.mem.tried
  {
    assert Step(l, d, t, Plain(0)) == l.(pc := SendAppend(false, item));
    TwoSteps(l, d, t, Plain(0), Plain(0));
  }

  lemma FindsNoBackoff(p: Point, t: Tid) returns (end: Point)
    requires Reachable(p) && t in p.q.threads && p.q.threads[t] == SendTest && !p.q.sig.backingOff
    ensures Reachable(end) && OthersWait(p, end, t)
    ensures Seen(end, t) == Seen(p, t).(pc := WakeNotify, lock := Hold(p.q.lock, false, t))
  {
    end := Moves(p, t, Plain(0));
  }

  /** Another PDU is sent during the backoff, and then the late wake-up clears the backoff. */
  lemma SecondIsSent(c: Setting, p: Point, item: Queued) returns (end: Point)
    requires Reachable(p) && 0 in p.q.threads && 3 !in p.q.threads && 4 !in p.q.threads && p.q.threads[0] == WakeClear
    requires Shows(c, p, p.w, Signals(false, false, true, false), [First(c)])
    requires item.body.Some? && Faithful(p.w, false, item) && c.d !in p.w.blacklisted
    ensures Reachable(end) && 3 in end.q.threads && 4 !in end.q.threads && end.q.threads[3] == SendTest
    ensures Shows(c, end, p.w, Signals(false, false, false, false), [First(c), item])
  {
    var sent := Appends(p, 3, item);
    assert [First(c)] + [item] == [First(c), item];
    end := Clears(sent, 0);
  }

  /** The sender wakes the queue. */
  lemma SenderWakes(p: Point, t: Tid) returns (end: Point)
    requires Reachable(p) && t in p.q.threads && p.q.threads[t] == SendTest
    requires p.q.sig == Signals(false, false, false, false) && p.q.lock.None?
    ensures Reachable(end) && OthersWait(p, end, t) && end.w == p.w && end.q.mem == p.q.mem && end.q.lock.None?
    ensures end.q.threads[t] == WakeTest && end.q.sig == Signals(true, false, false, false)
  {
    var found := FindsNoBackoff(p, t);
    var notified := Notifies(found, t);
    end := Clears(notified, t);
  }

  /** The sender wakes the queue with a new worker, goroutine 4. */
  lemma SecondWorkerStarts(c: Setting, p: Point, pdus: seq<Queued>) returns (end: Point)
    requires Reachable(p) && 3 in p.q.threads && 4 !in p.q.threads && p.q.threads[3] == SendTest
    requires Shows(c, p, p.w, Signals(false, false, false, false), pdus)
    ensures Reachable(end) && 4 in end.q.threads && end.q.threads[4] == Start
    ensures Shows(c, end, p.w, Signals(true, false, false, false), pdus)
  {
    var woken := SenderWakes(p, 3);
    end := Starts(woken, 3, 4);
  }

  lemma SecondPduWaits(c: Setting, nid: Nid, body: Json) returns (p: Point)
    requires c.id != "" && nid != c.nid
    ensures Reachable(p) && 4 in p.q.threads && p.q.threads[4] == Start
    ensures Shows(c, p, BothStored(c, nid, body), Signals(true, false, false, false), [First(c), Item(nid, body)])
  {
    var failed := AttemptFails(c);
    var stored := SecondIsStored(c, failed, nid, body);
    var sent := SecondIsSent(c, stored, Item(nid, body));
    p := SecondWorkerStarts(c, sent, [First(c), Item(nid, body)]);
  }

  lemma SecondWorkerPicks(c: Setting, nid: Nid, body: Json) returns (p: Point)
    requires c.id != "" && nid != c.nid
    ensures Reachable(p) && 4 in p.q.threads && p.q.threads[4] == Pick
    ensures Shows(c, p, BothStored(c, nid, body), Signals(false, true, false, false), [First(c), Item(nid, body)])
  {
    var started := SecondPduWaits(c, nid, body);
    TwoRowsAreStored(c, nid, body);
    NothingNew([First(c), Item(nid, body)]);
    var waiting := WorkerComesToWait(started, 4, Some([First(c), Item(nid, body)]), Some([]));
    p := TakesToken(waiting, 4);
  }

  /** The worker takes its batch and is about to post it under the stored ID. */
  lemma PicksAndBuilds(p: Point, t: Tid) returns (end: Point)
    requires Reachable(p) && t in p.q.threads && p.q.threads[t] == Pick && HasPending(p.q.mem) && p.q.lock.None?
    requires p.q.mem.transactionID != ""
    ensures Reachable(end) && end.w == p.w && end.q.destination == p.q.destination && t in end.q.threads
    ensures end.q.threads[t] == Post(NextBatch(p.q.mem)) && end.q.mem == p.q.mem
  {
    var ch := Plain(0).(id := "unused");
    PickSteps(Seen(p, t), p.q.destination, t, ch);
    end := Runs(p, t, [ch, ch]);
  }

  lemma PickSteps(l: Local, d: Server, t: Tid, ch: Choice)
    requires l.pc == Pick && HasPending(l.mem) && l.lock.None? && l.mem.transactionID != "" && ch.id != ""
    ensures MaySteps(l, d, t, [ch, ch]) && Steps(l, d, t, [ch, ch]) == l.(pc := Post(NextBatch(l.mem)))
  {
    assert Step(l, d, t, ch) == l.(pc := Build(NextBatch(l.mem)));
    TwoSteps(l, d, t, ch, ch);
  }

  lemma TwoItems(mem: Memory, x: Queued, y: Queued)
    requires mem.pdus == [x, y] && mem.edus == []
    ensures HasPending(mem) && NextBatch(mem) == Batch([x, y], [])
  {
  }

  /**
  A run whose second attempt, about to be posted under the ID of the first, carries a PDU that the first one did not:
  it was sent during the backoff.
  */
  lemma RetryCanCarryMore(c: Setting, nid: Nid, body: Json) returns (p: Point, t: Tid)
    requires c.id != "" && nid != c.nid
    ensures Reachable(p) && p.q.destination == c.d && p.q.mem.transactionID == c.id && t in p.q.threads
    ensures p.q.mem.tried == [Batch([First(c)], [])] && p.q.threads[t] == Post(Batch([First(c), Item(nid, body)], []))
  {
    var picking := SecondWorkerPicks(c, nid, body);
    TwoItems(picking.q.mem, First(c), Item(nid, body));
    t := 4;
    p := PicksAndBuilds(picking, t);
  }

  // --- a retry after a wipe ---------------------------------------------------------------------------------------

  /** The failure blacklists: both lists are wiped, the transaction ID is kept. */
  lemma WipeSteps(l: Local, d: Server, t: Tid, ch: Choice)
    requires l.pc == Fail && l.lock.None? && ch.yes
    ensures MaySteps(l, d, t, [ch, ch])
    ensures var after := Steps(l, d, t, [ch, ch]);
            && after.pc == Stop && after.sig == l.sig && after.lock.None?
            && after.w == l.w.(blacklisted := l.w.blacklisted + {d}) && after.mem.pdus == [] && after.mem.edus == []
            && after.mem.transactionID == l.mem.transactionID && after.mem.tried == l.mem.tried
  {
    assert Step(l, d, t, ch) == l.(pc := Wipe, w := l.w.(blacklisted := l.w.blacklisted + {d}));
    TwoSteps(l, d, t, ch, ch);
  }

  lemma Wipes(p: Point, t: Tid) returns (end: Point)
    requires Reachable(p) && t in p.q.threads && p.q.threads[t] == Fail && p.q.lock.None?
    ensures Reachable(end) && OthersWait(p, end, t) && end.q.threads[t] == Stop && end.q.lock.None?
    ensures end.w == p.w.(blacklisted := p.w.blacklisted + {p.q.destination}) && end.q.sig == p.q.sig
    ensures end.q.mem.pdus == [] && end.q.mem.edus == []
    ensures end.q.mem.transactionID == p.q.mem.transactionID && end.q.mem.tried == p.q.mem.tried
  {
    var ch := Plain(0).(yes := true);
    WipeSteps(Seen(p, t), p.q.destination, t, ch);
    end := Runs(p, t, [ch, ch]);
  }

  lemma LeavingIs(l: Local, d: Server, t: Tid)
    requires l.pc == CloseCheck && d in l.w.blacklisted && l.lock.None?
    ensures MayStepHere(l, d, Plain(0))
    ensures Step(l, d, t, Plain(0)) == l.(pc := Done, marks := l.marks.(leftOnBlacklist := true))
  {
  }

  lemma LeavesBlacklisted(p: Point, t: Tid) returns (end: Point)
    requires Reachable(p) && t in p.q.threads && p.q.threads[t] == CloseCheck && p.q.lock.None?
    requires p.q.destination in p.w.blacklisted
    ensures Reachable(end) && OthersWait(p, end, t) && end.w == p.w && end.q.threads[t] == Done
    ensures end.q.sig == p.q.sig && end.q.mem == p.q.mem && end.q.lock.None?
  {
    LeavingIs(Seen(p, t), p.q.destination, t);
    end := Moves(p, t, Plain(0));
  }

  /** A worker whose failure blacklists wipes the lists, stops and leaves for good. */
  lemma GivesUp(p: Point, t: Tid) returns (end: Point)
    requires Reachable(p) && t in p.q.threads && p.q.threads[t] == Fail && p.q.lock.None?
    ensures Reachable(end) && OthersWait(p, end, t) && end.q.threads[t] == Done && end.q.lock.None?
    ensures end.w == p.w.(blacklisted := p.w.blacklisted + {p.q.destination})
    ensures end.q.sig == p.q.sig.(running := false) && end.q.mem.pdus == [] && end.q.mem.edus == []
    ensures end.q.mem.transactionID == p.q.mem.transactionID && end.q.mem.tried == p.q.mem.tried
  {
    var wiped := Wipes(p, t);
    var stopped := Stops(wiped, t);
    end := LeavesBlacklisted(stopped, t);
  }

  lemma BlacklistIsSet(p: Point, listed: set<Server>) returns (end: Point)
    requires Reachable(p)
    ensures Reachable(end) && end == Point(p.q, p.w.(blacklisted := listed))
  {
    end := Point(p.q, p.w.(blacklisted := listed));
    Reaches(p, SetBlacklist(listed), end);
  }

  /** The first failure of the worker blacklists the destination, and later it is taken off the list. */
  lemma BlacklistingPasses(c: Setting) returns (p: Point)
    requires c.id != ""
    ensures Reachable(p) && p.q.threads == map[1 := Done, 2 := Done]
    ensures Shows(c, p, Store(c), Signals(false, false, false, false), [])
  {
    var failed := LoneWorkerFails(c);
    var left := GivesUp(failed, 2);
    PairMoves(failed, left, Fail);
    p := BlacklistIsSet(left, {});
  }

  /** The worker of the wiped queue brings the first PDU back, behind the new one. */
  lemma OldComesBehindNew(x: Queued, y: Queued)
    requires x.receipt != y.receipt
    ensures TopUp([y], Some([x, y])) == [y, x] && !AnswerIsFull([y], Some([x, y]))
    ensures TopUp([], Some([])) == [] && !AnswerIsFull([], Some([]))
  {
    assert Receipts([y]) == {y.receipt} by {
      assert [y][0].receipt in Receipts([y]);
    }
    assert [x, y][1..] == [y] && [y] + [x] == [y, x];
    AbsorbKnown([y, x], {y.receipt}, [y]);
    assert Absorb([y], {y.receipt}, [x, y]) == Absorb([y, x], {y.receipt}, [y]);
    NothingNew([]);
  }

  lemma NewIsSentAfterWipe(c: Setting, nid: Nid, body: Json) returns (p: Point)
    requires c.id != "" && nid != c.nid
    ensures Reachable(p) && 4 in p.q.threads && p.q.threads[4] == Start
    ensures Shows(c, p, BothStored(c, nid, body), Signals(true, false, false, false), [Item(nid, body)])
  {
    var wiped := BlacklistingPasses(c);
    var stored := SecondIsStored(c, wiped, nid, body);
    var sent := Appends(stored, 3, Item(nid, body));
    assert [] + [Item(nid, body)] == [Item(nid, body)];
    p := SecondWorkerStarts(c, sent, [Item(nid, body)]);
  }

  lemma PicksAfterWipe(c: Setting, nid: Nid, body: Json) returns (p: Point)
    requires c.id != "" && nid != c.nid
    ensures Reachable(p) && 4 in p.q.threads && p.q.threads[4] == Pick
    ensures Shows(c, p, BothStored(c, nid, body), Signals(false, true, false, false), [Item(nid, body), First(c)])
  {
    var started := NewIsSentAfterWipe(c, nid, body);
    TwoRowsAreStored(c, nid, body);
    OldComesBehindNew(First(c), Item(nid, body));
    var waiting := WorkerComesToWait(started, 4, Some([First(c), Item(nid, body)]), Some([]));
    p := TakesToken(waiting, 4);
  }

  /**
  A run whose second attempt, about to be posted under the ID of the first, does not begin with what the first one
  carried: a blacklisting in between has wiped the lists but not the ID.
  */
  lemma RetryCanReorder(c: Setting, nid: Nid, body: Json) returns (p: Point, t: Tid)
    requires c.id != "" && nid != c.nid && body != c.body
    ensures Reachable(p) && p.q.destination == c.d && p.q.mem.transactionID == c.id && t in p.q.threads
    ensures p.q.mem.tried == [Batch([First(c)], [])]
    ensures p.q.threads[t] == Post(Batch([Item(nid, body), First(c)], []))
    ensures !(Bodies([First(c)]) <= Bodies([Item(nid, body), First(c)]))
  {
    var picking := PicksAfterWipe(c, nid, body);
    TwoItems(picking.q.mem, Item(nid, body), First(c));
    t := 4;
    p := PicksAndBuilds(picking, t);
    OneBody(First(c));
    OneBody(Item(nid, body));
    BodiesAppend([Item(nid, body)], [First(c)]);
    assert [Item(nid, body), First(c)] == [Item(nid, body)] + [First(c)];
    assert Bodies([First(c)])[0] != Bodies([Item(nid, body), First(c)])[0];
  }

  // --- an event that is turned away -----------------------------------------------------------------------------

  lemma TurningAwayIs(l: Local, d: Server, t: Tid)
    requires l.pc.SendCheck? && d in l.w.blacklisted && l.lock.None?
    ensures MayStepHere(l, d, Plain(0)) && Step(l, d, t, Plain(0)) == l.(pc := Done)
  {
  }

  lemma IsTurnedAway(p: Point, t: Tid, item: Queued) returns (end: Point)
    requires Reachable(p) && t !in p.q.threads && item.body.Some? && Faithful(p.w, false, item)
    requires p.q.destination in p.w.blacklisted && p.q.lock.None?
    ensures Reachable(end) && end.w == p.w && end.q.mem == p.q.mem && end.q.sig == p.q.sig
    ensures end.q.destination == p.q.destination && end.q.threads == p.q.threads[t := Done]
  {
    var entered := Enters(p, t, SendCheck(false, item));
    TurningAwayIs(Seen(entered, t), p.q.destination, t);
    end := Moves(entered, t, Plain(0));
    assert end.q.threads == p.q.threads[t := Done];
  }

  /**
  A run in which all queries succeed, but the destination is on the blacklist when the second event is handed to its
  queue: the worker goes on waiting with `overflowed` clear, and will not look for the row that is stored.
  */
  lemma EventCanBeTurnedAway(c: Setting, nid: Nid, body: Json) returns (p: Point)
    requires nid != c.nid
    ensures Reachable(p) && (p.q.destination, nid) in p.w.pduRows && nid in p.w.blobs
    ensures p.q.mem.pdus == [First(c)] && !p.q.sig.overflowed && p.q.threads == map[1 := Done, 2 := Wait, 3 := Done]
  {
    var waiting := WorkerWaits(c);
    var stored := SecondIsStored(c, waiting, nid, body);
    var listed := BlacklistIsSet(stored, {c.d});
    p := IsTurnedAway(listed, 3, Item(nid, body));
  }

  // --- a retry that goes unread -------------------------------------------------------------------------------------

  /**
  A run whose retry brings a receiver that is still working on the first attempt to acknowledge a PDU that it never
  reads.
  */
  lemma RetryCanGoUnread(c: Setting, nid: Nid, body: Json) returns (p: Point, t: Tid, events: seq<Receiver.Event>)
    requires c.id != "" && nid != c.nid && body != c.body
    ensures Reachable(p) && t in p.q.threads && p.q.threads[t].Post? && p.q.mem.transactionID == c.id
    ensures p.q.mem.tried != [] && events == [Receiver.Arrival(Bodies(p.q.mem.tried[0].pdus))]
    ensures var retry := Receiver.Arrival(Bodies(p.q.threads[t].batch.pdus));
            body in retry.pdus && body !in Receiver.Handle(Receiver.After(events), retry).read
  {
    p, t := RetryCanCarryMore(c, nid, body);
    var x, y := First(c), Item(nid, body);
    OneBody(x);
    OneBody(y);
    BodiesAppend([x], [y]);
    assert [x, y] == [x] + [y];
    assert p.q.mem.tried[0].pdus == [x];
    events := [Receiver.Arrival(Bodies(p.q.mem.tried[0].pdus))];
    assert events[..0] == [];
    assert Receiver.After(events) == Receiver.Desk(Some([c.body]), {} + Elements([c.body]));
    assert ([c.body] + [body])[1] == body;
  }
}
