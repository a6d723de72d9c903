/**
Any number of destination queues over one shared store, through sends, failures, blacklisting,
expiry, shutdown and restarts.
*/
module QueueSystem {
  import opened Wrappers
  import opened QueueMemory
  import opened Delivery
  import opened QueueProtocol
  import opened QueueInvariants
  import opened QueueBooks

  type QueueId = nat

  datatype System = System(world: World, queues: map<QueueId, Queue>)

  datatype Action =
    | Operation(i: QueueId, t: Tid, ch: Choice)     // one atomic operation of a goroutine
    | Launch(i: QueueId, t: Tid, pc: PC)            // a goroutine or a timer enters queue i
    | Open(i: QueueId, d: Server)                   // getQueue builds a queue
    | StoreJson(n: Nid, b: Blob)
    | AddPduRows(ds: set<Server>, n: Nid)
    | AddEduRows(ds: set<Server>, n: Nid)
    | Expire(nids: set<Nid>)
    | SetBlacklist(listed: set<Server>)             // MarkServerAlive, or a database entry
    | ShutDown
    | Restart                                       // memory and goroutines are gone, the store is not

  ghost predicate Possible(s: System, a: Action) {
    match a
    case Operation(i, t, ch) => i in s.queues && Enabled(s.queues[i], s.world, t, ch)
    case Launch(i, t, pc) => i in s.queues && t !in s.queues[i].threads && MayBegin(s.world, pc)
    case Open(i, d) => i !in s.queues
    case StoreJson(n, b) => n !in s.world.recorded
    // a row is deleted only after a queue carried it, which is after it was associated
    case AddPduRows(ds, n) => n in s.world.blobs && n in s.world.recorded && !s.world.recorded[n].edu
    case AddEduRows(ds, n) => n in s.world.blobs && n in s.world.recorded && s.world.recorded[n].edu
    case Expire(nids) => forall n :: n in nids ==> n in s.world.recorded && s.world.recorded[n].edu
    case SetBlacklist(_) => true
    case ShutDown => true
    case Restart => true
  }

  function Apply(s: System, a: Action): System
    requires a.Operation? ==> a.i in s.queues && a.t in s.queues[a.i].threads
    requires a.Launch? ==> a.i in s.queues
    requires a.StoreJson? ==> a.n !in s.world.recorded
  {
    match a
    case Operation(i, t, ch) =>
      System(WorldAfter(s.queues[i], s.world, t, ch), s.queues[i := Do(s.queues[i], s.world, t, ch)])
    case Launch(i, t, pc) => s.(queues := s.queues[i := Begin(s.queues[i], t, pc)])
    case Open(i, d) => s.(queues := s.queues[i := NewQueue(d)])
    case StoreJson(n, b) => s.(world := Record(s.world, n, b))
    case AddPduRows(ds, n) => s.(world := AssociatePDU(s.world, ds, n))
    case AddEduRows(ds, n) => s.(world := AssociateEDU(s.world, ds, n))
    case Expire(nids) => s.(world := ExpireEDUs(s.world, nids))
    case SetBlacklist(listed) => s.(world := s.world.(blacklisted := listed))
    case ShutDown => s.(world := s.world.(shutdown := true))
    case Restart => System(s.world.(shutdown := false), map[])
  }

  /**
  What may happen at any time, whatever the queues are doing: a restart or shutdown, any blacklist, a queue under a new
  number, also for a destination that has one, a row under a number never used, the association of a stored PDU or EDU
  with any destinations, the expiry of any EDUs. Into a queue may come at any time, on a fresh goroutine, a send of an
  item that is what the store has recorded or has no body, a backoff callback, a retry, a forced or a hydration wake-up,
  and nothing else.
  */
  lemma TheWorldIsFree(s: System)
    ensures Possible(s, Restart) && Possible(s, ShutDown) && forall listed :: Possible(s, SetBlacklist(listed))
    ensures forall i, d :: Possible(s, Open(i, d)) <==> i !in s.queues
    ensures forall n, b :: Possible(s, StoreJson(n, b)) <==> n !in s.world.recorded
    ensures forall ds, n, b :: n in s.world.recorded && s.world.recorded[n] == b ==>
              && (Possible(s, AddPduRows(ds, n)) <==> n in s.world.blobs && !b.edu)
              && (Possible(s, AddEduRows(ds, n)) <==> n in s.world.blobs && b.edu)
    ensures forall nids :: Possible(s, Expire(nids)) <==>
              forall n :: n in nids ==> n in s.world.recorded && s.world.recorded[n].edu
    ensures forall i, t, pc :: Possible(s, Launch(i, t, pc)) <==>
              && i in s.queues && t !in s.queues[i].threads
              && (pc in {BackoffTest, RetryTest, WakeNotify, WakeClear}
                  || (pc.SendCheck?
                      && (pc.item.body.Some? ==>
                            && pc.item.receipt in s.world.recorded
                            && s.world.recorded[pc.item.receipt] == Blob(pc.edu, pc.item.body.value))))
  {
  }

  /** What the store is like after the actions of the world, row by row; no queue is touched but by a restart. */
  lemma TheWorldIsObeyed(s: System, ds: set<Server>, n: Nid, nids: set<Nid>, listed: set<Server>)
    ensures Apply(s, ShutDown).world.shutdown && Apply(s, ShutDown).queues == s.queues
    ensures !Apply(s, Restart).world.shutdown && Apply(s, Restart).queues == map[]
    ensures Apply(s, Restart).world.(shutdown := s.world.shutdown) == s.world
    ensures Apply(s, SetBlacklist(listed)) == s.(world := s.world.(blacklisted := listed))
    ensures var s' := Apply(s, AddEduRows(ds, n));
            s'.queues == s.queues
            && forall d, m :: (d, m) in s'.world.eduRows <==> (d, m) in s.world.eduRows || (d in ds && m == n)
    ensures var s' := Apply(s, AddPduRows(ds, n));
            s'.queues == s.queues
            && forall d, m :: (d, m) in s'.world.pduRows <==> (d, m) in s.world.pduRows || (d in ds && m == n)
    ensures var s' := Apply(s, Expire(nids));
            s'.queues == s.queues
            && forall d, m :: m in StoredFor(s'.world, s'.world.eduRows, d) <==>
                 m in StoredFor(s.world, s.world.eduRows, d) && m !in nids
  {
    AssociatingIsExact(s.world, ds, n);
    ExpireEDUsIsExact(s.world, nids);
    forall d, m ensures m in StoredFor(Apply(s, Expire(nids)).world, Apply(s, Expire(nids)).world.eduRows, d) <==>
        (m in StoredFor(s.world, s.world.eduRows, d) && m !in nids) {
      StoredForIsExact(s.world, s.world.eduRows, d, m);
      StoredForIsExact(Apply(s, Expire(nids)).world, Apply(s, Expire(nids)).world.eduRows, d, m);
    }
  }

  ghost predicate QueueInv(q: Queue, w: World) {
    BooksInv(q, w) && TokenIsWatched(q) && (Stranded(q) ==> q.marks.lateClear)
  }

  ghost predicate SystemInv(s: System) {
    WorldInv(s.world) && forall i :: i in s.queues ==> QueueInv(s.queues[i], s.world)
  }

  /** A run: every action is possible where it happens. */
  ghost predicate IsRun(s: System, actions: seq<Action>)
    decreases |actions|
  {
    actions == [] || (Possible(s, actions[0]) && IsRun(Apply(s, actions[0]), actions[1..]))
  }

  ghost function After(s: System, actions: seq<Action>): System
    requires IsRun(s, actions)
    decreases |actions|
  {
    if actions == [] then s else After(Apply(s, actions[0]), actions[1..])
  }

  // --- a queue under other people's steps ------------------------------------------------------------

  lemma QueueInvStays(q: Queue, w: World, w': World)
    requires QueueInv(q, w) && Evolves(w, w')
    ensures QueueInv(q, w')
  {
    MemoryInvStays(q.mem, w, w');
    forall t | t in q.threads ensures PcInv(q.threads[t], q.destination, q.mem, w') {
      PcInvStays(q.threads[t], q.destination, q.mem, w, q.mem, w');
    }
  }

  lemma StepKeepsQueueInv(q: Queue, w: World, t: Tid, ch: Choice)
    requires QueueInv(q, w) && WorldInv(w) && Enabled(q, w, t, ch)
    ensures QueueInv(Do(q, w, t, ch), WorldAfter(q, w, t, ch))
    ensures WorldInv(WorldAfter(q, w, t, ch)) && Evolves(w, WorldAfter(q, w, t, ch))
  {
    StepKeepsBooks(q, w, t, ch);
    StepKeepsTokenWatched(q, w, t, ch);
    MarksOnlyGrow(q.threads[t], q.destination, q.sig, q.mem, q.marks, w);
    if Stranded(Do(q, w, t, ch)) && !Stranded(q) {
      StepStrandsExactlyWhen(q, w, t, ch);
    }
  }

  lemma BeginKeepsBooks(q: Queue, w: World, t: Tid, pc: PC)
    requires BooksInv(q, w) && t !in q.threads && MayBegin(w, pc)
    ensures BooksInv(Begin(q, t, pc), w)
  {
    var q' := Begin(q, t, pc);
    NewcomerIsOutside(q, t, pc, w);
    forall u | u in q'.threads ensures PcInv(q'.threads[u], q'.destination, q'.mem, w) {
      if u != t { assert PcInv(q.threads[u], q.destination, q.mem, w); }
    }
  }

  lemma NewcomerIsOutside(q: Queue, t: Tid, pc: PC, w: World)
    requires OneWorker(q) && t !in q.threads && MayBegin(w, pc)
    ensures !InLoop(pc) && !HoldsLock(pc)
    ensures OneWorker(Begin(q, t, pc)) && WorkerPc(Begin(q, t, pc)) == WorkerPc(q)
  {
  }

  lemma BeginKeepsThread(threads: map<Tid, PC>, t: Tid, pc: PC, kind: PC -> bool)
    requires t !in threads && SomeThread(threads, kind)
    ensures SomeThread(threads[t := pc], kind)
  {
    var u :| u in threads && kind(threads[u]);
    assert threads[t := pc][u] == threads[u];
  }

  lemma BeginKeepsQueueInv(q: Queue, w: World, t: Tid, pc: PC)
    requires QueueInv(q, w) && t !in q.threads && MayBegin(w, pc)
    ensures QueueInv(Begin(q, t, pc), w)
  {
    BeginKeepsBooks(q, w, t, pc);
    if SomeThread(q.threads, Rescuer) { BeginKeepsThread(q.threads, t, pc, Rescuer); }
    if SomeThread(q.threads, Carrier) { BeginKeepsThread(q.threads, t, pc, Carrier); }
  }

  // --- one action, then every run ----------------------------------------------------------------------

  lemma WorldActionKeeps(s: System, a: Action)
    requires WorldInv(s.world) && Possible(s, a) && !a.Operation?
    ensures WorldInv(Apply(s, a).world) && Evolves(s.world, Apply(s, a).world)
  {
    match a
    case StoreJson(n, b) => RecordKeeps(s.world, n, b);
    case AddPduRows(ds, n) => AssociatePDUKeeps(s.world, ds, n);
    case AddEduRows(ds, n) => AssociateEDUKeeps(s.world, ds, n);
    case Expire(nids) => ExpireEDUsKeeps(s.world, nids);
    case SetBlacklist(listed) => BlacklistKeepsWorld(s.world, listed);
    case ShutDown => ShutdownKeepsWorld(s.world, true);
    case Restart => ShutdownKeepsWorld(s.world, false);
    case _ =>
  }

  lemma ActionKeepsInv(s: System, a: Action)
    requires SystemInv(s) && Possible(s, a)
    ensures SystemInv(Apply(s, a)) && Evolves(s.world, Apply(s, a).world)
  {
    var s' := Apply(s, a);
    if a.Operation? {
      StepKeepsQueueInv(s.queues[a.i], s.world, a.t, a.ch);
    } else {
      WorldActionKeeps(s, a);
    }
    forall j | j in s'.queues ensures QueueInv(s'.queues[j], s'.world) {
      if a.Operation? && j == a.i {
      } else if a.Launch? && j == a.i {
        BeginKeepsQueueInv(s.queues[j], s.world, a.t, a.pc);
      } else if a.Open? && j == a.i {
        NewQueueInv(a.d, s.world);
      } else {
        QueueInvStays(s.queues[j], s.world, s'.world);
      }
    }
  }

  lemma NewQueueInv(d: Server, w: World)
    ensures QueueInv(NewQueue(d), w)
  {
  }

  /** In every run the invariants hold at the end (so, taking prefixes, at every point). */
  lemma {:induction false} EveryRunKeepsInv(s: System, actions: seq<Action>)
    requires SystemInv(s) && IsRun(s, actions)
    ensures SystemInv(After(s, actions)) && Evolves(s.world, After(s, actions).world)
    decreases |actions|
  {
    if actions != [] {
      ActionKeepsInv(s, actions[0]);
      EveryRunKeepsInv(Apply(s, actions[0]), actions[1..]);
    }
  }

  // --- what a reader wants to know ------------------------------------------------------------------------

  /** The state the server starts from: a consistent store, no queues. */
  ghost predicate Fresh(s: System) {
    s.queues == map[] && WorldInv(s.world)
  }

  /**
  No PDU is ever lost. Once a PDU is associated with a destination, after any run, through failures,
  blacklisting, wiped memory and restarts, its row and its JSON are still there for that destination,
  or a transaction carrying its body to that destination was accepted.
  */
  lemma NoPduIsEverLost(s: System, before: seq<Action>, d: Server, n: Nid, later: seq<Action>)
    requires Fresh(s) && IsRun(s, before) && IsRun(After(s, before), later)
    requires (d, n) in After(s, before).world.posted
    ensures var w := After(After(s, before), later).world;
            || ((d, n) in w.pduRows && n in w.blobs)
            || Delivered(w, d, n)
  {
    EveryRunKeepsInv(s, before);
    EveryRunKeepsInv(After(s, before), later);
    var w, r := After(After(s, before), later).world, (d, n);
    assert r in w.posted;
    if r in w.pduRows {
      assert r.1 in w.blobs;
    }
  }

  /** At most one goroutine of a queue is inside the send loop. */
  lemma AtMostOneWorker(s: System, actions: seq<Action>, i: QueueId, t: Tid, u: Tid)
    requires Fresh(s) && IsRun(s, actions) && i in After(s, actions).queues
    requires t in After(s, actions).queues[i].threads && InLoop(After(s, actions).queues[i].threads[t])
    requires u in After(s, actions).queues[i].threads && InLoop(After(s, actions).queues[i].threads[u])
    ensures t == u && After(s, actions).queues[i].sig.running
  {
    EveryRunKeepsInv(s, actions);
    var q := After(s, actions).queues[i];
    assert QueueInv(q, After(s, actions).world);
    assert q.owner == Some(t) && q.owner == Some(u);
  }

  /**
  A token in `notify` is never stranded, except by a worker that closed while its destination was
  blacklisted or by a worker refused because of shutdown.
  */
  lemma NoStrandedToken(s: System, actions: seq<Action>, i: QueueId)
    requires Fresh(s) && IsRun(s, actions) && i in After(s, actions).queues
    ensures TokenIsWatched(After(s, actions).queues[i])
  {
    EveryRunKeepsInv(s, actions);
  }

  /**
  When every goroutine of a queue has finished and nothing unusual happened, pending work means the
  queue is backing off: no token is lost, no work is forgotten.
  */
  lemma QuietQueueIsDoneOrBackingOff(s: System, actions: seq<Action>, i: QueueId)
    requires Fresh(s) && IsRun(s, actions) && i in After(s, actions).queues
    requires var q := After(s, actions).queues[i];
             && (forall t :: t in q.threads ==> q.threads[t].Done?)
             && q.marks == Marks(false, false, false)
    ensures var q := After(s, actions).queues[i];
            !q.sig.notify && !q.sig.running && (HasPending(q.mem) ==> q.sig.backingOff)
  {
    EveryRunKeepsInv(s, actions);
    assert QueueInv(After(s, actions).queues[i], After(s, actions).world);
    QuietQueue(After(s, actions).queues[i]);
  }

  lemma QuietQueue(q: Queue)
    requires OneWorker(q) && TokenIsWatched(q) && !Stranded(q)
    requires !q.marks.leftOnBlacklist && !q.marks.leftOnShutdown
    requires forall t :: t in q.threads ==> q.threads[t].Done?
    ensures !q.sig.notify && !q.sig.running && (HasPending(q.mem) ==> q.sig.backingOff)
  {
    assert q.owner.Some? ==> InLoop(q.threads[q.owner.value]);
  }

  /**
  Items leave in the order in which they entered, each once: what was sent is what was dropped plus
  the batch the worker still holds, and what entered is what was dropped plus what is pending.
  */
  lemma SentInOrderEntered(s: System, actions: seq<Action>, i: QueueId)
    requires Fresh(s) && IsRun(s, actions) && i in After(s, actions).queues
    ensures var mem := After(s, actions).queues[i].mem;
            && mem.pduLog.left <= mem.pduLog.sent <= mem.pduLog.entered
            && mem.eduLog.left <= mem.eduLog.sent <= mem.eduLog.entered
            && mem.pduLog.entered == mem.pduLog.left + mem.pdus
            && mem.eduLog.entered == mem.eduLog.left + mem.edus
  {
    EveryRunKeepsInv(s, actions);
    var q := After(s, actions).queues[i];
    HeldIsPrefix(q, After(s, actions).world);
    LogsInOrder(q.mem.pduLog, q.mem.pdus, HeldPdus(WorkerPc(q)));
    LogsInOrder(q.mem.eduLog, q.mem.edus, HeldEdus(WorkerPc(q)));
  }

  lemma LogsInOrder(log: Log, list: seq<Queued>, held: seq<Queued>)
    requires log.entered == log.left + list && log.sent == log.left + held && held <= list
    ensures log.left <= log.sent <= log.entered
  {
  }

  lemma HeldIsPrefix(q: Queue, w: World)
    requires QueueInv(q, w)
    ensures HeldPdus(WorkerPc(q)) <= q.mem.pdus && HeldEdus(WorkerPc(q)) <= q.mem.edus
    ensures Balanced(q.mem, WorkerPc(q)) && MemoryInv(q.mem, w)
  {
    assert q.owner.Some? ==> PcInv(WorkerPc(q), q.destination, q.mem, w);
  }

  /** Lists stay within 128; all attempts between two successes carry one ID, and only ever grow until a wipe. */
  lemma RetriesKeepTheirId(s: System, actions: seq<Action>, i: QueueId)
    requires Fresh(s) && IsRun(s, actions) && i in After(s, actions).queues
    ensures var mem := After(s, actions).queues[i].mem;
            && |mem.pdus| <= 128 && |mem.edus| <= 128
            && OneId(mem) && Grown(mem)
  {
    EveryRunKeepsInv(s, actions);
    assert QueueInv(After(s, actions).queues[i], After(s, actions).world);
  }

  /** The transaction about to be posted: 1 to 50 PDUs and 100 EDUs at most, from the front of the lists. */
  lemma PostedTransactionShape(s: System, actions: seq<Action>, i: QueueId, t: Tid)
    requires Fresh(s) && IsRun(s, actions) && i in After(s, actions).queues
    requires var q := After(s, actions).queues[i]; t in q.threads && q.threads[t].Post?
    ensures var q := After(s, actions).queues[i]; var b := q.threads[t].batch;
            var txn := TransactionFor(q.mem, q.destination, b);
            && |txn.pdus| <= 50 && |txn.edus| <= 100 && 0 < |txn.pdus| + |txn.edus|
            && b.pdus <= q.mem.pdus && CarriedWhole(b.pdus, txn.pdus, ReceiptList(b.pdus))
            && b.edus <= q.mem.edus && CarriedWhole(b.edus, txn.edus, ReceiptList(b.edus))
            && txn.id != ""
  {
    EveryRunKeepsInv(s, actions);
    var q, w := After(s, actions).queues[i], After(s, actions).world;
    assert QueueInv(q, w) && PcInv(q.threads[t], q.destination, q.mem, w);
    BatchIsFaithful(q.mem, w, q.threads[t].batch);
    PresentIsCarriedWhole(q.threads[t].batch.pdus);
    PresentIsCarriedWhole(q.threads[t].batch.edus);
  }

  lemma AttemptIsExtended(q: Queue, w: World, t: Tid, j: nat)
    requires BooksInv(q, w) && t in q.threads && q.threads[t].Post? && q.mem.stale <= j < |q.mem.tried|
    ensures var first, now := q.mem.tried[j].pdus, q.threads[t].batch.pdus;
            Bodies(first) <= Bodies(now) && (Bodies(first) == Bodies(now) <==> first == now)
  {
    assert PcInv(q.threads[t], q.destination, q.mem, w);
    BatchIsFaithful(q.mem, w, q.threads[t].batch);
    assert Within(q.mem.tried[j], q.threads[t].batch);
    PrefixBodies(q.mem.tried[j].pdus, q.threads[t].batch.pdus);
  }

  /**
  In every run, a transaction about to be posted has the ID of every attempt since the last success. It begins with
  the PDUs of each attempt made since the lists were last wiped, and has the same PDUs exactly when nothing was added
  to its batch. So what a receiver still working on such an attempt acknowledges without reading is what was added.
  */
  lemma RetryAgainstAttempt(s: System, actions: seq<Action>, i: QueueId, t: Tid, j: nat)
    requires Fresh(s) && IsRun(s, actions) && i in After(s, actions).queues
    requires var q := After(s, actions).queues[i];
             t in q.threads && q.threads[t].Post? && j < |q.mem.tried|
    ensures var q := After(s, actions).queues[i];
            var first, now := Bodies(q.mem.tried[j].pdus), Bodies(q.threads[t].batch.pdus);
            && j < |q.mem.attempts|
            && TransactionFor(q.mem, q.destination, q.threads[t].batch).id == q.mem.attempts[j]
            && (q.mem.stale <= j ==> first <= now)
            && (q.mem.stale <= j ==> (first == now <==> q.mem.tried[j].pdus == q.threads[t].batch.pdus))
  {
    EveryRunKeepsInv(s, actions);
    var q, w := After(s, actions).queues[i], After(s, actions).world;
    assert QueueInv(q, w);
    if q.mem.stale <= j {
      AttemptIsExtended(q, w, t, j);
    }
  }

  // --- shutdown ---------------------------------------------------------------------------------------------

  /** Nobody works on the queue, and nobody is past the test for shutdown. */
  ghost predicate AtRest(q: Queue) {
    forall t :: t in q.threads ==> !InLoop(q.threads[t]) && !q.threads[t].Claim?
  }

  lemma RestAfterShutdown(q: Queue, w: World, t: Tid, ch: Choice)
    requires AtRest(q) && w.shutdown && Enabled(q, w, t, ch)
    ensures AtRest(Do(q, w, t, ch))
  {
    LoopBoundary(q.threads[t], q.destination, q.sig, q.mem, w, ch);
  }

  lemma ShutdownStays(s: System, a: Action)
    requires Possible(s, a) && s.world.shutdown && !a.Restart?
    ensures Apply(s, a).world.shutdown
  {
  }

  lemma ActionAfterShutdown(s: System, a: Action, i: QueueId)
    requires Possible(s, a) && s.world.shutdown && (i in s.queues ==> AtRest(s.queues[i]))
    ensures i in Apply(s, a).queues ==> AtRest(Apply(s, a).queues[i])
  {
    if a.Operation? && a.i == i {
      RestAfterShutdown(s.queues[i], s.world, a.t, a.ch);
    }
  }

  /** Once shut down, and until a restart, a queue at rest stays at rest, however many wake-ups it gets. */
  lemma {:induction false} NoWorkAfterShutdown(s: System, actions: seq<Action>, i: QueueId)
    requires IsRun(s, actions) && s.world.shutdown && forall k :: 0 <= k < |actions| ==> !actions[k].Restart?
    requires i in s.queues ==> AtRest(s.queues[i])
    ensures i in After(s, actions).queues ==> AtRest(After(s, actions).queues[i])
    decreases |actions|
  {
    if actions != [] {
      var a := actions[0];
      ShutdownStays(s, a);
      ActionAfterShutdown(s, a, i);
      NoWorkAfterShutdown(Apply(s, a), actions[1..], i);
    }
  }

  // --- the coarser model: waking up in one piece --------------------------------------------------------

  predicate IsAt(s: System, a: Action, pc: PC) {
    a.Operation? && a.i in s.queues && a.t in s.queues[a.i].threads && s.queues[a.i].threads[a.t] == pc
  }

  /** The goroutine that has just put a token in. */
  function JustNotified(s: System, a: Action): Option<(QueueId, Tid)> {
    if IsAt(s, a, WakeNotify) then Some((a.i, a.t)) else None
  }

  /** A wake-up that clears the backoff right after its own token, or finds no backoff, is in one piece. */
  lemma InOnePiece(s: System, i: QueueId, t: Tid, ch: Choice, other: Choice, notified: Option<(QueueId, Tid)>)
    requires IsAt(s, Operation(i, t, ch), WakeNotify) && Possible(s, Operation(i, t, ch))
    requires Possible(Apply(s, Operation(i, t, ch)), Operation(i, t, other))
    ensures IsRun(s, [Operation(i, t, ch), Operation(i, t, other)])
    ensures WakesInOnePiece(s, notified, [Operation(i, t, ch), Operation(i, t, other)])
  {
    var a, b := Operation(i, t, ch), Operation(i, t, other);
    var s' := Apply(s, a);
    assert [a, b][1..] == [b] && [b][1..] == [];
    assert IsRun(Apply(s', b), []) && WakesInOnePiece(Apply(s', b), JustNotified(s', b), []);
    assert IsRun(s', [b]) && WakesInOnePiece(s', Some((i, t)), [b]);
  }

  /** No wake-up that ends a backoff is interrupted between its token and its clearing of `backingOff`. */
  ghost predicate WakesInOnePiece(s: System, notified: Option<(QueueId, Tid)>, actions: seq<Action>)
    requires IsRun(s, actions)
    decreases |actions|
  {
    actions == [] ||
    (var a := actions[0];
     && (IsAt(s, a, WakeClear) && s.queues[a.i].sig.backingOff ==> notified == Some((a.i, a.t)))
     && WakesInOnePiece(Apply(s, a), JustNotified(s, a), actions[1..]))
  }

  ghost predicate NoLateClear(s: System, notified: Option<(QueueId, Tid)>) {
    && (forall i :: i in s.queues ==> !s.queues[i].marks.lateClear)
    && (notified.Some? ==> notified.value.0 in s.queues && s.queues[notified.value.0].sig.notify)
  }

  lemma StepClearsInTime(q: Queue, w: World, t: Tid, ch: Choice)
    requires Enabled(q, w, t, ch) && !q.marks.lateClear
    requires q.threads[t].WakeClear? && q.sig.backingOff ==> q.sig.notify
    ensures !Do(q, w, t, ch).marks.lateClear
    ensures q.threads[t].WakeNotify? ==> Do(q, w, t, ch).sig.notify
  {
  }

  lemma ActionClearsInTime(s: System, notified: Option<(QueueId, Tid)>, a: Action)
    requires Possible(s, a) && NoLateClear(s, notified)
    requires IsAt(s, a, WakeClear) && s.queues[a.i].sig.backingOff ==> notified == Some((a.i, a.t))
    ensures NoLateClear(Apply(s, a), JustNotified(s, a))
  {
    var s' := Apply(s, a);
    if a.Operation? {
      StepClearsInTime(s.queues[a.i], s.world, a.t, a.ch);
    }
    forall i | i in s'.queues ensures !s'.queues[i].marks.lateClear {
      if i in s.queues { assert !s.queues[i].marks.lateClear; }
    }
  }

  lemma {:induction false} RunClearsInTime(s: System, notified: Option<(QueueId, Tid)>, actions: seq<Action>)
    requires IsRun(s, actions) && WakesInOnePiece(s, notified, actions) && NoLateClear(s, notified)
    ensures forall i :: i in After(s, actions).queues ==> !After(s, actions).queues[i].marks.lateClear
    decreases |actions|
  {
    if actions != [] {
      ActionClearsInTime(s, notified, actions[0]);
      RunClearsInTime(Apply(s, actions[0]), JustNotified(s, actions[0]), actions[1..]);
    }
  }

  /**
  If wake-ups run in one piece, work is never stuck: whatever is pending has a token, a backoff timer, or a
  goroutine that holds it or is about to notify for it.
  */
  lemma NoStuckWork(s: System, actions: seq<Action>, i: QueueId)
    requires Fresh(s) && IsRun(s, actions) && WakesInOnePiece(s, None, actions) && i in After(s, actions).queues
    ensures !Stranded(After(s, actions).queues[i])
  {
    EveryRunKeepsInv(s, actions);
    RunClearsInTime(s, None, actions);
    assert QueueInv(After(s, actions).queues[i], After(s, actions).world);
  }
}
