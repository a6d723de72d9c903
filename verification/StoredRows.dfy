/**
Stored rows and the memory of a queue: which rows a worker that sees no reason for another scan can rely on having.
*/
module StoredRows {
  import opened Wrappers
  import opened QueueMemory
  import opened Delivery
  import opened QueueProtocol
  import opened QueueInvariants
  import opened QueueBooks
  import opened QueueSystem

  /** A sender that is about to append this row's event. */
  predicate Brings(pc: PC, n: Nid) {
    (pc.SendCheck? || pc.SendAppend?) && !pc.edu && pc.item.body.Some? && pc.item.receipt == n
  }

  ghost predicate IsBrought(q: Queue, n: Nid) {
    exists t :: t in q.threads && Brings(q.threads[t], n)
  }

  /** `owed` are rows whose event has not been handed to the queue yet. */
  ghost predicate Accounted(q: Queue, w: World, owed: set<Nid>, n: Nid) {
    n in Receipts(q.mem.pdus) || IsBrought(q, n) || n in owed || Delivered(w, q.destination, n)
  }

  ghost predicate Covered(q: Queue, w: World, owed: set<Nid>) {
    forall n :: (q.destination, n) in w.pduRows ==> Accounted(q, w, owed, n)
  }

  /** The goroutine takes memory for complete: `overflowed` is clear, or about to be cleared. */
  predicate TrustsMemory(pc: PC, sig: Signals) {
    || (InLoop(pc) && !pc.Mark? && !pc.Stop? && !sig.overflowed)
    || ((pc.ScanEdus? || pc.ScanFlag?) && !pc.full)
  }

  ghost predicate SomebodyTrusts(q: Queue) {
    exists t :: t in q.threads && TrustsMemory(q.threads[t], q.sig)
  }

  ghost predicate CoverageInv(q: Queue, w: World, owed: set<Nid>) {
    SomebodyTrusts(q) ==> Covered(q, w, owed)
  }

  /**
  What makes the trust justified: a scan whose answer is not full finds memory complete, or a successful query and room
  for what is missing; and no event is turned away because the destination is on the blacklist.
  */
  ghost predicate Careful(q: Queue, w: World, t: Tid, ch: Choice)
    requires t in q.threads
  {
    var pc, stored := q.threads[t], StoredFor(w, w.pduRows, q.destination).Keys;
    && (pc.ScanPdus? && !AnswerIsFull(q.mem.pdus, ch.answer) ==>
          stored <= Receipts(q.mem.pdus) || (ch.answer.Some? && HasRoomFor(q.mem.pdus, stored)))
    && (pc.SendCheck? && !pc.edu && pc.item.body.Some? ==> q.destination !in w.blacklisted)
  }

  // --- one operation -------------------------------------------------------------------------------------------

  lemma TrustComesFrom(pc: PC, d: Server, sig: Signals, mem: Memory, w: World, ch: Choice)
    requires !pc.ScanPdus? && TrustsMemory(NextPC(pc, d, sig, mem, w, ch), NextSignals(pc, sig, mem, ch))
    ensures TrustsMemory(pc, sig)
  {
  }

  lemma OverflowedChanges(pc: PC, sig: Signals, mem: Memory, ch: Choice)
    requires sig.overflowed && !NextSignals(pc, sig, mem, ch).overflowed
    ensures pc.ScanFlag? && !pc.full
  {
  }

  /** Trust is only ever established by a scan. */
  lemma OperationTrusts(q: Queue, w: World, t: Tid, ch: Choice)
    requires OneWorker(q) && Enabled(q, w, t, ch) && SomebodyTrusts(Do(q, w, t, ch))
    ensures SomebodyTrusts(q) || TrustsMemory(Do(q, w, t, ch).threads[t], Do(q, w, t, ch).sig)
    ensures !q.threads[t].ScanPdus? ==> SomebodyTrusts(q)
  {
    var pc, q' := q.threads[t], Do(q, w, t, ch);
    var u :| u in q'.threads && TrustsMemory(q'.threads[u], q'.sig);
    if u == t {
      if !pc.ScanPdus? {
        TrustComesFrom(pc, q.destination, q.sig, q.mem, w, ch);
      }
    } else {
      assert u in q.threads && q'.threads[u] == q.threads[u];
      if q.sig.overflowed && !q'.sig.overflowed {
        OverflowedChanges(pc, q.sig, q.mem, ch);
      }
      assert TrustsMemory(q.threads[u], q.sig);
    }
  }

  lemma RowsAreStored(w: World, d: Server, n: Nid)
    requires WorldInv(w) && (d, n) in w.pduRows
    ensures n in StoredFor(w, w.pduRows, d).Keys
  {
    var r := (d, n);
    assert r in w.pduRows && r.0 == d && r.1 == n;
    assert r.1 in w.blobs;
  }

  lemma ScanCovers(q: Queue, w: World, t: Tid, ch: Choice, owed: set<Nid>)
    requires BooksInv(q, w) && WorldInv(w) && Enabled(q, w, t, ch) && Careful(q, w, t, ch)
    requires q.threads[t].ScanPdus? && !AnswerIsFull(q.mem.pdus, ch.answer)
    ensures Covered(Do(q, w, t, ch), WorldAfter(q, w, t, ch), owed)
  {
    TopUpCompleteness(q.mem.pdus, ch.answer, StoredFor(w, w.pduRows, q.destination));
    forall n | (q.destination, n) in w.pduRows ensures n in Receipts(TopUp(q.mem.pdus, ch.answer)) {
      RowsAreStored(w, q.destination, n);
    }
  }

  lemma PrefixReceipts(a: seq<Queued>, b: seq<Queued>)
    requires a <= b
    ensures Receipts(a) <= Receipts(b)
  {
    assert b == a + b[|a|..];
    ReceiptsAppend(a, b[|a|..]);
  }

  /** An item leaves memory only when it is delivered, or when the lists are wiped. */
  lemma MemoryKeeps(pc: PC, d: Server, mem: Memory, w: World, ch: Choice, n: Nid)
    requires MemoryInv(mem, w) && PcInv(pc, d, mem, w) && !pc.Wipe? && n in Receipts(mem.pdus)
    ensures n in Receipts(NextMemory(pc, mem, ch).pdus) || Delivered(w, d, n)
  {
    if pc.Drop? {
      DropIsExact(mem, w, pc.batch, ch);
      ReceiptsAppend(pc.batch.pdus, NextMemory(pc, mem, ch).pdus);
    } else if pc.ScanPdus? {
      TopUpExtends(mem.pdus, ch.answer);
      PrefixReceipts(mem.pdus, TopUp(mem.pdus, ch.answer));
    } else {
      PrefixReceipts(mem.pdus, NextMemory(pc, mem, ch).pdus);
    }
  }

  /** A sender that is not turned away appends its event, or finds the list full. */
  lemma SenderDelivers(q: Queue, w: World, t: Tid, ch: Choice, n: Nid)
    requires Enabled(q, w, t, ch) && Careful(q, w, t, ch) && Brings(q.threads[t], n)
    ensures var q' := Do(q, w, t, ch);
            || Brings(q'.threads[t], n) || n in Receipts(q'.mem.pdus)
            || (q'.sig.overflowed && q.lock.None? && !HoldsLock(q'.threads[t]))
  {
    var pc := q.threads[t];
    if pc.SendAppend? && HasRoom(q.mem, false) {
      ReceiptsAppend(q.mem.pdus, [pc.item]);
      assert [pc.item][0].receipt in Receipts([pc.item]);
    }
  }

  /** While somebody trusts memory nobody wipes it, and nobody finds the list full. */
  lemma TrustProtects(q: Queue, w: World, t: Tid, ch: Choice)
    requires OneWorker(q) && Enabled(q, w, t, ch) && OneWorker(Do(q, w, t, ch)) && SomebodyTrusts(Do(q, w, t, ch))
    ensures !q.threads[t].Wipe?
    ensures q.lock.None? && !HoldsLock(Do(q, w, t, ch).threads[t]) ==> !Do(q, w, t, ch).sig.overflowed
  {
    var q' := Do(q, w, t, ch);
    var u :| u in q'.threads && TrustsMemory(q'.threads[u], q'.sig);
    assert InLoop(q'.threads[u]);
    if u != t {
      assert u in q.threads && q'.threads[u] == q.threads[u];
    }
  }

  lemma BroughtStays(q: Queue, w: World, t: Tid, ch: Choice, n: Nid)
    requires Enabled(q, w, t, ch) && Careful(q, w, t, ch) && IsBrought(q, n)
    ensures var q' := Do(q, w, t, ch);
            || IsBrought(q', n) || n in Receipts(q'.mem.pdus)
            || (q'.sig.overflowed && q.lock.None? && !HoldsLock(q'.threads[t]))
  {
    var q' := Do(q, w, t, ch);
    var u :| u in q.threads && Brings(q.threads[u], n);
    if u == t {
      SenderDelivers(q, w, t, ch, n);
    } else {
      assert q'.threads[u] == q.threads[u];
    }
  }

  lemma AccountStays(q: Queue, w: World, t: Tid, ch: Choice, owed: set<Nid>, n: Nid)
    requires BooksInv(q, w) && WorldInv(w) && Enabled(q, w, t, ch) && Careful(q, w, t, ch)
    requires OneWorker(Do(q, w, t, ch)) && Evolves(w, WorldAfter(q, w, t, ch)) && SomebodyTrusts(Do(q, w, t, ch))
    requires Accounted(q, w, owed, n)
    ensures Accounted(Do(q, w, t, ch), WorldAfter(q, w, t, ch), owed, n)
  {
    TrustProtects(q, w, t, ch);
    if n in Receipts(q.mem.pdus) {
      MemoryKeeps(q.threads[t], q.destination, q.mem, w, ch, n);
    } else if IsBrought(q, n) {
      BroughtStays(q, w, t, ch, n);
    }
    if Delivered(w, q.destination, n) {
      DeliveredStays(w, WorldAfter(q, w, t, ch), q.destination, n);
    }
  }

  lemma RowsOnlyGo(pc: PC, d: Server, mem: Memory, w: World, ch: Choice)
    ensures NextWorld(pc, d, mem, w, ch).pduRows <= w.pduRows
  {
  }

  lemma OperationKeepsCoverage(q: Queue, w: World, t: Tid, ch: Choice, owed: set<Nid>)
    requires BooksInv(q, w) && WorldInv(w) && Enabled(q, w, t, ch) && Careful(q, w, t, ch)
    requires CoverageInv(q, w, owed)
    ensures CoverageInv(Do(q, w, t, ch), WorldAfter(q, w, t, ch), owed)
  {
    var pc, q', w' := q.threads[t], Do(q, w, t, ch), WorldAfter(q, w, t, ch);
    if SomebodyTrusts(q') {
      OperationTrusts(q, w, t, ch);
      if pc.ScanPdus? && !AnswerIsFull(q.mem.pdus, ch.answer) {
        ScanCovers(q, w, t, ch, owed);
      } else {
        FullScanTrusts(q, w, t, ch);
        StepKeepsBooks(q, w, t, ch);
        RowsOnlyGo(pc, q.destination, q.mem, w, ch);
        forall n | (q'.destination, n) in w'.pduRows ensures Accounted(q', w', owed, n) {
          AccountStays(q, w, t, ch, owed, n);
        }
      }
    }
  }

  /** A scan with a full answer is no reason for trust. */
  lemma FullScanTrusts(q: Queue, w: World, t: Tid, ch: Choice)
    requires OneWorker(q) && Enabled(q, w, t, ch) && SomebodyTrusts(Do(q, w, t, ch))
    requires !q.threads[t].ScanPdus? || AnswerIsFull(q.mem.pdus, ch.answer)
    ensures SomebodyTrusts(q)
  {
    OperationTrusts(q, w, t, ch);
    if q.threads[t].ScanPdus? && TrustsMemory(Do(q, w, t, ch).threads[t], Do(q, w, t, ch).sig) {
      assert TrustsMemory(q.threads[t], q.sig);
    }
  }

  // --- actions and runs ------------------------------------------------------------------------------------------

  /** Rows associated with the queue's destination, less those whose event has been handed to the queue. */
  function Owed(s: System, owed: set<Nid>, a: Action, i: QueueId): set<Nid> {
    match a
    case AddPduRows(ds, n) => if i in s.queues && s.queues[i].destination in ds then owed + {n} else owed
    case Launch(j, _, pc) =>
      if j == i && pc.SendCheck? && !pc.edu && pc.item.body.Some? then owed - {pc.item.receipt} else owed
    case Open(j, _) => if j == i then {} else owed
    case Restart => {}
    case _ => owed
  }

  /** A row becomes owed by being associated, and stops by its event being handed over, or with the queue. */
  lemma OwedExactly(s: System, owed: set<Nid>, a: Action, i: QueueId, n: Nid)
    ensures n in Owed(s, owed, a, i) <==>
              || (a.AddPduRows? && a.n == n && i in s.queues && s.queues[i].destination in a.ds)
              || (&& n in owed && a != Restart && !(a.Open? && a.i == i)
                  && !(a.Launch? && a.i == i && a.pc.SendCheck? && !a.pc.edu
                       && a.pc.item == Queued(n, a.pc.item.body) && a.pc.item.body.Some?))
  {
  }

  ghost function OwedAfter(s: System, owed: set<Nid>, actions: seq<Action>, i: QueueId): set<Nid>
    requires IsRun(s, actions)
    decreases |actions|
  {
    if actions == [] then owed else OwedAfter(Apply(s, actions[0]), Owed(s, owed, actions[0], i), actions[1..], i)
  }

  /** In this run every operation of queue `i` is careful. */
  ghost predicate CarefulRun(s: System, actions: seq<Action>, i: QueueId)
    requires IsRun(s, actions)
    decreases |actions|
  {
    actions == [] ||
    (var a := actions[0];
     && (a.Operation? && a.i == i ==> Careful(s.queues[i], s.world, a.t, a.ch))
     && CarefulRun(Apply(s, a), actions[1..], i))
  }

  lemma NewQueueTrustsNothing(d: Server, w: World, owed: set<Nid>)
    ensures CoverageInv(NewQueue(d), w, owed)
  {
  }

  lemma BeginKeepsCoverage(q: Queue, w: World, t: Tid, pc: PC, owed: set<Nid>, owed': set<Nid>)
    requires CoverageInv(q, w, owed) && t !in q.threads && MayBegin(w, pc)
    requires forall n :: n in owed - owed' ==> Brings(pc, n)
    ensures CoverageInv(Begin(q, t, pc), w, owed')
  {
    var q' := Begin(q, t, pc);
    if SomebodyTrusts(q') {
      var u :| u in q'.threads && TrustsMemory(q'.threads[u], q'.sig);
      assert u != t && TrustsMemory(q.threads[u], q.sig);
      forall n | (q.destination, n) in w.pduRows ensures Accounted(q', w, owed', n) {
        assert Accounted(q, w, owed, n);
        if IsBrought(q, n) {
          var v :| v in q.threads && Brings(q.threads[v], n);
          assert q'.threads[v] == q.threads[v];
        } else if n in owed - owed' {
          assert Brings(q'.threads[t], n);
        }
      }
    }
  }

  /** What happens elsewhere: rows of the destination that are added are owed. */
  lemma OthersKeepCoverage(q: Queue, w: World, w': World, owed: set<Nid>, owed': set<Nid>)
    requires CoverageInv(q, w, owed) && Evolves(w, w') && owed <= owed'
    requires forall n :: (q.destination, n) in w'.pduRows - w.pduRows ==> n in owed'
    ensures CoverageInv(q, w', owed')
  {
    if SomebodyTrusts(q) {
      forall n | (q.destination, n) in w'.pduRows ensures Accounted(q, w', owed', n) {
        if (q.destination, n) in w.pduRows {
          assert Accounted(q, w, owed, n);
          if Delivered(w, q.destination, n) {
            DeliveredStays(w, w', q.destination, n);
          }
        } else {
          assert (q.destination, n) in w'.pduRows - w.pduRows;
        }
      }
    }
  }

  predicate IsElsewhere(a: Action, i: QueueId) {
    !a.Restart? && !((a.Operation? || a.Launch? || a.Open?) && a.i == i)
  }

  lemma NewRows(s: System, a: Action, i: QueueId, owed: set<Nid>)
    requires Possible(s, a) && i in s.queues && IsElsewhere(a, i)
    ensures owed <= Owed(s, owed, a, i)
    ensures forall n :: (s.queues[i].destination, n) in Apply(s, a).world.pduRows - s.world.pduRows ==>
              n in Owed(s, owed, a, i)
  {
    if a.Operation? {
      var q := s.queues[a.i];
      RowsOnlyGo(q.threads[a.t], q.destination, q.mem, s.world, a.ch);
    }
  }

  lemma QueueRests(s: System, a: Action, i: QueueId)
    requires SystemInv(s) && Possible(s, a) && i in s.queues && IsElsewhere(a, i)
    ensures i in Apply(s, a).queues && Apply(s, a).queues[i] == s.queues[i] && Evolves(s.world, Apply(s, a).world)
  {
    ActionKeepsInv(s, a);
  }

  lemma ElsewhereKeepsCoverage(s: System, owed: set<Nid>, a: Action, i: QueueId)
    requires SystemInv(s) && Possible(s, a) && i in s.queues && CoverageInv(s.queues[i], s.world, owed)
    requires IsElsewhere(a, i)
    ensures i in Apply(s, a).queues && CoverageInv(Apply(s, a).queues[i], Apply(s, a).world, Owed(s, owed, a, i))
  {
    QueueRests(s, a, i);
    NewRows(s, a, i, owed);
    OthersKeepCoverage(s.queues[i], s.world, Apply(s, a).world, owed, Owed(s, owed, a, i));
  }

  lemma HereKeepsCoverage(s: System, owed: set<Nid>, a: Action, i: QueueId)
    requires SystemInv(s) && Possible(s, a) && i in s.queues && CoverageInv(s.queues[i], s.world, owed)
    requires (a.Operation? && a.i == i && Careful(s.queues[i], s.world, a.t, a.ch)) || (a.Launch? && a.i == i)
    ensures i in Apply(s, a).queues && CoverageInv(Apply(s, a).queues[i], Apply(s, a).world, Owed(s, owed, a, i))
  {
    if a.Operation? {
      OperationKeepsCoverage(s.queues[i], s.world, a.t, a.ch, owed);
    } else {
      BeginKeepsCoverage(s.queues[i], s.world, a.t, a.pc, owed, Owed(s, owed, a, i));
    }
  }

  lemma ActionKeepsCoverage(s: System, owed: set<Nid>, a: Action, i: QueueId)
    requires SystemInv(s) && Possible(s, a) && (a.Operation? && a.i == i ==> Careful(s.queues[i], s.world, a.t, a.ch))
    requires i in s.queues ==> CoverageInv(s.queues[i], s.world, owed)
    ensures i in Apply(s, a).queues ==> CoverageInv(Apply(s, a).queues[i], Apply(s, a).world, Owed(s, owed, a, i))
  {
    if i in Apply(s, a).queues {
      if a.Open? && a.i == i {
        NewQueueTrustsNothing(a.d, s.world, {});
      } else if (a.Operation? || a.Launch?) && a.i == i {
        HereKeepsCoverage(s, owed, a, i);
      } else {
        ElsewhereKeepsCoverage(s, owed, a, i);
      }
    }
  }

  lemma {:induction false} RunKeepsCoverage(s: System, owed: set<Nid>, actions: seq<Action>, i: QueueId)
    requires SystemInv(s) && IsRun(s, actions) && CarefulRun(s, actions, i)
    requires i in s.queues ==> CoverageInv(s.queues[i], s.world, owed)
    ensures var end := After(s, actions);
            i in end.queues ==> CoverageInv(end.queues[i], end.world, OwedAfter(s, owed, actions, i))
    decreases |actions|
  {
    if actions != [] {
      ActionKeepsCoverage(s, owed, actions[0], i);
      ActionKeepsInv(s, actions[0]);
      RunKeepsCoverage(Apply(s, actions[0]), Owed(s, owed, actions[0], i), actions[1..], i);
    }
  }

  /**
  In every run with careful scans, no stored row is forgotten. When the worker waits and `overflowed` is clear, each PDU
  row of the destination is in memory, or a sender is about to append it, or it has not been handed to the queue yet,
  or it was delivered (and its clean-up failed).
  */
  lemma NoRowIsForgotten(s: System, actions: seq<Action>, i: QueueId, t: Tid, n: Nid)
    requires Fresh(s) && IsRun(s, actions) && CarefulRun(s, actions, i) && i in After(s, actions).queues
    requires var q := After(s, actions).queues[i];
             && t in q.threads && q.threads[t].Wait? && !q.sig.overflowed
             && (q.destination, n) in After(s, actions).world.pduRows
    ensures var q, w := After(s, actions).queues[i], After(s, actions).world;
            n in Receipts(q.mem.pdus) || IsBrought(q, n) || n in OwedAfter(s, {}, actions, i)
            || Delivered(w, q.destination, n)
  {
    RunKeepsCoverage(s, {}, actions, i);
    var q, w := After(s, actions).queues[i], After(s, actions).world;
    assert TrustsMemory(q.threads[t], q.sig);
    assert Accounted(q, w, OwedAfter(s, {}, actions, i), n);
  }
}
