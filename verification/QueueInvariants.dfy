/**
What every atomic step of a destination queue keeps, in every interleaving: who may be in the send
loop, who still watches a token, who still carries pending work.
*/
module QueueInvariants {
  import opened Wrappers
  import opened QueueMemory
  import opened Delivery
  import opened QueueProtocol

  // --- at most one worker ------------------------------------------------------------------

  /** `x` is exactly the goroutine whose program counter satisfies `holds`. */
  ghost predicate HeldBy(threads: map<Tid, PC>, x: Option<Tid>, holds: PC -> bool) {
    && (forall t :: t in threads ==> (holds(threads[t]) <==> x == Some(t)))
    && (x.Some? ==> x.value in threads)
  }

  ghost predicate OneWorker(q: Queue) {
    && q.sig.running == q.owner.Some?
    && HeldBy(q.threads, q.owner, InLoop)
    && HeldBy(q.threads, q.lock, HoldsLock)
  }

  /** Only the compare-and-swap enters the loop, and only clearing `running` leaves it. */
  lemma LoopBoundary(pc: PC, d: Server, sig: Signals, mem: Memory, w: World, ch: Choice)
    ensures InLoop(NextPC(pc, d, sig, mem, w, ch)) <==>
              (InLoop(pc) && !pc.Stop?) || (pc.Claim? && !sig.running)
  {
    if InLoop(pc) {
    } else {
    }
  }

  lemma LockBoundary(pc: PC, d: Server, sig: Signals, mem: Memory, w: World, ch: Choice)
    ensures HoldsLock(NextPC(pc, d, sig, mem, w, ch)) ==> HoldsLock(pc) || TakesLock(pc)
  {
  }

  lemma RunningChanges(pc: PC, sig: Signals, mem: Memory, ch: Choice)
    ensures NextSignals(pc, sig, mem, ch).running ==
              if pc.Claim? then true else if pc.Stop? then false else sig.running
  {
  }

  lemma StepKeepsOneWorker(q: Queue, w: World, t: Tid, ch: Choice)
    requires OneWorker(q) && Enabled(q, w, t, ch)
    ensures OneWorker(Do(q, w, t, ch))
  {
    var pc := q.threads[t];
    LoopBoundary(pc, q.destination, q.sig, q.mem, w, ch);
    LockBoundary(pc, q.destination, q.sig, q.mem, w, ch);
    RunningChanges(pc, q.sig, q.mem, ch);
  }

  // --- the pending mutex ---------------------------------------------------------------------

  /** The goroutine has pendingMutex between two of its steps. */
  ghost predicate MutexIsHeld(q: Queue) {
    exists u :: && u in q.threads
                && (q.threads[u].ScanEdus? || q.threads[u].ScanFlag? || q.threads[u].ScanNotify?
                    || q.threads[u].DropNotify?)
  }

  /** Only an append or a retry ever waits, and for nothing else than a scan or a drop that is under way. */
  lemma HeldUpExactlyWhen(q: Queue, w: World, t: Tid, ch: Choice)
    requires OneWorker(q) && t in q.threads && MayStep(q.threads[t], q.destination, q.sig, w, ch)
    requires q.threads[t] == WakeTest ==> ch.child !in q.threads
    ensures var pc := q.threads[t];
            !Enabled(q, w, t, ch) <==> (pc.SendAppend? || pc.RetryTest?) && MutexIsHeld(q)
  {
    if q.lock.Some? {
      var u := q.lock.value;
      assert HoldsLock(q.threads[u]) && InLoop(q.threads[u]);
      assert InLoop(q.threads[t]) ==> t == u;
    }
  }

  function Unhindered(child: Tid): Choice {
    Choice(None, false, IdleTimeout, "id", child)
  }

  lemma FreshTid(threads: map<Tid, PC>) returns (t: Tid)
    ensures t !in threads
  {
    t := Above(threads.Keys);
  }

  lemma {:induction false} Above(used: set<Tid>) returns (t: Tid)
    ensures forall u :: u in used ==> u < t
    decreases used
  {
    if used == {} {
      t := 0;
    } else {
      var u :| u in used;
      var v := Above(used - {u});
      t := if u < v then v else u + 1;
      forall x | x in used ensures x < t {
        assert x == u || x in used - {u};
      }
    }
  }

  /** The goroutines never block each other for good: as long as one has not finished, some goroutine can step. */
  lemma SomebodyCanStep(q: Queue, w: World)
    requires OneWorker(q) && exists t :: t in q.threads && !q.threads[t].Done?
    ensures exists t, ch :: Enabled(q, w, t, ch)
  {
    var t :| t in q.threads && !q.threads[t].Done?;
    var child := FreshTid(q.threads);
    if q.lock.Some? {
      assert Enabled(q, w, q.lock.value, Unhindered(child));
    } else {
      assert Enabled(q, w, t, Unhindered(child));
    }
  }

  // --- tokens are never stranded -------------------------------------------------------------

  /** A goroutine that will still make sure a worker runs, or look at `notify` itself. */
  predicate Rescuer(pc: PC) {
    IsWaker(pc) || pc.CloseCheck? || pc.CloseTake?
  }

  ghost predicate SomeThread(threads: map<Tid, PC>, kind: PC -> bool) {
    exists t :: t in threads && kind(threads[t])
  }

  ghost predicate TokenIsWatched(q: Queue) {
    q.sig.notify ==>
      || q.sig.running
      || q.marks.leftOnBlacklist || q.marks.leftOnShutdown
      || SomeThread(q.threads, Rescuer)
  }

  /** Where a token may come from, and how a rescuer may stop being one. */
  lemma RescuerMovesOn(pc: PC, d: Server, sig: Signals, mem: Memory, marks: Marks, w: World, ch: Choice)
    requires Rescuer(pc) && !Rescuer(NextPC(pc, d, sig, mem, w, ch))
    ensures var sig' := NextSignals(pc, sig, mem, ch); var marks' := NextMarks(pc, d, sig, mem, marks, w);
            sig'.running || Spawns(pc, sig) || !sig'.notify || marks'.leftOnBlacklist || marks'.leftOnShutdown
  {
  }

  lemma TokenComesFrom(pc: PC, d: Server, sig: Signals, mem: Memory, w: World, ch: Choice)
    requires NextSignals(pc, sig, mem, ch).notify && !sig.notify
    ensures (InLoop(pc) && !pc.Stop?) || Rescuer(NextPC(pc, d, sig, mem, w, ch))
  {
  }

  lemma MarksOnlyGrow(pc: PC, d: Server, sig: Signals, mem: Memory, marks: Marks, w: World)
    ensures var m := NextMarks(pc, d, sig, mem, marks, w);
            && (marks.leftOnBlacklist ==> m.leftOnBlacklist)
            && (marks.leftOnShutdown ==> m.leftOnShutdown)
            && (marks.lateClear ==> m.lateClear)
  {
  }

  lemma StepKeepsTokenWatched(q: Queue, w: World, t: Tid, ch: Choice)
    requires OneWorker(q) && TokenIsWatched(q) && Enabled(q, w, t, ch)
    ensures TokenIsWatched(Do(q, w, t, ch))
  {
    var pc, q' := q.threads[t], Do(q, w, t, ch);
    RunningChanges(pc, q.sig, q.mem, ch);
    MarksOnlyGrow(pc, q.destination, q.sig, q.mem, q.marks, w);
    if q'.sig.notify && !q'.sig.running && !q'.marks.leftOnBlacklist && !q'.marks.leftOnShutdown {
      if Rescuer(q'.threads[t]) {
      } else if Rescuer(pc) {
        RescuerMovesOn(pc, q.destination, q.sig, q.mem, q.marks, w, ch);
        assert Rescuer(q'.threads[ch.child]);
      } else {
        if !q.sig.notify { TokenComesFrom(pc, q.destination, q.sig, q.mem, w, ch); }
        var u :| u in q.threads && Rescuer(q.threads[u]);
        assert q'.threads[u] == q.threads[u];
      }
    }
  }

  // --- pending work is never stuck --------------------------------------------------------------

  /** A goroutine that holds the work, or is about to notify for it. */
  predicate Carrier(pc: PC) {
    || pc.SendTest? || pc.WakeNotify?
    || (pc.ScanEdus? && pc.retrieved) || (pc.ScanFlag? && pc.retrieved) || (pc.ScanNotify? && pc.retrieved)
    || IsSend(pc) || (IsFinish(pc) && !pc.Stop?)
  }

  /** Pending work that no token, no backoff and no goroutine accounts for. */
  ghost predicate Stranded(q: Queue) {
    HasPending(q.mem) && !q.sig.notify && !q.sig.backingOff && !SomeThread(q.threads, Carrier)
  }

  /** A carrier hands over: to the channel, to the backoff flag, or by leaving nothing pending. */
  lemma CarrierHandsOver(pc: PC, d: Server, sig: Signals, mem: Memory, w: World, ch: Choice)
    requires Carrier(pc) && !Carrier(NextPC(pc, d, sig, mem, w, ch)) && HasPending(NextMemory(pc, mem, ch))
    ensures NextSignals(pc, sig, mem, ch).notify || NextSignals(pc, sig, mem, ch).backingOff
  {
  }

  /** Work appears only in the hands of a carrier. */
  lemma WorkComesWithCarrier(pc: PC, d: Server, sig: Signals, mem: Memory, w: World, ch: Choice)
    requires HasPending(NextMemory(pc, mem, ch)) && !HasPending(mem)
    ensures Carrier(NextPC(pc, d, sig, mem, w, ch))
  {
  }

  lemma SignalsFade(pc: PC, d: Server, sig: Signals, mem: Memory, w: World, ch: Choice)
    ensures sig.notify && !NextSignals(pc, sig, mem, ch).notify ==>
              Carrier(NextPC(pc, d, sig, mem, w, ch)) || (pc.CloseTake? && sig.notify)
    ensures sig.backingOff && !NextSignals(pc, sig, mem, ch).backingOff ==> pc.WakeClear?
  {
  }

  /** Exactly one kind of step strands work: a waker that clears `backingOff` after its token was used up. */
  lemma StepStrandsExactlyWhen(q: Queue, w: World, t: Tid, ch: Choice)
    requires !Stranded(q) && Enabled(q, w, t, ch)
    ensures Stranded(Do(q, w, t, ch)) <==>
              ClearsLate(q.threads[t], q.sig, q.mem) && !SomeThread(q.threads, Carrier)
  {
    var pc, q' := q.threads[t], Do(q, w, t, ch);
    SignalsFade(pc, q.destination, q.sig, q.mem, w, ch);
    if Stranded(q') {
      assert !Carrier(q'.threads[t]);
      if !HasPending(q.mem) { WorkComesWithCarrier(pc, q.destination, q.sig, q.mem, w, ch); }
      if Carrier(pc) { CarrierHandsOver(pc, q.destination, q.sig, q.mem, w, ch); }
      forall u | u in q.threads ensures !Carrier(q.threads[u]) {
        if u != t { assert q'.threads[u] == q.threads[u]; }
      }
    }
    if ClearsLate(pc, q.sig, q.mem) && !SomeThread(q.threads, Carrier) {
      forall u | u in q'.threads ensures !Carrier(q'.threads[u]) {
        if u != t { assert q'.threads[u] == q.threads[u]; }
      }
    }
  }

  /** A scan step that brings something new into memory. */
  predicate Retrieves(pc: PC, mem: Memory, ch: Choice) {
    (pc.ScanPdus? && TopUp(mem.pdus, ch.answer) != mem.pdus) || (pc.ScanEdus? && TopUp(mem.edus, ch.answer) != mem.edus)
  }

  lemma WhoPicksUpWork(pc: PC, d: Server, sig: Signals, mem: Memory, w: World, ch: Choice)
    requires !Carrier(pc) && !sig.notify && !sig.backingOff && HasPending(mem) && MayStep(pc, d, sig, w, ch)
    ensures Carrier(NextPC(pc, d, sig, mem, w, ch)) <==> pc.SendAppend? || pc.RetryTest? || Retrieves(pc, mem, ch)
    ensures !NextSignals(pc, sig, mem, ch).notify && !NextSignals(pc, sig, mem, ch).backingOff
    ensures HasPending(NextMemory(pc, mem, ch))
  {
    if pc.ScanPdus? { TopUpNeverEmpties(mem.pdus, ch.answer); }
    if pc.ScanEdus? { TopUpNeverEmpties(mem.edus, ch.answer); }
  }

  lemma TopUpNeverEmpties(list: seq<Queued>, answer: Option<seq<Queued>>)
    ensures list != [] ==> TopUp(list, answer) != []
  {
    if |list| < MAX_IN_MEMORY { TopUpExtends(list, answer); }
  }

  /**
  Stranded work stays stranded until a new item is sent, a retry is asked for, or a scan finds something
  new. In particular the backoff timer does not help: its callback finds `backingOff` already clear.
  */
  lemma StrandedUntil(q: Queue, w: World, t: Tid, ch: Choice)
    requires Stranded(q) && Enabled(q, w, t, ch)
    ensures !Stranded(Do(q, w, t, ch)) <==>
              q.threads[t].SendAppend? || q.threads[t].RetryTest? || Retrieves(q.threads[t], q.mem, ch)
  {
    var pc, q' := q.threads[t], Do(q, w, t, ch);
    assert !Carrier(pc);
    WhoPicksUpWork(pc, q.destination, q.sig, q.mem, w, ch);
    if !Carrier(q'.threads[t]) {
      forall u | u in q'.threads ensures !Carrier(q'.threads[u]) {
        if u in q.threads && u != t && !(Spawns(pc, q.sig) && u == ch.child) {
          assert q'.threads[u] == q.threads[u];
        }
      }
    }
  }
}
