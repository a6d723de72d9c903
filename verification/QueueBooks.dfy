/**
The contents of a destination queue in every interleaving: lists within bounds, a batch that stays a
prefix of the list until it is dropped, one transaction ID between two successes, logs that balance.
*/
module QueueBooks {
  import opened Wrappers
  import opened QueueMemory
  import opened Delivery
  import opened QueueProtocol
  import opened QueueInvariants

  predicate HasBatch(pc: PC) {
    pc.Build? || pc.Post? || Settled(pc)
  }

  /** The transaction was accepted and its items are not dropped from memory yet. */
  predicate Settled(pc: PC) {
    pc.CleanPdus? || pc.CleanEdus? || pc.ResetId? || pc.Succeed? || pc.Drop?
  }

  /** One in-memory list: bounded, true to the database, and in the order in which items entered. */
  predicate ListInv(list: seq<Queued>, log: Log, edu: bool, w: World) {
    |list| <= MAX_IN_MEMORY && AllFaithful(w, edu, list) && log.entered == log.left + list
  }

  ghost predicate MemoryInv(mem: Memory, w: World) {
    && ListInv(mem.pdus, mem.pduLog, false, w)
    && ListInv(mem.edus, mem.eduLog, true, w)
    && OneId(mem)
    && Grown(mem)
  }

  /** Every attempt since the last success carried the ID that is still stored. */
  predicate OneId(mem: Memory) {
    AllCarry(mem.attempts, mem.transactionID)
  }

  predicate AllCarry(attempts: seq<string>, id: string) {
    forall i :: 0 <= i < |attempts| ==> attempts[i] == id && id != ""
  }

  predicate Within(a: Batch, b: Batch) {
    a.pdus <= b.pdus && a.edus <= b.edus
  }

  /**
  Retries never drop or reorder what an earlier attempt carried, and may only add to its end; but an attempt made
  before the lists were wiped is no longer a model for the next one, although that one has the same ID.
  */
  predicate Grown(mem: Memory) {
    && mem.stale <= |mem.tried| == |mem.attempts|
    && (forall i :: 0 <= i < |mem.tried| ==> Sized(mem.tried[i]))
    && (forall i, j :: mem.stale <= i < j < |mem.tried| ==> Within(mem.tried[i], mem.tried[j]))
    && (forall i :: mem.stale <= i < |mem.tried| ==> Within(mem.tried[i], Batch(mem.pdus, mem.edus)))
  }

  predicate Sized(b: Batch) {
    |b.pdus| <= MAX_PDUS_PER_TRANSACTION && |b.edus| <= MAX_EDUS_PER_TRANSACTION && (b.pdus != [] || b.edus != [])
  }

  predicate ExtendsTried(b: Batch, mem: Memory) {
    forall i :: mem.stale <= i < |mem.tried| ==> Within(mem.tried[i], b)
  }

  /** What a goroutine's local variables promise. */
  ghost predicate PcInv(pc: PC, d: Server, mem: Memory, w: World) {
    && (pc.SendCheck? && pc.item.body.Some? ==> Faithful(w, pc.edu, pc.item))
    && (pc.SendAppend? ==> Faithful(w, pc.edu, pc.item))
    && (HasBatch(pc) ==> Sized(pc.batch) && Within(pc.batch, Batch(mem.pdus, mem.edus)))
    && (pc.Build? || pc.Post? ==> ExtendsTried(pc.batch, mem))
    && (pc.Post? ==> mem.transactionID != "")
    && (pc.Succeed? || pc.Drop? ==> mem.tried == [])
    && (Settled(pc) ==> forall n :: n in Receipts(pc.batch.pdus) ==> Delivered(w, d, n))
  }

  function HeldPdus(pc: PC): seq<Queued> {
    if Settled(pc) then pc.batch.pdus else []
  }

  function HeldEdus(pc: PC): seq<Queued> {
    if Settled(pc) then pc.batch.edus else []
  }

  /** Items sent are the items dropped, then the ones the worker is about to drop. */
  ghost predicate Balanced(mem: Memory, pc: PC) {
    mem.pduLog.sent == mem.pduLog.left + HeldPdus(pc) && mem.eduLog.sent == mem.eduLog.left + HeldEdus(pc)
  }

  function WorkerPc(q: Queue): PC {
    if q.owner.Some? && q.owner.value in q.threads then q.threads[q.owner.value] else Done
  }

  ghost predicate BooksInv(q: Queue, w: World) {
    && OneWorker(q)
    && MemoryInv(q.mem, w)
    && (forall t :: t in q.threads ==> PcInv(q.threads[t], q.destination, q.mem, w))
    && Balanced(q.mem, WorkerPc(q))
  }

  // --- what everyone but the worker does: append ------------------------------------------------

  predicate SameAttempts(mem: Memory, mem': Memory) {
    && mem'.transactionID == mem.transactionID && mem'.attempts == mem.attempts
    && mem'.tried == mem.tried && mem'.stale == mem.stale
  }

  predicate Appends(mem: Memory, mem': Memory) {
    && mem.pdus <= mem'.pdus && mem.edus <= mem'.edus
    && SameAttempts(mem, mem')
    && mem'.pduLog.left == mem.pduLog.left && mem'.eduLog.left == mem.eduLog.left
    && mem'.pduLog.sent == mem.pduLog.sent && mem'.eduLog.sent == mem.eduLog.sent
  }

  lemma OthersAppend(pc: PC, mem: Memory, ch: Choice)
    requires !InLoop(pc)
    ensures Appends(mem, NextMemory(pc, mem, ch))
  {
  }

  lemma FaithfulStays(w: World, w': World, edu: bool, items: seq<Queued>)
    requires Evolves(w, w') && AllFaithful(w, edu, items)
    ensures AllFaithful(w', edu, items)
  {
  }

  lemma PcInvStays(pc: PC, d: Server, mem: Memory, w: World, mem': Memory, w': World)
    requires PcInv(pc, d, mem, w) && Evolves(w, w')
    requires !InLoop(pc) || Appends(mem, mem')
    ensures PcInv(pc, d, mem', w')
  {
    if Settled(pc) {
      forall n | n in Receipts(pc.batch.pdus) ensures Delivered(w', d, n) {
        DeliveredStays(w, w', d, n);
      }
    }
  }

  // --- the step of one goroutine, seen locally -------------------------------------------------------

  lemma AppendKeepsList(list: seq<Queued>, log: Log, edu: bool, w: World, item: Queued)
    requires ListInv(list, log, edu, w) && |list| < MAX_IN_MEMORY && Faithful(w, edu, item)
    ensures ListInv(list + [item], Enter(log, [item]), edu, w)
  {
  }

  lemma AnswersAreFaithful(w: World, d: Server, edu: bool, rows: seq<Queued>)
    requires WorldInv(w)
    requires Answers(rows, StoredFor(w, if edu then w.eduRows else w.pduRows, d))
    ensures AllFaithful(w, edu, rows)
  {
    var stored := StoredFor(w, if edu then w.eduRows else w.pduRows, d);
    forall i | 0 <= i < |rows| ensures Faithful(w, edu, rows[i]) {
      var n := rows[i].receipt;
      assert n in stored;
      var r :| r in (if edu then w.eduRows else w.pduRows) && r.0 == d && r.1 == n;
    }
  }

  lemma TopUpIsFaithful(list: seq<Queued>, edu: bool, w: World, d: Server, answer: Option<seq<Queued>>)
    requires WorldInv(w) && |list| <= MAX_IN_MEMORY && AllFaithful(w, edu, list)
    requires answer.Some? ==> Answers(answer.value, StoredFor(w, if edu then w.eduRows else w.pduRows, d))
    ensures AllFaithful(w, edu, TopUp(list, answer))
  {
    TopUpExtends(list, answer);
    if answer.Some? { AnswersAreFaithful(w, d, edu, answer.value); }
    var out := TopUp(list, answer);
    forall i | 0 <= i < |out| ensures Faithful(w, edu, out[i]) {
      if i < |list| { assert out[i] == list[i]; }
    }
  }

  lemma GrowthEnters(list: seq<Queued>, out: seq<Queued>, log: Log)
    requires list <= out && log.entered == log.left + list
    ensures Enter(log, Back(out, |list|)).entered == log.left + out
  {
    assert out == list + Back(out, |list|);
    assert log.left + (list + Back(out, |list|)) == log.left + list + Back(out, |list|);
  }

  lemma TopUpKeepsList(list: seq<Queued>, log: Log, edu: bool, w: World, d: Server, answer: Option<seq<Queued>>)
    requires WorldInv(w) && ListInv(list, log, edu, w)
    requires answer.Some? ==> Answers(answer.value, StoredFor(w, if edu then w.eduRows else w.pduRows, d))
    ensures ListInv(TopUp(list, answer), Enter(log, Back(TopUp(list, answer), |list|)), edu, w)
    ensures list <= TopUp(list, answer)
  {
    TopUpExtends(list, answer);
    TopUpIsFaithful(list, edu, w, d, answer);
    GrowthEnters(list, TopUp(list, answer), log);
  }

  lemma GrownStays(mem: Memory, mem': Memory)
    requires Grown(mem) && SameAttempts(mem, mem') && mem.pdus <= mem'.pdus && mem.edus <= mem'.edus
    ensures Grown(mem')
  {
  }

  /** Growing lists, with the ID and the attempts untouched. */
  lemma GrowthKeepsMemory(mem: Memory, mem': Memory, w: World)
    requires MemoryInv(mem, w)
    requires ListInv(mem'.pdus, mem'.pduLog, false, w) && ListInv(mem'.edus, mem'.eduLog, true, w)
    requires mem.pdus <= mem'.pdus && mem.edus <= mem'.edus
    requires SameAttempts(mem, mem')
    ensures MemoryInv(mem', w)
  {
    GrownStays(mem, mem');
  }

  lemma AppendKeepsMemory(mem: Memory, w: World, pc: PC, ch: Choice)
    requires MemoryInv(mem, w) && pc.SendAppend? && Faithful(w, pc.edu, pc.item)
    ensures MemoryInv(NextMemory(pc, mem, ch), w)
  {
    if HasRoom(mem, pc.edu) {
      if pc.edu {
        AppendKeepsList(mem.edus, mem.eduLog, true, w, pc.item);
      } else {
        AppendKeepsList(mem.pdus, mem.pduLog, false, w, pc.item);
      }
      var mem' := NextMemory(pc, mem, ch);
      GrowthKeepsMemory(mem, mem', w);
    }
  }

  lemma ScanPdusKeepsMemory(mem: Memory, w: World, d: Server, sig: Signals, ch: Choice)
    requires MemoryInv(mem, w) && WorldInv(w) && MayStep(ScanPdus, d, sig, w, ch)
    ensures MemoryInv(NextMemory(ScanPdus, mem, ch), w)
  {
    TopUpKeepsList(mem.pdus, mem.pduLog, false, w, d, ch.answer);
    var mem' := NextMemory(ScanPdus, mem, ch);
    GrowthKeepsMemory(mem, mem', w);
  }

  lemma ScanEdusKeepsMemory(mem: Memory, w: World, d: Server, sig: Signals, pc: PC, ch: Choice)
    requires MemoryInv(mem, w) && WorldInv(w) && pc.ScanEdus? && MayStep(pc, d, sig, w, ch)
    ensures MemoryInv(NextMemory(pc, mem, ch), w)
  {
    TopUpKeepsList(mem.edus, mem.eduLog, true, w, d, ch.answer);
    var mem' := NextMemory(pc, mem, ch);
    GrowthKeepsMemory(mem, mem', w);
  }

  lemma PickExtendsTried(mem: Memory, w: World)
    requires MemoryInv(mem, w) && HasPending(mem)
    ensures Sized(NextBatch(mem)) && Within(NextBatch(mem), Batch(mem.pdus, mem.edus))
    ensures ExtendsTried(NextBatch(mem), mem)
  {
  }

  /**
  A retry under the same transaction ID extends the last attempt exactly when that attempt is still at the front of
  the lists, as it is if they have not been wiped since. It carries the same items exactly when, besides, nothing was
  added behind them that would still fit.
  */
  lemma RetryCarriesTheSameExactlyWhen(mem: Memory, w: World)
    requires MemoryInv(mem, w) && mem.tried != []
    ensures var last := mem.tried[|mem.tried| - 1];
            var inFront := Within(last, Batch(mem.pdus, mem.edus));
            && (mem.stale < |mem.tried| ==> inFront)
            && (Within(last, NextBatch(mem)) <==> inFront)
            && (NextBatch(mem) == last <==>
                  && inFront
                  && |last.pdus| == Min(|mem.pdus|, MAX_PDUS_PER_TRANSACTION)
                  && |last.edus| == Min(|mem.edus|, MAX_EDUS_PER_TRANSACTION))
  {
    assert Sized(mem.tried[|mem.tried| - 1]);
  }

  lemma PostKeepsMemory(mem: Memory, w: World, w': World, d: Server, pc: PC, ch: Choice)
    requires MemoryInv(mem, w) && pc.Post? && PcInv(pc, d, mem, w) && Evolves(w, w')
    ensures MemoryInv(NextMemory(pc, mem, ch), w')
  {
    FaithfulStays(w, w', false, mem.pdus);
    FaithfulStays(w, w', true, mem.edus);
  }

  lemma DropKeepsList(list: seq<Queued>, log: Log, edu: bool, w: World, carried: seq<Queued>)
    requires ListInv(list, log, edu, w) && carried <= list
    ensures Front(list, |carried|) == carried && list == carried + Back(list, |carried|)
    ensures ListInv(Back(list, |carried|), Leave(log, carried), edu, w)
  {
    var rest := Back(list, |carried|);
    assert log.left + (carried + rest) == (log.left + carried) + rest;
    forall i | 0 <= i < |rest| ensures Faithful(w, edu, rest[i]) {
      assert rest[i] == list[|carried| + i];
    }
  }

  /**
  A drop removes from the front of each list exactly the batch the accepted transaction carried.
  By then the reset has already forgotten the earlier attempts.
  */
  lemma DropIsExact(mem: Memory, w: World, b: Batch, ch: Choice)
    requires MemoryInv(mem, w) && Within(b, Batch(mem.pdus, mem.edus)) && mem.tried == []
    ensures var mem' := NextMemory(Drop(b), mem, ch);
            && mem.pdus == b.pdus + mem'.pdus && mem.edus == b.edus + mem'.edus
            && mem'.pduLog == Leave(mem.pduLog, b.pdus) && mem'.eduLog == Leave(mem.eduLog, b.edus)
            && MemoryInv(mem', w)
  {
    DropKeepsList(mem.pdus, mem.pduLog, false, w, b.pdus);
    DropKeepsList(mem.edus, mem.eduLog, true, w, b.edus);
  }

  lemma WipeKeepsMemory(mem: Memory, w: World, ch: Choice)
    requires MemoryInv(mem, w)
    ensures MemoryInv(NextMemory(Wipe, mem, ch), w)
  {
    var mem' := NextMemory(Wipe, mem, ch);
    assert mem'.transactionID == mem.transactionID && mem'.attempts == mem.attempts;
    assert mem'.tried == mem.tried && mem'.stale == |mem.tried| && mem'.pdus == [] && mem'.edus == [];
    IdStays(mem, mem');
    SizesStay(mem, mem');
    NothingHeld(mem'.pduLog, mem.pduLog);
    NothingHeld(mem'.eduLog, mem.eduLog);
  }

  lemma IdStays(mem: Memory, mem': Memory)
    requires OneId(mem) && mem'.transactionID == mem.transactionID && mem'.attempts == mem.attempts
    ensures OneId(mem')
  {
  }

  lemma SizesStay(mem: Memory, mem': Memory)
    requires Grown(mem) && mem'.tried == mem.tried && mem'.attempts == mem.attempts && mem'.stale == |mem.tried|
    ensures Grown(mem')
  {
  }

  lemma NothingHeld(log': Log, log: Log)
    requires log' == Forget(log)
    ensures log'.entered == log'.left + []
  {
  }

  lemma MemoryInvStays(mem: Memory, w: World, w': World)
    requires MemoryInv(mem, w) && Evolves(w, w')
    ensures MemoryInv(mem, w')
  {
    FaithfulStays(w, w', false, mem.pdus);
    FaithfulStays(w, w', true, mem.edus);
  }

  /** Steps that leave the lists alone touch at most the transaction ID. */
  predicate ChangesLists(pc: PC) {
    pc.SendAppend? || pc.ScanPdus? || pc.ScanEdus? || pc.Post? || pc.Drop? || pc.Wipe?
  }

  lemma OtherStepsKeepMemory(pc: PC, mem: Memory, w: World, ch: Choice)
    requires MemoryInv(mem, w) && !ChangesLists(pc)
    ensures MemoryInv(NextMemory(pc, mem, ch), w)
  {
  }

  lemma StepKeepsMemory(pc: PC, d: Server, sig: Signals, mem: Memory, w: World, ch: Choice)
    requires MemoryInv(mem, w) && WorldInv(w) && PcInv(pc, d, mem, w) && MayStep(pc, d, sig, w, ch)
    requires Evolves(w, NextWorld(pc, d, mem, w, ch))
    ensures MemoryInv(NextMemory(pc, mem, ch), NextWorld(pc, d, mem, w, ch))
  {
    var w' := NextWorld(pc, d, mem, w, ch);
    if pc.SendAppend? {
      AppendKeepsMemory(mem, w, pc, ch);
    } else if pc.ScanPdus? {
      ScanPdusKeepsMemory(mem, w, d, sig, ch);
    } else if pc.ScanEdus? {
      ScanEdusKeepsMemory(mem, w, d, sig, pc, ch);
    } else if pc.Post? {
      PostKeepsMemory(mem, w, w, d, pc, ch);
    } else if pc.Drop? {
      DropIsExact(mem, w, pc.batch, ch);
    } else if pc.Wipe? {
      WipeKeepsMemory(mem, w, ch);
    } else {
      OtherStepsKeepMemory(pc, mem, w, ch);
    }
    MemoryInvStays(NextMemory(pc, mem, ch), w, w');
  }

  // --- the effect of one step on the shared store -------------------------------------------------------

  lemma BatchIsFaithful(mem: Memory, w: World, b: Batch)
    requires MemoryInv(mem, w) && Within(b, Batch(mem.pdus, mem.edus))
    ensures AllFaithful(w, false, b.pdus) && AllFaithful(w, true, b.edus)
  {
    assert forall i :: 0 <= i < |b.pdus| ==> b.pdus[i] == mem.pdus[i];
    assert forall i :: 0 <= i < |b.edus| ==> b.edus[i] == mem.edus[i];
  }

  lemma CarriedReceipts(w: World, edu: bool, items: seq<Queued>)
    requires AllFaithful(w, edu, items)
    ensures (set n | n in ReceiptList(items)) == Receipts(items)
    ensures forall n :: n in Receipts(items) ==> n in w.recorded && w.recorded[n].edu == edu
  {
    PresentIsCarriedWhole(items);
    forall n | n in Receipts(items) ensures n in ReceiptList(items) {
      var i :| 0 <= i < |items| && items[i].receipt == n;
      assert ReceiptList(items)[i] == n;
    }
    forall n | n in ReceiptList(items) ensures n in Receipts(items) {
      var i :| 0 <= i < |ReceiptList(items)| && ReceiptList(items)[i] == n;
      assert items[i].receipt == n;
    }
  }

  lemma AcceptKeepsWorld(w: World, t: Transaction)
    requires WorldInv(w)
    ensures WorldInv(w.(accepted := w.accepted + [t])) && Evolves(w, w.(accepted := w.accepted + [t]))
  {
    var w' := w.(accepted := w.accepted + [t]);
    forall r | r in w'.posted ensures r in w'.pduRows || Delivered(w', r.0, r.1) {
      if r !in w.pduRows { DeliveredStays(w, w', r.0, r.1); }
    }
  }

  lemma BlacklistKeepsWorld(w: World, listed: set<Server>)
    requires WorldInv(w)
    ensures WorldInv(w.(blacklisted := listed)) && Evolves(w, w.(blacklisted := listed))
  {
    var w' := w.(blacklisted := listed);
    forall r | r in w'.posted ensures r in w'.pduRows || Delivered(w', r.0, r.1) {
      if r !in w.pduRows { DeliveredStays(w, w', r.0, r.1); }
    }
  }

  /** Whatever a queue does to the store, nothing is lost and nothing is taken back. */
  lemma StepKeepsWorld(pc: PC, d: Server, mem: Memory, w: World, ch: Choice)
    requires WorldInv(w) && MemoryInv(mem, w) && PcInv(pc, d, mem, w)
    ensures WorldInv(NextWorld(pc, d, mem, w, ch)) && Evolves(w, NextWorld(pc, d, mem, w, ch))
  {
    if pc.Post? {
      AcceptKeepsWorld(w, TransactionFor(mem, d, pc.batch));
    } else if pc.CleanPdus? {
      BatchIsFaithful(mem, w, pc.batch);
      CarriedReceipts(w, false, pc.batch.pdus);
      CleanPDUsKeeps(w, d, Receipts(pc.batch.pdus));
    } else if pc.CleanEdus? {
      BatchIsFaithful(mem, w, pc.batch);
      CarriedReceipts(w, true, pc.batch.edus);
      CleanEDUsKeeps(w, d, Receipts(pc.batch.edus));
    } else if pc.Succeed? {
      BlacklistKeepsWorld(w, w.blacklisted - {d});
    } else if pc.Fail? {
      BlacklistKeepsWorld(w, w.blacklisted + {d});
    }
  }

  lemma CleaningTakesReceipts(items: seq<Queued>, w: World, edu: bool)
    requires AllFaithful(w, edu, items)
    ensures (set n | n in ReceiptList(items)) == Receipts(items) && (ReceiptList(items) == [] ==> Receipts(items) == {})
  {
    CarriedReceipts(w, edu, items);
    if ReceiptList(items) == [] {
      assert (set n | n in ReceiptList(items)) == {};
    }
  }

  /**
  The clean-up after an accepted transaction, if it succeeds, takes exactly the carried PDUs off this destination, so
  that no later scan finds them, and deletes the JSON of those that no destination needs any more. If it fails nothing
  changes.
  */
  lemma CleanUpIsExact(q: Queue, w: World, t: Tid, ch: Choice)
    requires BooksInv(q, w) && t in q.threads && q.threads[t].CleanPdus?
    ensures var d, w' := q.destination, WorldAfter(q, w, t, ch);
            var carried := Receipts(q.threads[t].batch.pdus);
            && (ch.yes ==> Cleaned(w.pduRows, w'.pduRows, w.blobs, w'.blobs, d, carried))
            && (ch.yes ==> forall n :: n in carried ==> (d, n) !in w'.pduRows && n !in StoredFor(w', w'.pduRows, d))
            && w' == (if ch.yes then w.(pduRows := w'.pduRows, blobs := w'.blobs) else w)
  {
    var pc, d, w' := q.threads[t], q.destination, WorldAfter(q, w, t, ch);
    assert PcInv(pc, d, q.mem, w);
    BatchIsFaithful(q.mem, w, pc.batch);
    CleaningTakesReceipts(pc.batch.pdus, w, false);
    CleanPDUsIsExact(w, d, Receipts(pc.batch.pdus));
    forall n | n in Receipts(pc.batch.pdus) ensures n in StoredFor(w', w'.pduRows, d) ==> (d, n) in w'.pduRows {
      StoredForIsExact(w', w'.pduRows, d, n);
    }
  }

  /** The same for EDUs. */
  lemma EduCleanUpIsExact(q: Queue, w: World, t: Tid, ch: Choice)
    requires BooksInv(q, w) && t in q.threads && q.threads[t].CleanEdus?
    ensures var d, w' := q.destination, WorldAfter(q, w, t, ch);
            var carried := Receipts(q.threads[t].batch.edus);
            && (ch.yes ==> Cleaned(w.eduRows, w'.eduRows, w.blobs, w'.blobs, d, carried))
            && (ch.yes ==> forall n :: n in carried ==> (d, n) !in w'.eduRows && n !in StoredFor(w', w'.eduRows, d))
            && w' == (if ch.yes then w.(eduRows := w'.eduRows, blobs := w'.blobs) else w)
  {
    var pc, d, w' := q.threads[t], q.destination, WorldAfter(q, w, t, ch);
    assert PcInv(pc, d, q.mem, w);
    BatchIsFaithful(q.mem, w, pc.batch);
    CleaningTakesReceipts(pc.batch.edus, w, true);
    CleanEDUsIsExact(w, d, Receipts(pc.batch.edus));
    forall n | n in Receipts(pc.batch.edus) ensures n in StoredFor(w', w'.eduRows, d) ==> (d, n) in w'.eduRows {
      StoredForIsExact(w', w'.eduRows, d, n);
    }
  }

  // --- the promises of the goroutine that moved -----------------------------------------------------------

  lemma PostDelivers(mem: Memory, w: World, d: Server, b: Batch)
    requires MemoryInv(mem, w) && Within(b, Batch(mem.pdus, mem.edus))
    ensures var w' := w.(accepted := w.accepted + [TransactionFor(mem, d, b)]);
            forall n :: n in Receipts(b.pdus) ==> Delivered(w', d, n)
  {
    BatchIsFaithful(mem, w, b);
    AcceptDelivers(w, TransactionFor(mem, d, b), b.pdus);
  }

  predicate Promises(pc: PC) {
    pc.SendCheck? || pc.SendAppend? || HasBatch(pc)
  }

  lemma PromisesComeFrom(pc: PC, d: Server, sig: Signals, mem: Memory, w: World, ch: Choice)
    requires Promises(NextPC(pc, d, sig, mem, w, ch))
    ensures pc.SendCheck? || pc.Pick? || pc.Build? || pc.Post? || Settled(pc)
  {
  }

  lemma SettledKeepsPc(pc: PC, d: Server, sig: Signals, mem: Memory, w: World, ch: Choice)
    requires WorldInv(w) && MemoryInv(mem, w) && PcInv(pc, d, mem, w) && Settled(pc) && !pc.Drop?
    ensures PcInv(NextPC(pc, d, sig, mem, w, ch), d, NextMemory(pc, mem, ch), NextWorld(pc, d, mem, w, ch))
  {
    StepKeepsWorld(pc, d, mem, w, ch);
    var w' := NextWorld(pc, d, mem, w, ch);
    forall n | n in Receipts(pc.batch.pdus) ensures Delivered(w', d, n) {
      DeliveredStays(w, w', d, n);
    }
    var pc' := NextPC(pc, d, sig, mem, w, ch);
    assert Settled(pc') && pc'.batch == pc.batch;
  }

  lemma PostKeepsPc(pc: PC, d: Server, sig: Signals, mem: Memory, w: World, ch: Choice)
    requires MemoryInv(mem, w) && PcInv(pc, d, mem, w) && pc.Post?
    ensures PcInv(NextPC(pc, d, sig, mem, w, ch), d, NextMemory(pc, mem, ch), NextWorld(pc, d, mem, w, ch))
  {
    PostDelivers(mem, w, d, pc.batch);
  }

  lemma StepKeepsPc(pc: PC, d: Server, sig: Signals, mem: Memory, w: World, ch: Choice)
    requires WorldInv(w) && MemoryInv(mem, w) && PcInv(pc, d, mem, w) && MayStep(pc, d, sig, w, ch)
    ensures PcInv(NextPC(pc, d, sig, mem, w, ch), d, NextMemory(pc, mem, ch), NextWorld(pc, d, mem, w, ch))
  {
    var pc' := NextPC(pc, d, sig, mem, w, ch);
    if Promises(pc') {
      PromisesComeFrom(pc, d, sig, mem, w, ch);
      if pc.SendCheck? {
      } else if pc.Pick? {
        PickExtendsTried(mem, w);
      } else if pc.Build? {
      } else if pc.Post? {
        PostKeepsPc(pc, d, sig, mem, w, ch);
      } else {
        SettledKeepsPc(pc, d, sig, mem, w, ch);
      }
    }
  }

  // --- balance: sent items and dropped items ---------------------------------------------------------------

  lemma OtherStepsKeepLogs(pc: PC, mem: Memory, ch: Choice)
    requires !pc.Drop? && !pc.Post?
    ensures var mem' := NextMemory(pc, mem, ch);
            && mem'.pduLog.left == mem.pduLog.left && mem'.pduLog.sent == mem.pduLog.sent
            && mem'.eduLog.left == mem.eduLog.left && mem'.eduLog.sent == mem.eduLog.sent
  {
  }

  lemma OtherStepsKeepHeld(pc: PC, d: Server, sig: Signals, mem: Memory, w: World, ch: Choice)
    requires !pc.Drop? && !pc.Post?
    ensures var pc' := NextPC(pc, d, sig, mem, w, ch);
            HeldPdus(pc') == HeldPdus(pc) && HeldEdus(pc') == HeldEdus(pc)
  {
  }

  lemma WorkerKeepsBalance(pc: PC, d: Server, sig: Signals, mem: Memory, w: World, ch: Choice)
    requires MemoryInv(mem, w) && PcInv(pc, d, mem, w) && Balanced(mem, pc)
    ensures Balanced(NextMemory(pc, mem, ch), NextPC(pc, d, sig, mem, w, ch))
  {
    if pc.Drop? {
      DropIsExact(mem, w, pc.batch, ch);
    } else if !pc.Post? {
      OtherStepsKeepLogs(pc, mem, ch);
      OtherStepsKeepHeld(pc, d, sig, mem, w, ch);
    }
  }

  // --- the step of one goroutine, seen by the whole queue -----------------------------------------------------

  /** Every atomic step keeps the books, and the shared store with them. */
  lemma StepKeepsBooks(q: Queue, w: World, t: Tid, ch: Choice)
    requires BooksInv(q, w) && WorldInv(w) && Enabled(q, w, t, ch)
    ensures BooksInv(Do(q, w, t, ch), WorldAfter(q, w, t, ch))
    ensures WorldInv(WorldAfter(q, w, t, ch)) && Evolves(w, WorldAfter(q, w, t, ch))
  {
    var pc, d, q', w' := q.threads[t], q.destination, Do(q, w, t, ch), WorldAfter(q, w, t, ch);
    StepKeepsOneWorker(q, w, t, ch);
    StepKeepsWorld(pc, d, q.mem, w, ch);
    StepKeepsMemory(pc, d, q.sig, q.mem, w, ch);
    forall u | u in q'.threads ensures PcInv(q'.threads[u], d, q'.mem, w') {
      OthersKeepPromises(q, w, t, ch, u);
    }
    BalanceStays(q, w, t, ch);
  }

  lemma OthersKeepPromises(q: Queue, w: World, t: Tid, ch: Choice, u: Tid)
    requires BooksInv(q, w) && WorldInv(w) && Enabled(q, w, t, ch)
    requires u in Do(q, w, t, ch).threads && Evolves(w, WorldAfter(q, w, t, ch))
    ensures PcInv(Do(q, w, t, ch).threads[u], q.destination, Do(q, w, t, ch).mem, WorldAfter(q, w, t, ch))
  {
    var pc, q', w' := q.threads[t], Do(q, w, t, ch), WorldAfter(q, w, t, ch);
    if u == t {
      StepKeepsPc(pc, q.destination, q.sig, q.mem, w, ch);
    } else if u in q.threads && !(Spawns(pc, q.sig) && u == ch.child) {
      assert q'.threads[u] == q.threads[u];
      if InLoop(q.threads[u]) { OthersAppend(pc, q.mem, ch); }
      PcInvStays(q.threads[u], q.destination, q.mem, w, q'.mem, w');
    } else {
      assert q'.threads[u] == Start;
    }
  }

  lemma BalanceStays(q: Queue, w: World, t: Tid, ch: Choice)
    requires BooksInv(q, w) && Enabled(q, w, t, ch) && OneWorker(Do(q, w, t, ch))
    ensures Balanced(Do(q, w, t, ch).mem, WorkerPc(Do(q, w, t, ch)))
  {
    var pc, q' := q.threads[t], Do(q, w, t, ch);
    LoopBoundary(pc, q.destination, q.sig, q.mem, w, ch);
    if InLoop(pc) {
      WorkerKeepsBalance(pc, q.destination, q.sig, q.mem, w, ch);
    } else {
      OthersAppend(pc, q.mem, ch);
    }
  }
}
