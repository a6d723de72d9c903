/**
One destination queue as a system of goroutines: senders, wakers, backoff callbacks, retries and
workers, one atomic operation per step. Program counters are named after what comes next.
*/
module QueueProtocol {
  import opened Wrappers
  import opened QueueMemory
  import opened Delivery

  type Tid = nat

  datatype Batch = Batch(pdus: seq<Queued>, edus: seq<Queued>)

  datatype PC =
    | Done
      // sendEvent and sendEDU
    | SendCheck(edu: bool, item: Queued)
    | SendAppend(edu: bool, item: Queued)
    | SendTest
      // handleBackoffNotifier, wakeQueueIfEventsPending
    | BackoffTest
    | RetryTest
      // wakeQueueAndNotify, then wakeQueueIfNeeded
    | WakeNotify
    | WakeClear
    | WakeTest
      // backgroundSend, up to winning the compare-and-swap on `running`
    | Start
    | Claim
      // the worker loop
    | Mark
    | Loop
    | ScanPdus
    | ScanEdus(full: bool, retrieved: bool)
    | ScanFlag(full: bool, retrieved: bool)
    | ScanNotify(retrieved: bool)
    | Wait
    | Pick
    | Build(batch: Batch)
    | Post(batch: Batch)
    | CleanPdus(batch: Batch)
    | CleanEdus(batch: Batch)
    | ResetId(batch: Batch)
    | Succeed(batch: Batch)
    | Drop(batch: Batch)
    | DropNotify
    | Fail
    | BackOff
    | Wipe
    | Stop
      // checkNotificationsOnClose
    | CloseCheck
    | CloseTake

  /** History of one list: items that entered it and were not wiped, items dropped from its front, items sent. */
  datatype Log = Log(entered: seq<Queued>, left: seq<Queued>, sent: seq<Queued>)

  // Atomic flags and the one-slot channel of a destinationQueue.
  datatype Signals = Signals(notify: bool, running: bool, backingOff: bool, overflowed: bool)

  // What pendingMutex and transactionIDMutex protect, and the history of the lists.
  datatype Memory = Memory(
    pdus: seq<Queued>,
    edus: seq<Queued>,
    transactionID: string,      // "" when the last transaction succeeded
    attempts: seq<string>,      // transaction IDs tried since the last reset
    tried: seq<Batch>,          // batches tried since the last reset
    stale: nat,                 // how many of them were tried before the lists were last wiped
    pduLog: Log,
    eduLog: Log)

  // History that no step reads.
  datatype Marks = Marks(
    leftOnBlacklist: bool,      // a closing worker skipped its recheck: blacklisted
    leftOnShutdown: bool,       // a spawned worker gave up: shutting down
    lateClear: bool)            // a waker cleared `backingOff` while work was pending and no token was in `notify`

  datatype Queue = Queue(
    destination: Server,
    sig: Signals,
    mem: Memory,
    lock: Option<Tid>,          // the goroutine a step leaves holding pendingMutex
    owner: Option<Tid>,         // history: who won the compare-and-swap on `running`
    marks: Marks,
    threads: map<Tid, PC>)

  function NewQueue(d: Server): Queue {
    Queue(d, Signals(false, false, false, false),
          Memory([], [], "", [], [], 0, Log([], [], []), Log([], [], [])),
          None, None, Marks(false, false, false), map[])
  }

  datatype Select = TakeToken | IdleTimeout | Quit

  /** Everything a step does not decide itself: query answers, outcomes, the ready case of a select. */
  datatype Choice = Choice(answer: Option<seq<Queued>>, yes: bool, select: Select, id: string, child: Tid)

  predicate IsWaker(pc: PC) {
    pc.WakeNotify? || pc.WakeClear? || pc.WakeTest? || pc.Start? || pc.Claim?
  }

  predicate IsScan(pc: PC) {
    pc.Mark? || pc.Loop? || pc.ScanPdus? || pc.ScanEdus? || pc.ScanFlag? || pc.ScanNotify? || pc.Wait?
  }

  predicate IsSend(pc: PC) {
    pc.Pick? || pc.Build? || pc.Post? || pc.CleanPdus? || pc.CleanEdus? || pc.ResetId? || pc.Succeed?
  }

  predicate IsFinish(pc: PC) {
    pc.Drop? || pc.DropNotify? || pc.Fail? || pc.BackOff? || pc.Wipe? || pc.Stop?
  }

  /** Inside the send loop: after winning `running`, before clearing it. */
  predicate InLoop(pc: PC) {
    IsScan(pc) || IsSend(pc) || IsFinish(pc)
  }

  // These steps take pendingMutex. All but the scan and the drop release it within the step:
  // nothing they do meanwhile can be seen without the mutex, except the one flag they may set.
  predicate TakesLock(pc: PC) {
    pc.SendAppend? || pc.RetryTest? || pc.ScanPdus? || pc.Pick? || pc.Drop? || pc.Wipe?
  }

  predicate HoldsLock(pc: PC) {
    pc.ScanEdus? || pc.ScanFlag? || pc.ScanNotify? || pc.DropNotify?
  }

  ghost predicate MayStep(pc: PC, d: Server, sig: Signals, w: World, ch: Choice) {
    && !pc.Done?
    && (pc.ScanPdus? && ch.answer.Some? ==> Answers(ch.answer.value, StoredFor(w, w.pduRows, d)))
    && (pc.ScanEdus? && ch.answer.Some? ==> Answers(ch.answer.value, StoredFor(w, w.eduRows, d)))
    && (pc.Wait? ==> match ch.select
          case TakeToken => sig.notify
          case IdleTimeout => true
          case Quit => w.shutdown)
    && (pc.Build? ==> ch.id != "")
  }

  predicate Spawns(pc: PC, sig: Signals) {
    pc.WakeTest? && !sig.running
  }

  ghost predicate Enabled(q: Queue, w: World, t: Tid, ch: Choice) {
    t in q.threads
    && MayStep(q.threads[t], q.destination, q.sig, w, ch)
    && (TakesLock(q.threads[t]) ==> q.lock.None?)
    && (Spawns(q.threads[t], q.sig) ==> ch.child !in q.threads)
  }

  // --- one atomic operation: where the goroutine goes, and what it does to each part of the state ------

  function NextPC(pc: PC, d: Server, sig: Signals, mem: Memory, w: World, ch: Choice): PC {
    match pc
    case SendCheck(edu, item) =>
      if item.body.None? || d in w.blacklisted then Done else SendAppend(edu, item)
    case SendAppend(_, _) => SendTest
    case SendTest => if sig.backingOff then Done else WakeNotify
    case BackoffTest => if sig.backingOff then WakeNotify else Done
    case RetryTest => if HasPending(mem) then WakeNotify else Done
    case WakeNotify => WakeClear
    case WakeClear => WakeTest
    case WakeTest => Done
    case Start => if w.shutdown then Done else Claim
    case Claim => if sig.running then Done else Mark
    case Mark => Loop
    case Loop => if sig.overflowed then ScanPdus else Wait
    case ScanPdus => ScanEdus(AnswerIsFull(mem.pdus, ch.answer), TopUp(mem.pdus, ch.answer) != mem.pdus)
    case ScanEdus(full, retrieved) =>
      ScanFlag(full || AnswerIsFull(mem.edus, ch.answer), retrieved || TopUp(mem.edus, ch.answer) != mem.edus)
    case ScanFlag(_, retrieved) => ScanNotify(retrieved)
    case ScanNotify(_) => Wait
    case Wait => if ch.select.TakeToken? then Pick else Stop
    case Pick => if HasPending(mem) then Build(NextBatch(mem)) else Loop
    case Build(b) => Post(b)
    case Post(b) => if ch.yes then CleanPdus(b) else Fail
    case CleanPdus(b) => CleanEdus(b)
    case CleanEdus(b) => ResetId(b)
    case ResetId(b) => Succeed(b)
    case Succeed(b) => Drop(b)
    case Drop(_) => DropNotify
    case DropNotify => Loop
    case Fail => if d in w.blacklisted || ch.yes then Wipe else BackOff
    case BackOff => Stop
    case Wipe => Stop
    case Stop => CloseCheck
    case CloseCheck => if d in w.blacklisted then Done else CloseTake
    case CloseTake => if sig.notify then WakeNotify else Done
    case Done => Done
  }

  function NextSignals(pc: PC, sig: Signals, mem: Memory, ch: Choice): Signals {
    match pc
    case SendAppend(edu, _) => if HasRoom(mem, edu) then sig else sig.(overflowed := true)
    case WakeNotify => sig.(notify := true)
    case WakeClear => sig.(backingOff := false)
    case Claim => sig.(running := true)
    case Mark => sig.(overflowed := true)
    case ScanFlag(full, _) => if full then sig else sig.(overflowed := false)
    case ScanNotify(retrieved) => if retrieved then sig.(notify := true) else sig
    case Wait => if ch.select.TakeToken? then sig.(notify := false) else sig
    case DropNotify => if HasPending(mem) then sig.(notify := true) else sig
    case BackOff => sig.(backingOff := true)
    case Stop => sig.(running := false)
    case CloseTake => sig.(notify := false)
    case _ => sig
  }

  function NextMemory(pc: PC, mem: Memory, ch: Choice): Memory {
    match pc
    case SendAppend(edu, item) =>
      if !HasRoom(mem, edu) then mem
      else if edu then mem.(edus := mem.edus + [item], eduLog := Enter(mem.eduLog, [item]))
      else mem.(pdus := mem.pdus + [item], pduLog := Enter(mem.pduLog, [item]))
    case ScanPdus =>
      var after := TopUp(mem.pdus, ch.answer);
      mem.(pdus := after, pduLog := Enter(mem.pduLog, Back(after, |mem.pdus|)))
    case ScanEdus(_, _) =>
      var after := TopUp(mem.edus, ch.answer);
      mem.(edus := after, eduLog := Enter(mem.eduLog, Back(after, |mem.edus|)))
    case Build(_) => if mem.transactionID == "" then mem.(transactionID := ch.id) else mem
    case Post(b) =>
      var posted := mem.(attempts := mem.attempts + [mem.transactionID], tried := mem.tried + [b]);
      if ch.yes then posted.(pduLog := Sent(mem.pduLog, b.pdus), eduLog := Sent(mem.eduLog, b.edus)) else posted
    case ResetId(_) => mem.(transactionID := "", attempts := [], tried := [], stale := 0)
    case Drop(b) =>
      mem.(pdus := Back(mem.pdus, |b.pdus|), pduLog := Leave(mem.pduLog, Front(mem.pdus, |b.pdus|)),
           edus := Back(mem.edus, |b.edus|), eduLog := Leave(mem.eduLog, Front(mem.edus, |b.edus|)))
    case Wipe =>
      mem.(pdus := [], pduLog := Forget(mem.pduLog), edus := [], eduLog := Forget(mem.eduLog),
           stale := |mem.tried|)
    case _ => mem
  }

  function NextWorld(pc: PC, d: Server, mem: Memory, w: World, ch: Choice): World {
    match pc
    case Post(b) => if ch.yes then w.(accepted := w.accepted + [TransactionFor(mem, d, b)]) else w
    case CleanPdus(b) =>
      if ReceiptList(b.pdus) != [] && ch.yes then CleanPDUs(w, d, set n | n in ReceiptList(b.pdus)) else w
    case CleanEdus(b) =>
      if ReceiptList(b.edus) != [] && ch.yes then CleanEDUs(w, d, set n | n in ReceiptList(b.edus)) else w
    case Succeed(_) => w.(blacklisted := w.blacklisted - {d})
    case Fail => if ch.yes then w.(blacklisted := w.blacklisted + {d}) else w
    case _ => w
  }

  function NextMarks(pc: PC, d: Server, sig: Signals, mem: Memory, marks: Marks, w: World): Marks {
    match pc
    case WakeClear => if ClearsLate(pc, sig, mem) then marks.(lateClear := true) else marks
    case Start => if w.shutdown then marks.(leftOnShutdown := true) else marks
    case CloseCheck => if d in w.blacklisted then marks.(leftOnBlacklist := true) else marks
    case _ => marks
  }

  /** One atomic operation of goroutine `t`. */
  function Do(q: Queue, w: World, t: Tid, ch: Choice): Queue
    requires t in q.threads
  {
    var pc := q.threads[t];
    var pc' := NextPC(pc, q.destination, q.sig, q.mem, w, ch);
    var moved := q.threads[t := pc'];
    Queue(q.destination,
          NextSignals(pc, q.sig, q.mem, ch),
          NextMemory(pc, q.mem, ch),
          Hold(q.lock, HoldsLock(pc'), t),
          Hold(q.owner, InLoop(pc'), t),
          NextMarks(pc, q.destination, q.sig, q.mem, q.marks, w),
          if Spawns(pc, q.sig) then moved[ch.child := Start] else moved)
  }

  function WorldAfter(q: Queue, w: World, t: Tid, ch: Choice): World
    requires t in q.threads
  {
    NextWorld(q.threads[t], q.destination, q.mem, w, ch)
  }

  function Hold(holder: Option<Tid>, holds: bool, t: Tid): Option<Tid> {
    if holds then Some(t) else if holder == Some(t) then None else holder
  }

  // --- helpers of the steps ----------------------------------------------------------------------

  predicate HasPending(mem: Memory) {
    mem.pdus != [] || mem.edus != []
  }

  /** A waker about to clear `backingOff` although the token that should come with it is gone. */
  predicate ClearsLate(pc: PC, sig: Signals, mem: Memory) {
    pc.WakeClear? && sig.backingOff && !sig.notify && HasPending(mem)
  }

  predicate HasRoom(mem: Memory, edu: bool) {
    |if edu then mem.edus else mem.pdus| < MAX_IN_MEMORY
  }

  function NextBatch(mem: Memory): Batch {
    Batch(Front(mem.pdus, MAX_PDUS_PER_TRANSACTION), Front(mem.edus, MAX_EDUS_PER_TRANSACTION))
  }

  function TransactionFor(mem: Memory, d: Server, b: Batch): Transaction {
    Transaction(mem.transactionID, d, Bodies(b.pdus), Bodies(b.edus))
  }

  function Enter(log: Log, items: seq<Queued>): Log {
    log.(entered := log.entered + items)
  }

  function Leave(log: Log, items: seq<Queued>): Log {
    log.(left := log.left + items)
  }

  function Sent(log: Log, items: seq<Queued>): Log {
    log.(sent := log.sent + items)
  }

  function Forget(log: Log): Log {
    log.(entered := log.left)
  }

  /** How goroutines begin: a send, a backoff timer, a retry, a forced wake-up, a hydration wake-up. */
  predicate MayBegin(w: World, pc: PC) {
    || (pc.SendCheck? && (pc.item.body.Some? ==> Faithful(w, pc.edu, pc.item)))
    || pc.BackoffTest? || pc.RetryTest? || pc.WakeNotify? || pc.WakeClear?
  }

  function Begin(q: Queue, t: Tid, pc: PC): Queue {
    q.(threads := q.threads[t := pc])
  }
}
