/**
Whose PDUs a transaction carries: only such as were associated with its destination, or handed to a queue for it.
*/
module OwnPdus {
  import opened Wrappers
  import opened QueueMemory
  import opened Delivery
  import opened QueueProtocol
  import opened QueueInvariants
  import opened QueueBooks
  import opened QueueSystem

  /** PDUs that senders were given, with the destination of the queue they were given for. */
  type Handed = set<(Server, Nid)>

  predicate IsOwn(w: World, handed: Handed, d: Server, n: Nid) {
    (d, n) in w.posted || (d, n) in handed
  }

  predicate AllOwn(w: World, handed: Handed, d: Server, items: seq<Queued>) {
    forall i :: 0 <= i < |items| ==> IsOwn(w, handed, d, items[i].receipt)
  }

  predicate SendsPdu(pc: PC) {
    (pc.SendCheck? || pc.SendAppend?) && !pc.edu && pc.item.body.Some?
  }

  ghost predicate QueueIsOwn(q: Queue, w: World, handed: Handed) {
    && AllOwn(w, handed, q.destination, q.mem.pdus)
    && forall t :: t in q.threads && SendsPdu(q.threads[t]) ==> (q.destination, q.threads[t].item.receipt) in handed
  }

  /** The body is that of a PDU that belongs to the destination. */
  ghost predicate BodyIsOwn(w: World, handed: Handed, d: Server, body: Json) {
    exists n :: n in w.recorded && w.recorded[n] == Blob(false, body) && IsOwn(w, handed, d, n)
  }

  ghost predicate AcceptedAreOwn(w: World, handed: Handed, from: nat) {
    forall k, j :: from <= k < |w.accepted| && 0 <= j < |w.accepted[k].pdus| ==>
      BodyIsOwn(w, handed, w.accepted[k].destination, w.accepted[k].pdus[j])
  }

  ghost predicate OwnInv(s: System, handed: Handed, from: nat) {
    && AcceptedAreOwn(s.world, handed, from)
    && forall i :: i in s.queues ==> QueueIsOwn(s.queues[i], s.world, handed)
  }

  // --- what stays own ------------------------------------------------------------------------------------------

  lemma BodyStaysOwn(w: World, w': World, handed: Handed, handed': Handed, d: Server, body: Json)
    requires Evolves(w, w') && handed <= handed' && BodyIsOwn(w, handed, d, body)
    ensures BodyIsOwn(w', handed', d, body)
  {
    var n :| n in w.recorded && w.recorded[n] == Blob(false, body) && IsOwn(w, handed, d, n);
    assert n in w'.recorded && w'.recorded[n] == w.recorded[n];
  }

  lemma QueueStaysOwn(q: Queue, w: World, w': World, handed: Handed, handed': Handed)
    requires Evolves(w, w') && handed <= handed' && QueueIsOwn(q, w, handed)
    ensures QueueIsOwn(q, w', handed')
  {
  }

  lemma AcceptedStayOwn(w: World, w': World, handed: Handed, handed': Handed, from: nat)
    requires Evolves(w, w') && handed <= handed' && AcceptedAreOwn(w, handed, from) && w'.accepted == w.accepted
    ensures AcceptedAreOwn(w', handed', from)
  {
    forall k, j | from <= k < |w.accepted| && 0 <= j < |w.accepted[k].pdus|
      ensures BodyIsOwn(w', handed', w.accepted[k].destination, w.accepted[k].pdus[j])
    {
      BodyStaysOwn(w, w', handed, handed', w.accepted[k].destination, w.accepted[k].pdus[j]);
    }
  }

  // --- one operation -------------------------------------------------------------------------------------------

  /** What a scan finds was associated with the destination of the queue. */
  lemma AnswersAreOwn(w: World, handed: Handed, d: Server, rows: seq<Queued>)
    requires WorldInv(w) && Answers(rows, StoredFor(w, w.pduRows, d))
    ensures AllOwn(w, handed, d, rows)
  {
    forall i | 0 <= i < |rows| ensures IsOwn(w, handed, d, rows[i].receipt) {
      StoredForIsExact(w, w.pduRows, d, rows[i].receipt);
    }
  }

  lemma TopUpIsOwn(w: World, handed: Handed, d: Server, list: seq<Queued>, answer: Option<seq<Queued>>)
    requires WorldInv(w) && |list| <= MAX_IN_MEMORY && AllOwn(w, handed, d, list)
    requires answer.Some? ==> Answers(answer.value, StoredFor(w, w.pduRows, d))
    ensures AllOwn(w, handed, d, TopUp(list, answer))
  {
    TopUpExtends(list, answer);
    if answer.Some? { AnswersAreOwn(w, handed, d, answer.value); }
    var out := TopUp(list, answer);
    forall i | 0 <= i < |out| ensures IsOwn(w, handed, d, out[i].receipt) {
      if i < |list| { assert out[i] == list[i]; }
    }
  }

  lemma MemoryStaysOwn(q: Queue, w: World, t: Tid, ch: Choice, handed: Handed)
    requires BooksInv(q, w) && WorldInv(w) && Enabled(q, w, t, ch) && QueueIsOwn(q, w, handed)
    ensures AllOwn(w, handed, q.destination, NextMemory(q.threads[t], q.mem, ch).pdus)
  {
    var pc := q.threads[t];
    if pc.ScanPdus? {
      TopUpIsOwn(w, handed, q.destination, q.mem.pdus, ch.answer);
    } else if pc.SendAppend? && !pc.edu {
      assert PcInv(pc, q.destination, q.mem, w);
      assert SendsPdu(pc);
    } else if pc.Drop? {
      assert PcInv(pc, q.destination, q.mem, w);
      DropIsExact(q.mem, w, pc.batch, ch);
      var rest := NextMemory(pc, q.mem, ch).pdus;
      forall i | 0 <= i < |rest| ensures rest[i] == q.mem.pdus[|pc.batch.pdus| + i] { }
    } else {
      OtherStepsKeepPdus(pc, q.mem, ch);
    }
  }

  lemma OtherStepsKeepPdus(pc: PC, mem: Memory, ch: Choice)
    requires !pc.ScanPdus? && !(pc.SendAppend? && !pc.edu) && !pc.Drop?
    ensures NextMemory(pc, mem, ch).pdus == mem.pdus || NextMemory(pc, mem, ch).pdus == []
  {
  }

  lemma SendersComeFrom(pc: PC, d: Server, sig: Signals, mem: Memory, w: World, ch: Choice)
    requires SendsPdu(NextPC(pc, d, sig, mem, w, ch))
    ensures SendsPdu(pc) && NextPC(pc, d, sig, mem, w, ch).item == pc.item
  {
  }

  lemma SendersStayOwn(q: Queue, w: World, t: Tid, ch: Choice, handed: Handed)
    requires Enabled(q, w, t, ch) && QueueIsOwn(q, w, handed)
    ensures forall u :: u in Do(q, w, t, ch).threads && SendsPdu(Do(q, w, t, ch).threads[u]) ==>
              (q.destination, Do(q, w, t, ch).threads[u].item.receipt) in handed
  {
    var pc, q' := q.threads[t], Do(q, w, t, ch);
    forall u | u in q'.threads && SendsPdu(q'.threads[u])
      ensures (q.destination, q'.threads[u].item.receipt) in handed
    {
      if u == t {
        SendersComeFrom(pc, q.destination, q.sig, q.mem, w, ch);
      } else {
        assert u in q.threads && q'.threads[u] == q.threads[u];
      }
    }
  }

  /** An accepted batch was at the front of the list, so its PDUs are the destination's own. */
  lemma PostedAreOwn(q: Queue, w: World, t: Tid, ch: Choice, handed: Handed, j: nat)
    requires BooksInv(q, w) && QueueIsOwn(q, w, handed) && t in q.threads && q.threads[t].Post?
    requires j < |Bodies(q.threads[t].batch.pdus)|
    ensures BodyIsOwn(w, handed, q.destination, Bodies(q.threads[t].batch.pdus)[j])
  {
    var b := q.threads[t].batch;
    assert PcInv(q.threads[t], q.destination, q.mem, w);
    BatchIsFaithful(q.mem, w, b);
    PresentIsCarriedWhole(b.pdus);
    assert b.pdus[j] == q.mem.pdus[j];
    var n := b.pdus[j].receipt;
    assert Faithful(w, false, b.pdus[j]) && IsOwn(w, handed, q.destination, q.mem.pdus[j].receipt);
    assert w.recorded[n] == Blob(false, Bodies(b.pdus)[j]);
  }

  lemma AcceptedGrowth(pc: PC, d: Server, mem: Memory, w: World, ch: Choice)
    ensures var w' := NextWorld(pc, d, mem, w, ch);
            w'.accepted == w.accepted + (if pc.Post? && ch.yes then [TransactionFor(mem, d, pc.batch)] else [])
  {
  }

  lemma OperationAccepts(q: Queue, w: World, t: Tid, ch: Choice, handed: Handed, from: nat)
    requires BooksInv(q, w) && WorldInv(w) && Enabled(q, w, t, ch) && QueueIsOwn(q, w, handed)
    requires AcceptedAreOwn(w, handed, from)
    ensures AcceptedAreOwn(WorldAfter(q, w, t, ch), handed, from)
  {
    var pc, w' := q.threads[t], WorldAfter(q, w, t, ch);
    StepKeepsBooks(q, w, t, ch);
    AcceptedGrowth(pc, q.destination, q.mem, w, ch);
    forall k, j | from <= k < |w'.accepted| && 0 <= j < |w'.accepted[k].pdus|
      ensures BodyIsOwn(w', handed, w'.accepted[k].destination, w'.accepted[k].pdus[j])
    {
      if k < |w.accepted| {
        assert w'.accepted[k] == w.accepted[k];
      } else {
        PostedAreOwn(q, w, t, ch, handed, j);
      }
      BodyStaysOwn(w, w', handed, handed, w'.accepted[k].destination, w'.accepted[k].pdus[j]);
    }
  }

  lemma OperationKeepsOwn(q: Queue, w: World, t: Tid, ch: Choice, handed: Handed)
    requires BooksInv(q, w) && WorldInv(w) && Enabled(q, w, t, ch) && QueueIsOwn(q, w, handed)
    ensures QueueIsOwn(Do(q, w, t, ch), WorldAfter(q, w, t, ch), handed)
  {
    MemoryStaysOwn(q, w, t, ch, handed);
    SendersStayOwn(q, w, t, ch, handed);
    StepKeepsBooks(q, w, t, ch);
    QueueStaysOwn(Do(q, w, t, ch), w, WorldAfter(q, w, t, ch), handed, handed);
  }

  // --- actions and runs ------------------------------------------------------------------------------------------

  function HandedBy(s: System, a: Action): Handed {
    if a.Launch? && a.i in s.queues && SendsPdu(a.pc) then {(s.queues[a.i].destination, a.pc.item.receipt)} else {}
  }

  /** Only a send of a PDU with a body into a queue hands that PDU over, for the destination of that queue. */
  lemma HandedExactly(s: System, a: Action, d: Server, n: Nid)
    requires Possible(s, a)
    ensures (d, n) in HandedBy(s, a) <==>
              && a.Launch? && s.queues[a.i].destination == d
              && exists body :: a.pc == SendCheck(false, Queued(n, Some(body)))
  {
    if (d, n) in HandedBy(s, a) {
      assert a.pc == SendCheck(false, Queued(n, Some(a.pc.item.body.value)));
    }
  }

  ghost function HandedAfter(s: System, handed: Handed, actions: seq<Action>): Handed
    requires IsRun(s, actions)
    decreases |actions|
  {
    if actions == [] then handed else HandedAfter(Apply(s, actions[0]), handed + HandedBy(s, actions[0]), actions[1..])
  }

  lemma BeginKeepsOwn(q: Queue, w: World, t: Tid, pc: PC, handed: Handed)
    requires QueueIsOwn(q, w, handed) && t !in q.threads
    requires SendsPdu(pc) ==> (q.destination, pc.item.receipt) in handed
    ensures QueueIsOwn(Begin(q, t, pc), w, handed)
  {
  }

  lemma NewQueueIsOwn(d: Server, w: World, handed: Handed)
    ensures QueueIsOwn(NewQueue(d), w, handed)
  {
  }

  lemma ActionAccepts(s: System, a: Action, handed: Handed, from: nat)
    requires SystemInv(s) && Possible(s, a) && OwnInv(s, handed, from)
    ensures AcceptedAreOwn(Apply(s, a).world, handed + HandedBy(s, a), from)
  {
    ActionKeepsInv(s, a);
    if a.Operation? {
      OperationAccepts(s.queues[a.i], s.world, a.t, a.ch, handed, from);
    } else {
      AcceptedStayOwn(s.world, Apply(s, a).world, handed, handed + HandedBy(s, a), from);
    }
  }

  lemma ActionKeepsOwn(s: System, a: Action, handed: Handed, from: nat, i: QueueId)
    requires SystemInv(s) && Possible(s, a) && OwnInv(s, handed, from) && i in Apply(s, a).queues
    ensures QueueIsOwn(Apply(s, a).queues[i], Apply(s, a).world, handed + HandedBy(s, a))
  {
    if a.Operation? && a.i == i {
      OperationKeepsOwn(s.queues[i], s.world, a.t, a.ch, handed);
    } else if a.Launch? && a.i == i {
      QueueStaysOwn(s.queues[i], s.world, s.world, handed, handed + HandedBy(s, a));
      BeginKeepsOwn(s.queues[i], s.world, a.t, a.pc, handed + HandedBy(s, a));
    } else if a.Open? && a.i == i {
      NewQueueIsOwn(a.d, s.world, handed + HandedBy(s, a));
    } else {
      ActionKeepsInv(s, a);
      QueueStaysOwn(s.queues[i], s.world, Apply(s, a).world, handed, handed + HandedBy(s, a));
    }
  }

  lemma {:induction false} RunKeepsOwn(s: System, handed: Handed, actions: seq<Action>, from: nat)
    requires SystemInv(s) && IsRun(s, actions) && OwnInv(s, handed, from)
    ensures OwnInv(After(s, actions), HandedAfter(s, handed, actions), from)
    decreases |actions|
  {
    if actions != [] {
      var a, s' := actions[0], Apply(s, actions[0]);
      ActionAccepts(s, a, handed, from);
      forall i | i in s'.queues ensures QueueIsOwn(s'.queues[i], s'.world, handed + HandedBy(s, a)) {
        ActionKeepsOwn(s, a, handed, from, i);
      }
      ActionKeepsInv(s, a);
      RunKeepsOwn(s', handed + HandedBy(s, a), actions[1..], from);
    }
  }

  /**
  In every run, each PDU of a transaction that a destination accepts was associated with that destination, or handed to
  a queue for it. No destination gets the PDUs of another one.
  */
  lemma OnlyOwnPdusAreSent(s: System, actions: seq<Action>, k: nat, j: nat)
    requires Fresh(s) && IsRun(s, actions)
    requires |s.world.accepted| <= k < |After(s, actions).world.accepted|
    requires j < |After(s, actions).world.accepted[k].pdus|
    ensures var w, txn := After(s, actions).world, After(s, actions).world.accepted[k];
            exists n :: n in w.recorded && w.recorded[n] == Blob(false, txn.pdus[j])
                        && IsOwn(w, HandedAfter(s, {}, actions), txn.destination, n)
  {
    RunKeepsOwn(s, {}, actions, |s.world.accepted|);
    var w := After(s, actions).world;
    assert BodyIsOwn(w, HandedAfter(s, {}, actions), w.accepted[k].destination, w.accepted[k].pdus[j]);
  }
}
