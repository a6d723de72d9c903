/**
One round of the worker loop, from a token taken to the end of its transaction: what it amounts to when
nobody else steps in between. The method form of the loop computes the same.
*/
module QueueRounds {
  import opened Wrappers
  import opened Sequences
  import opened QueueMemory
  import opened Delivery
  import opened QueueProtocol

  /** What a round leaves in the queue, the transaction it posted, and whether the worker goes on. */
  datatype Round = Round(pdus: seq<Queued>, edus: seq<Queued>, transactionID: string, notify: bool, backingOff: bool,
                         posted: Option<Transaction>, goOn: bool)

  function RoundOf(d: Server, pdus: seq<Queued>, edus: seq<Queued>, transactionID: string, notify: bool,
                   backingOff: bool, newID: string, accepted: bool, blacklisted: bool): Round {
    var id := if transactionID == "" then newID else transactionID;
    var posted := Transaction(id, d, Bodies(Front(pdus, MAX_PDUS_PER_TRANSACTION)),
                              Bodies(Front(edus, MAX_EDUS_PER_TRANSACTION)));
    if pdus == [] && edus == [] then
      Round(pdus, edus, transactionID, notify, backingOff, None, true)
    else if accepted then
      var pdus', edus' := Back(pdus, MAX_PDUS_PER_TRANSACTION), Back(edus, MAX_EDUS_PER_TRANSACTION);
      Round(pdus', edus', "", notify || pdus' != [] || edus' != [], backingOff, Some(posted), true)
    else if blacklisted then
      Round([], [], id, notify, backingOff, Some(posted), false)
    else
      Round(pdus, edus, id, notify, true, Some(posted), false)
  }

  // --- a queue in which one goroutine steps alone ---------------------------------------------------------

  datatype Point = Point(q: Queue, w: World)

  /** The steps of goroutine `t`, one after the other, with nobody else in between. */
  function Alone(p: Point, t: Tid, choices: seq<Choice>): Point
    requires t in p.q.threads
    decreases |choices|
  {
    if choices == [] then p
    else Alone(Point(Do(p.q, p.w, t, choices[0]), WorldAfter(p.q, p.w, t, choices[0])), t, choices[1..])
  }

  /** Each of them is possible where it happens. */
  ghost predicate MayRunAlone(p: Point, t: Tid, choices: seq<Choice>)
    requires t in p.q.threads
    decreases |choices|
  {
    choices == [] ||
    (Enabled(p.q, p.w, t, choices[0])
     && MayRunAlone(Point(Do(p.q, p.w, t, choices[0]), WorldAfter(p.q, p.w, t, choices[0])), t, choices[1..]))
  }

  /** The part of the state that goroutine `t` works on. */
  datatype Local = Local(pc: PC, sig: Signals, mem: Memory, w: World, lock: Option<Tid>, marks: Marks)

  function Seen(p: Point, t: Tid): Local
    requires t in p.q.threads
  {
    Local(p.q.threads[t], p.q.sig, p.q.mem, p.w, p.q.lock, p.q.marks)
  }

  function Step(l: Local, d: Server, t: Tid, ch: Choice): Local {
    var pc' := NextPC(l.pc, d, l.sig, l.mem, l.w, ch);
    Local(pc', NextSignals(l.pc, l.sig, l.mem, ch), NextMemory(l.pc, l.mem, ch),
          NextWorld(l.pc, d, l.mem, l.w, ch), Hold(l.lock, HoldsLock(pc'), t),
          NextMarks(l.pc, d, l.sig, l.mem, l.marks, l.w))
  }

  ghost predicate MayStepHere(l: Local, d: Server, ch: Choice) {
    !l.pc.WakeTest? && MayStep(l.pc, d, l.sig, l.w, ch) && (TakesLock(l.pc) ==> l.lock.None?)
  }

  /** A step of the whole queue does just this to the part of the state that its goroutine works on. */
  lemma DoIsStep(p: Point, t: Tid, ch: Choice)
    requires t in p.q.threads && MayStepHere(Seen(p, t), p.q.destination, ch)
    ensures Enabled(p.q, p.w, t, ch)
    ensures OthersWait(p, Point(Do(p.q, p.w, t, ch), WorldAfter(p.q, p.w, t, ch)), t)
    ensures Seen(Point(Do(p.q, p.w, t, ch), WorldAfter(p.q, p.w, t, ch)), t) == Step(Seen(p, t), p.q.destination, t, ch)
  {
  }

  /** Nobody else has moved, and nobody was started. */
  predicate OthersWait(p: Point, end: Point, t: Tid) {
    end.q.destination == p.q.destination && end.q.threads.Keys == p.q.threads.Keys
    && forall u :: u in p.q.threads && u != t ==> end.q.threads[u] == p.q.threads[u]
  }

  function Stepper(d: Server, t: Tid): (Local, Choice) -> Local {
    (l, ch) => Step(l, d, t, ch)
  }

  ghost function Guard(d: Server): (Local, Choice) -> bool {
    (l, ch) => MayStepHere(l, d, ch)
  }

  function Steps(l: Local, d: Server, t: Tid, choices: seq<Choice>): Local {
    Fold(Stepper(d, t), l, choices)
  }

  ghost predicate MaySteps(l: Local, d: Server, t: Tid, choices: seq<Choice>) {
    FoldsUnder(Stepper(d, t), Guard(d), l, choices)
  }

  lemma {:induction false} AloneIsSteps(p: Point, t: Tid, choices: seq<Choice>)
    requires t in p.q.threads && MaySteps(Seen(p, t), p.q.destination, t, choices)
    ensures MayRunAlone(p, t, choices)
    ensures t in Alone(p, t, choices).q.threads
    ensures Seen(Alone(p, t, choices), t) == Steps(Seen(p, t), p.q.destination, t, choices)
    ensures OthersWait(p, Alone(p, t, choices), t)
    decreases |choices|
  {
    if choices != [] {
      DoIsStep(p, t, choices[0]);
      var next := Point(Do(p.q, p.w, t, choices[0]), WorldAfter(p.q, p.w, t, choices[0]));
      assert next.q.destination == p.q.destination;
      AloneIsSteps(next, t, choices[1..]);
    }
  }

  lemma StepsInParts(l: Local, d: Server, t: Tid, first: seq<Choice>, second: seq<Choice>)
    requires MaySteps(l, d, t, first) && MaySteps(Steps(l, d, t, first), d, t, second)
    ensures MaySteps(l, d, t, first + second)
    ensures Steps(l, d, t, first + second) == Steps(Steps(l, d, t, first), d, t, second)
  {
    FoldInParts(Stepper(d, t), Guard(d), l, first, second);
  }

  // --- the parts of a round ---------------------------------------------------------------------------------

  /** The answers and outcomes of a round, in order. */
  datatype Outcomes = Outcomes(pick: Choice, build: Choice, post: Choice, cleanPdus: Choice, cleanEdus: Choice,
                               reset: Choice, succeed: Choice, drop: Choice, notify: Choice,
                               fail: Choice, leave: Choice)

  function Sending(o: Outcomes): seq<Choice> {
    [o.pick, o.build, o.post]
  }

  function CleaningUp(o: Outcomes): seq<Choice> {
    [o.cleanPdus, o.cleanEdus, o.reset, o.succeed]
  }

  function Dropping(o: Outcomes): seq<Choice> {
    [o.drop, o.notify]
  }

  function GivingUp(o: Outcomes): seq<Choice> {
    [o.fail, o.leave]
  }

  /** The choices that a round comes to. */
  function Course(mem: Memory, o: Outcomes): seq<Choice> {
    if !HasPending(mem) then [o.pick]
    else if o.post.yes then Sending(o) + (CleaningUp(o) + Dropping(o))
    else Sending(o) + GivingUp(o)
  }

  function NextId(mem: Memory, o: Outcomes): string {
    if mem.transactionID == "" then o.build.id else mem.transactionID
  }

  /** The transaction that is posted on the way. */
  function PostedTransaction(mem: Memory, d: Server, o: Outcomes): Transaction {
    var b := NextBatch(mem);
    Transaction(NextId(mem, o), d, Bodies(b.pdus), Bodies(b.edus))
  }

  lemma OneStep(l: Local, d: Server, t: Tid, a: Choice)
    requires MayStepHere(l, d, a)
    ensures MaySteps(l, d, t, [a]) && Steps(l, d, t, [a]) == Step(l, d, t, a)
  {
    assert [a][1..] == [];
    assert Fold(Stepper(d, t), Step(l, d, t, a), []) == Step(l, d, t, a);
  }

  lemma FrontStep(l: Local, d: Server, t: Tid, a: Choice, rest: seq<Choice>)
    requires MayStepHere(l, d, a) && MaySteps(Step(l, d, t, a), d, t, rest)
    ensures MaySteps(l, d, t, [a] + rest) && Steps(l, d, t, [a] + rest) == Steps(Step(l, d, t, a), d, t, rest)
  {
    assert ([a] + rest)[1..] == rest;
  }

  lemma TwoSteps(l: Local, d: Server, t: Tid, a: Choice, b: Choice)
    requires MayStepHere(l, d, a) && MayStepHere(Step(l, d, t, a), d, b)
    ensures MaySteps(l, d, t, [a, b]) && Steps(l, d, t, [a, b]) == Step(Step(l, d, t, a), d, t, b)
  {
    OneStep(Step(l, d, t, a), d, t, b);
    FrontStep(l, d, t, a, [b]);
    assert [a, b] == [a] + [b];
  }

  lemma SendingIs(l: Local, d: Server, t: Tid, o: Outcomes)
    requires l.pc.Pick? && HasPending(l.mem) && l.lock.None? && o.build.id != ""
    ensures MaySteps(l, d, t, Sending(o))
    ensures var after := Steps(l, d, t, Sending(o)); var b := NextBatch(l.mem);
            && after.pc == (if o.post.yes then CleanPdus(b) else Fail) && after.sig == l.sig && after.lock.None?
            && after.mem.pdus == l.mem.pdus && after.mem.edus == l.mem.edus
            && after.mem.transactionID == NextId(l.mem, o) && after.mem.tried == l.mem.tried + [b]
            && after.marks == l.marks
            && after.w ==
                 (if o.post.yes then l.w.(accepted := l.w.accepted + [PostedTransaction(l.mem, d, o)]) else l.w)
  {
    var b := NextBatch(l.mem);
    var picked := Step(l, d, t, o.pick);
    assert picked == Local(Build(b), l.sig, l.mem, l.w, None, l.marks);
    var built := Step(picked, d, t, o.build);
    assert built == Local(Post(b), l.sig, l.mem.(transactionID := NextId(l.mem, o)), l.w, None,
                          l.marks);
    TwoSteps(picked, d, t, o.build, o.post);
    FrontStep(l, d, t, o.pick, [o.build, o.post]);
    assert Sending(o) == [o.pick] + [o.build, o.post];
  }

  /** The store after the clean-up of a batch; `pdus` and `edus` say whether its two halves succeed. */
  function StoreCleaned(w: World, d: Server, b: Batch, pdus: bool, edus: bool): World {
    var w1 := if ReceiptList(b.pdus) != [] && pdus then CleanPDUs(w, d, Elements(ReceiptList(b.pdus))) else w;
    if ReceiptList(b.edus) != [] && edus then CleanEDUs(w1, d, Elements(ReceiptList(b.edus))) else w1
  }

  lemma StoreCleanedIsExact(w: World, d: Server, b: Batch, pdus: bool, edus: bool)
    ensures var w' := StoreCleaned(w, d, b, pdus, edus);
            && w'.accepted == w.accepted && w'.blacklisted == w.blacklisted
            && (forall e, n :: (e, n) in w'.pduRows <==>
                  (e, n) in w.pduRows && !(pdus && e == d && n in ReceiptList(b.pdus)))
            && (forall e, n :: (e, n) in w'.eduRows <==>
                  (e, n) in w.eduRows && !(edus && e == d && n in ReceiptList(b.edus)))
  {
    var w1 := if ReceiptList(b.pdus) != [] && pdus then CleanPDUs(w, d, Elements(ReceiptList(b.pdus))) else w;
    CleanPDUsIsExact(w, d, Elements(ReceiptList(b.pdus)));
    CleanEDUsIsExact(w1, d, Elements(ReceiptList(b.edus)));
  }

  lemma CleaningIs(l: Local, d: Server, t: Tid, a: Choice, b: Choice, batch: Batch)
    requires l.pc == CleanPdus(batch) && l.lock.None?
    ensures MaySteps(l, d, t, [a, b])
    ensures Steps(l, d, t, [a, b]) == l.(pc := ResetId(batch), w := StoreCleaned(l.w, d, batch, a.yes, b.yes))
  {
    TwoSteps(l, d, t, a, b);
  }

  lemma SettlingIs(l: Local, d: Server, t: Tid, a: Choice, b: Choice, batch: Batch)
    requires l.pc == ResetId(batch) && l.lock.None?
    ensures MaySteps(l, d, t, [a, b])
    ensures var after := Steps(l, d, t, [a, b]);
            && after.pc == Drop(batch) && after.sig == l.sig && after.lock.None?
            && after.mem.pdus == l.mem.pdus && after.mem.edus == l.mem.edus && after.mem.transactionID == ""
            && after.w == l.w.(blacklisted := l.w.blacklisted - {d})
  {
    TwoSteps(l, d, t, a, b);
  }

  lemma CleaningUpIs(l: Local, d: Server, t: Tid, o: Outcomes, b: Batch)
    requires l.pc == CleanPdus(b) && l.lock.None?
    ensures MaySteps(l, d, t, CleaningUp(o))
    ensures var after := Steps(l, d, t, CleaningUp(o));
            && after.pc == Drop(b) && after.sig == l.sig && after.lock.None?
            && after.mem.pdus == l.mem.pdus && after.mem.edus == l.mem.edus && after.mem.transactionID == ""
            && var w' := StoreCleaned(l.w, d, b, o.cleanPdus.yes, o.cleanEdus.yes);
               after.w == w'.(blacklisted := w'.blacklisted - {d})
  {
    CleaningIs(l, d, t, o.cleanPdus, o.cleanEdus, b);
    var cleaned := Steps(l, d, t, [o.cleanPdus, o.cleanEdus]);
    SettlingIs(cleaned, d, t, o.reset, o.succeed, b);
    StepsInParts(l, d, t, [o.cleanPdus, o.cleanEdus], [o.reset, o.succeed]);
    assert CleaningUp(o) == [o.cleanPdus, o.cleanEdus] + [o.reset, o.succeed];
  }

  lemma DroppingIs(l: Local, d: Server, t: Tid, o: Outcomes, b: Batch)
    requires l.pc == Drop(b) && l.lock.None?
    ensures MaySteps(l, d, t, Dropping(o))
    ensures var after := Steps(l, d, t, Dropping(o));
            && after.pc == Loop && after.w == l.w && after.lock.None?
            && after.mem.pdus == Back(l.mem.pdus, |b.pdus|) && after.mem.edus == Back(l.mem.edus, |b.edus|)
            && after.mem.transactionID == l.mem.transactionID
            && after.sig == l.sig.(notify := l.sig.notify || HasPending(after.mem))
  {
    TwoSteps(l, d, t, o.drop, o.notify);
  }

  lemma GivingUpIs(l: Local, d: Server, t: Tid, o: Outcomes)
    requires l.pc == Fail && l.lock.None?
    ensures MaySteps(l, d, t, GivingUp(o))
    ensures var after := Steps(l, d, t, GivingUp(o));
            && after.pc == Stop && after.mem.transactionID == l.mem.transactionID
            && after.w == l.w.(blacklisted := l.w.blacklisted + if o.fail.yes then {d} else {})
            && after.lock.None? && after.marks == l.marks
            && (d !in l.w.blacklisted && !o.fail.yes ==> after.mem == l.mem && after.w == l.w)
            && (if d in l.w.blacklisted || o.fail.yes
                then after.mem.pdus == [] && after.mem.edus == [] && after.sig == l.sig
                else (after.mem.pdus == l.mem.pdus && after.mem.edus == l.mem.edus
                      && after.sig == l.sig.(backingOff := true)))
  {
    TwoSteps(l, d, t, o.fail, o.leave);
  }

  lemma BackOfFront<T>(list: seq<T>, n: nat)
    ensures Back(list, |Front(list, n)|) == Back(list, n)
  {
  }

  // --- the round as a whole ---------------------------------------------------------------------------------

  /** What a local state looks like as a round. */
  function AsRound(l: Local, posted: Option<Transaction>): Round {
    Round(l.mem.pdus, l.mem.edus, l.mem.transactionID, l.sig.notify, l.sig.backingOff, posted, l.pc.Loop?)
  }

  function Expected(l: Local, d: Server, o: Outcomes): Round {
    RoundOf(d, l.mem.pdus, l.mem.edus, l.mem.transactionID, l.sig.notify, l.sig.backingOff,
            o.build.id, o.post.yes, d in l.w.blacklisted || o.fail.yes)
  }

  /** Exactly the rows of the carried items are gone, of PDUs and EDUs if their clean-up succeeds. */
  ghost predicate RowsTaken(l: Local, end: Local, d: Server, o: Outcomes) {
    var b := NextBatch(l.mem);
    && (forall e, n :: (e, n) in end.w.pduRows <==>
          (e, n) in l.w.pduRows && !(o.cleanPdus.yes && e == d && n in ReceiptList(b.pdus)))
    && (forall e, n :: (e, n) in end.w.eduRows <==>
          (e, n) in l.w.eduRows && !(o.cleanEdus.yes && e == d && n in ReceiptList(b.edus)))
  }

  lemma SuccessfulRound(l: Local, d: Server, t: Tid, o: Outcomes)
    requires l.pc.Pick? && HasPending(l.mem) && l.lock.None? && o.build.id != "" && o.post.yes
    ensures MaySteps(l, d, t, Course(l.mem, o))
    ensures var end := Steps(l, d, t, Course(l.mem, o));
            && AsRound(end, Some(PostedTransaction(l.mem, d, o))) == Expected(l, d, o)
            && end.w.accepted == l.w.accepted + [PostedTransaction(l.mem, d, o)]
            && end.w.blacklisted == l.w.blacklisted - {d} && RowsTaken(l, end, d, o)
  {
    var b := NextBatch(l.mem);
    SendingIs(l, d, t, o);
    var sent := Steps(l, d, t, Sending(o));
    CleaningUpIs(sent, d, t, o, b);
    var cleaned := Steps(sent, d, t, CleaningUp(o));
    DroppingIs(cleaned, d, t, o, b);
    StepsInParts(sent, d, t, CleaningUp(o), Dropping(o));
    StepsInParts(l, d, t, Sending(o), CleaningUp(o) + Dropping(o));
    StoreCleanedIsExact(sent.w, d, b, o.cleanPdus.yes, o.cleanEdus.yes);
    BackOfFront(l.mem.pdus, MAX_PDUS_PER_TRANSACTION);
    BackOfFront(l.mem.edus, MAX_EDUS_PER_TRANSACTION);
  }

  lemma FailedRound(l: Local, d: Server, t: Tid, o: Outcomes)
    requires l.pc.Pick? && HasPending(l.mem) && l.lock.None? && o.build.id != "" && !o.post.yes
    ensures MaySteps(l, d, t, Course(l.mem, o))
    ensures var end := Steps(l, d, t, Course(l.mem, o));
            && AsRound(end, Some(PostedTransaction(l.mem, d, o))) == Expected(l, d, o)
            && end.w == l.w.(blacklisted := l.w.blacklisted + if o.fail.yes then {d} else {})
  {
    SendingIs(l, d, t, o);
    var sent := Steps(l, d, t, Sending(o));
    GivingUpIs(sent, d, t, o);
    StepsInParts(l, d, t, Sending(o), GivingUp(o));
  }

  lemma EmptyRound(l: Local, d: Server, t: Tid, o: Outcomes)
    requires l.pc.Pick? && !HasPending(l.mem) && l.lock.None?
    ensures MaySteps(l, d, t, Course(l.mem, o))
    ensures var end := Steps(l, d, t, Course(l.mem, o));
            AsRound(end, None) == Expected(l, d, o) && end.w == l.w
  {
    OneStep(l, d, t, o.pick);
  }

  /**
  From any state of a queue whose worker is about to pick a batch with the pending mutex free: the steps of a round
  are all possible, and if nobody else steps in between, the queue ends as `RoundOf` says, and the one transaction
  that is accepted on the way, if any, is the one posted. From the store go exactly the rows of the items it carried;
  without a success nothing does.
  */
  lemma StepsMakeTheRound(q: Queue, w: World, t: Tid, o: Outcomes)
    requires t in q.threads && q.threads[t].Pick? && q.lock.None? && o.build.id != ""
    ensures MayRunAlone(Point(q, w), t, Course(q.mem, o))
    ensures var end := Alone(Point(q, w), t, Course(q.mem, o));
            var posted := if HasPending(q.mem) then Some(PostedTransaction(q.mem, q.destination, o)) else None;
            && t in end.q.threads
            && Round(end.q.mem.pdus, end.q.mem.edus, end.q.mem.transactionID, end.q.sig.notify, end.q.sig.backingOff,
                     posted, end.q.threads[t].Loop?) ==
                 RoundOf(q.destination, q.mem.pdus, q.mem.edus, q.mem.transactionID, q.sig.notify, q.sig.backingOff,
                         o.build.id, o.post.yes, q.destination in w.blacklisted || o.fail.yes)
            && end.w.accepted == w.accepted + (if posted.Some? && o.post.yes then [posted.value] else [])
            && (if posted.Some? && o.post.yes
                then RowsTaken(Seen(Point(q, w), t), Seen(end, t), q.destination, o)
                else end.w.pduRows == w.pduRows && end.w.eduRows == w.eduRows && end.w.blobs == w.blobs)
            && end.w.blacklisted ==
                 (if posted.None? then w.blacklisted
                  else if o.post.yes then w.blacklisted - {q.destination}
                  else w.blacklisted + if o.fail.yes then {q.destination} else {})
  {
    var l, d := Seen(Point(q, w), t), q.destination;
    if !HasPending(q.mem) {
      EmptyRound(l, d, t, o);
    } else if o.post.yes {
      SuccessfulRound(l, d, t, o);
    } else {
      FailedRound(l, d, t, o);
    }
    AloneIsSteps(Point(q, w), t, Course(q.mem, o));
  }
}
