/**
What the goroutines of a queue do when nobody else steps in between, from where they begin to where they end or wait:
a send, a waker, a backoff callback, a retry, a worker up to its first wait, a closing worker. The methods of the
class promise the same.
*/
module QueueCourses {
  import opened Wrappers
  import opened QueueMemory
  import opened Delivery
  import opened QueueProtocol
  import opened QueueInvariants
  import opened QueueRounds

  function Plain(child: Tid): Choice {
    Choice(None, false, TakeToken, "", child)
  }

  function Answer(rows: Option<seq<Queued>>): Choice {
    Choice(rows, false, TakeToken, "", 0)
  }

  function Waiting(select: Select): Choice {
    Choice(None, false, select, "", 0)
  }

  // --- a send ---------------------------------------------------------------------------------------------

  predicate TurnedAway(l: Local, d: Server, item: Queued) {
    item.body.None? || d in l.w.blacklisted
  }

  /** The item is appended below 128 of its kind, or `overflowed` is set. */
  predicate Taken(l: Local, end: Local, edu: bool, item: Queued) {
    && end.mem.pdus == (if !edu && |l.mem.pdus| < 128 then l.mem.pdus + [item] else l.mem.pdus)
    && end.mem.edus == (if edu && |l.mem.edus| < 128 then l.mem.edus + [item] else l.mem.edus)
    && end.sig == l.sig.(overflowed := l.sig.overflowed || (if edu then |l.mem.edus| else |l.mem.pdus|) >= 128)
    && SameId(l, end) && end.w == l.w && end.marks == l.marks && end.lock == l.lock
  }

  predicate SameId(l: Local, end: Local) {
    && end.mem.transactionID == l.mem.transactionID && end.mem.attempts == l.mem.attempts
    && end.mem.tried == l.mem.tried && end.mem.stale == l.mem.stale
  }

  lemma AppendIs(l: Local, d: Server, t: Tid, ch: Choice)
    requires l.pc.SendAppend? && l.lock.None?
    ensures MayStepHere(l, d, ch)
    ensures var end := Step(l, d, t, ch); end.pc == SendTest && Taken(l, end, l.pc.edu, l.pc.item)
  {
  }

  /**
  sendEvent and sendEDU: nothing happens for a nil event or a blacklisted destination; otherwise the item is taken, and
  the queue is woken unless it backs off, which a send leaves alone.
  */
  lemma SendCourse(l: Local, d: Server, t: Tid, edu: bool, item: Queued)
    requires l.pc == SendCheck(edu, item) && l.lock.None?
    ensures TurnedAway(l, d, item) ==>
              MaySteps(l, d, t, [Plain(0)]) && Steps(l, d, t, [Plain(0)]) == l.(pc := Done)
    ensures !TurnedAway(l, d, item) ==>
              && MaySteps(l, d, t, [Plain(0), Plain(0), Plain(0)])
              && var end := Steps(l, d, t, [Plain(0), Plain(0), Plain(0)]);
                 Taken(l, end, edu, item) && end.pc == if l.sig.backingOff then Done else WakeNotify
  {
    OneStep(l, d, t, Plain(0));
    if !TurnedAway(l, d, item) {
      var a := l.(pc := SendAppend(edu, item));
      assert Step(l, d, t, Plain(0)) == a;
      AppendIs(a, d, t, Plain(0));
      var b := Step(a, d, t, Plain(0));
      TestIs(b, d, t);
      TwoSteps(a, d, t, Plain(0), Plain(0));
      FrontStep(l, d, t, Plain(0), [Plain(0), Plain(0)]);
      assert [Plain(0), Plain(0), Plain(0)] == [Plain(0)] + [Plain(0), Plain(0)];
    }
  }

  lemma TestIs(l: Local, d: Server, t: Tid)
    requires l.pc == SendTest && l.lock != Some(t)
    ensures MayStepHere(l, d, Plain(0))
    ensures Step(l, d, t, Plain(0)) == l.(pc := if l.sig.backingOff then Done else WakeNotify)
  {
  }

  // --- wakers ---------------------------------------------------------------------------------------------

  /** handleBackoffNotifier acts exactly when the queue is still backing off. */
  lemma BackoffCourse(l: Local, d: Server, t: Tid)
    requires l.pc == BackoffTest && l.lock != Some(t)
    ensures MayStepHere(l, d, Plain(0))
    ensures Step(l, d, t, Plain(0)) == l.(pc := if l.sig.backingOff then WakeNotify else Done)
  {
  }

  /** wakeQueueIfEventsPending acts exactly when something is pending. */
  lemma RetryCourse(l: Local, d: Server, t: Tid)
    requires l.pc == RetryTest && l.lock.None?
    ensures MayStepHere(l, d, Plain(0))
    ensures Step(l, d, t, Plain(0)) == l.(pc := if l.mem.pdus != [] || l.mem.edus != [] then WakeNotify else Done)
  {
  }

  /** wakeQueueAndNotify up to its last test: the token goes in before `backingOff` is cleared. */
  lemma WakeCourse(l: Local, d: Server, t: Tid)
    requires l.pc == WakeNotify && l.lock != Some(t)
    ensures MaySteps(l, d, t, [Plain(0), Plain(0)])
    ensures Steps(l, d, t, [Plain(0), Plain(0)]) ==
              l.(pc := WakeTest, sig := l.sig.(notify := true, backingOff := false))
  {
    assert Step(l, d, t, Plain(0)) == l.(pc := WakeClear, sig := l.sig.(notify := true));
    TwoSteps(l, d, t, Plain(0), Plain(0));
  }

  /** The last test: a worker is started exactly when none is running. */
  lemma WakeEnds(q: Queue, w: World, t: Tid, child: Tid)
    requires t in q.threads && q.threads[t] == WakeTest && child !in q.threads
    requires q.lock != Some(t) && q.owner != Some(t)
    ensures Enabled(q, w, t, Plain(child)) && WorldAfter(q, w, t, Plain(child)) == w
    ensures Do(q, w, t, Plain(child)) ==
              q.(threads := if q.sig.running then q.threads[t := Done] else q.threads[t := Done][child := Start])
  {
  }

  // --- a worker up to its first wait ------------------------------------------------------------------------

  function Entering(): seq<Choice> {
    [Plain(0), Plain(0)] + [Plain(0), Plain(0)]
  }

  function Scanning(pdus: Option<seq<Queued>>, edus: Option<seq<Queued>>): seq<Choice> {
    [Answer(pdus), Answer(edus)] + [Plain(0), Plain(0)]
  }

  /** A worker gives up at once on shutdown, and when another one is running. */
  lemma GivesWay(l: Local, d: Server, t: Tid)
    requires l.lock != Some(t)
    ensures l.pc == Start && l.w.shutdown ==>
              MayStepHere(l, d, Plain(0))
              && Step(l, d, t, Plain(0)) == l.(pc := Done, marks := l.marks.(leftOnShutdown := true))
    ensures l.pc == Claim && l.sig.running ==>
              MayStepHere(l, d, Plain(0)) && Step(l, d, t, Plain(0)) == l.(pc := Done)
  {
  }

  /** Otherwise it claims the queue and consults the database, whatever `overflowed` was. */
  lemma EnteringIs(l: Local, d: Server, t: Tid)
    requires l.pc == Start && !l.w.shutdown && !l.sig.running && l.lock.None?
    ensures MaySteps(l, d, t, Entering())
    ensures Steps(l, d, t, Entering()) ==
              Local(ScanPdus, l.sig.(running := true, overflowed := true), l.mem, l.w, None, l.marks)
  {
    var a := Local(Mark, l.sig.(running := true), l.mem, l.w, None, l.marks);
    assert Step(l, d, t, Plain(0)) == l.(pc := Claim);
    assert Step(l.(pc := Claim), d, t, Plain(0)) == a;
    TwoSteps(l, d, t, Plain(0), Plain(0));
    var b := a.(pc := Loop, sig := a.sig.(overflowed := true));
    assert Step(a, d, t, Plain(0)) == b;
    TwoSteps(a, d, t, Plain(0), Plain(0));
    StepsInParts(l, d, t, [Plain(0), Plain(0)], [Plain(0), Plain(0)]);
  }

  /** Back at the top of the loop the database is consulted exactly if `overflowed` is set. */
  lemma LoopIs(l: Local, d: Server, t: Tid)
    requires l.pc == Loop && l.lock != Some(t)
    ensures MayStepHere(l, d, Plain(0))
    ensures Step(l, d, t, Plain(0)) == l.(pc := if l.sig.overflowed then ScanPdus else Wait)
  {
  }

  ghost predicate MayAnswer(w: World, d: Server, pdus: Option<seq<Queued>>, edus: Option<seq<Queued>>) {
    && (pdus.Some? ==> Answers(pdus.value, StoredFor(w, w.pduRows, d)))
    && (edus.Some? ==> Answers(edus.value, StoredFor(w, w.eduRows, d)))
  }

  predicate Full(l: Local, pdus: Option<seq<Queued>>, edus: Option<seq<Queued>>) {
    AnswerIsFull(l.mem.pdus, pdus) || AnswerIsFull(l.mem.edus, edus)
  }

  /** Both lists are topped up; nothing else changes but the signals. */
  predicate ToppedUp(l: Local, end: Local, pdus: Option<seq<Queued>>, edus: Option<seq<Queued>>) {
    && end.mem.pdus == TopUp(l.mem.pdus, pdus) && end.mem.edus == TopUp(l.mem.edus, edus)
    && SameId(l, end) && end.w == l.w && end.marks == l.marks
  }

  /**
  getPendingFromDatabase: both lists are topped up, `overflowed` stays exactly if one of the two answers was full, and
  a token is put in if anything came.
  */
  lemma ScanCourse(l: Local, d: Server, t: Tid, pdus: Option<seq<Queued>>, edus: Option<seq<Queued>>)
    requires l.pc == ScanPdus && l.lock.None? && MayAnswer(l.w, d, pdus, edus)
    ensures MaySteps(l, d, t, Scanning(pdus, edus))
    ensures var end := Steps(l, d, t, Scanning(pdus, edus));
            && ToppedUp(l, end, pdus, edus) && end.lock.None? && end.pc == Wait
            && end.sig == l.sig.(overflowed := l.sig.overflowed && Full(l, pdus, edus),
                                 notify := l.sig.notify || end.mem.pdus != l.mem.pdus || end.mem.edus != l.mem.edus)
    ensures Full(l, pdus, edus) <==>
              || (|l.mem.pdus| < 128 && pdus.Some? && |pdus.value| == 128)
              || (|l.mem.edus| < 128 && edus.Some? && |edus.value| == 128)
  {
    var a := Step(l, d, t, Answer(pdus));
    var b := Step(a, d, t, Answer(edus));
    ScanLists(l, d, t, pdus, edus);
    TwoSteps(l, d, t, Answer(pdus), Answer(edus));
    ScanEnds(b, d, t);
    StepsInParts(l, d, t, [Answer(pdus), Answer(edus)], [Plain(0), Plain(0)]);
  }

  lemma ScanLists(l: Local, d: Server, t: Tid, pdus: Option<seq<Queued>>, edus: Option<seq<Queued>>)
    requires l.pc == ScanPdus && l.lock.None? && MayAnswer(l.w, d, pdus, edus)
    ensures MayStepHere(l, d, Answer(pdus)) && MayStepHere(Step(l, d, t, Answer(pdus)), d, Answer(edus))
    ensures var end := Step(Step(l, d, t, Answer(pdus)), d, t, Answer(edus));
            && ToppedUp(l, end, pdus, edus) && end.lock == Some(t) && end.sig == l.sig
            && end.pc == ScanFlag(Full(l, pdus, edus), end.mem.pdus != l.mem.pdus || end.mem.edus != l.mem.edus)
  {
    ScansPdus(l, d, t, pdus);
    ScansEdus(Step(l, d, t, Answer(pdus)), d, t, edus);
  }

  lemma ScansPdus(l: Local, d: Server, t: Tid, pdus: Option<seq<Queued>>)
    requires l.pc == ScanPdus
    ensures var end := Step(l, d, t, Answer(pdus));
            && ToppedUp(l, end, pdus, None) && end.lock == Some(t) && end.sig == l.sig
            && end.pc == ScanEdus(AnswerIsFull(l.mem.pdus, pdus), end.mem.pdus != l.mem.pdus)
  {
  }

  lemma ScansEdus(l: Local, d: Server, t: Tid, edus: Option<seq<Queued>>)
    requires l.pc.ScanEdus?
    ensures var end := Step(l, d, t, Answer(edus));
            && ToppedUp(l, end, None, edus) && end.lock == Some(t) && end.sig == l.sig
            && end.pc == ScanFlag(l.pc.full || AnswerIsFull(l.mem.edus, edus),
                                  l.pc.retrieved || end.mem.edus != l.mem.edus)
  {
  }

  lemma ScanEnds(l: Local, d: Server, t: Tid)
    requires l.pc.ScanFlag? && l.lock == Some(t)
    ensures MaySteps(l, d, t, [Plain(0), Plain(0)])
    ensures Steps(l, d, t, [Plain(0), Plain(0)]) ==
              l.(pc := Wait, lock := None, sig := l.sig.(overflowed := l.sig.overflowed && l.pc.full,
                                                         notify := l.sig.notify || l.pc.retrieved))
  {
    var a := Step(l, d, t, Plain(0));
    assert a == l.(pc := ScanNotify(l.pc.retrieved), sig := l.sig.(overflowed := l.sig.overflowed && l.pc.full));
    TwoSteps(l, d, t, Plain(0), Plain(0));
  }

  // --- waiting and closing ----------------------------------------------------------------------------------

  /** A wait ends with a token, if there is one, which is used up; with the idle timeout; or on shutdown. */
  lemma WaitEnds(l: Local, d: Server, t: Tid, select: Select)
    requires l.pc == Wait && l.lock != Some(t)
    ensures MayStepHere(l, d, Waiting(select)) <==>
              (select.TakeToken? ==> l.sig.notify) && (select.Quit? ==> l.w.shutdown)
    ensures Step(l, d, t, Waiting(select)) ==
              if select.TakeToken? then l.(pc := Pick, sig := l.sig.(notify := false)) else l.(pc := Stop)
  {
  }

  /** The batch: the front of each list, 50 PDUs and 100 EDUs or as many as there are; with nothing pending none. */
  lemma PickCourse(l: Local, d: Server, t: Tid)
    requires l.pc == Pick && l.lock.None?
    ensures MayStepHere(l, d, Plain(0))
    ensures var end := Step(l, d, t, Plain(0));
            && end == l.(pc := end.pc)
            && (l.mem.pdus == [] && l.mem.edus == [] ==> end.pc == Loop)
            && (l.mem.pdus != [] || l.mem.edus != [] ==>
                  && end.pc.Build?
                  && end.pc.batch.pdus <= l.mem.pdus
                  && |end.pc.batch.pdus| == (if |l.mem.pdus| > 50 then 50 else |l.mem.pdus|)
                  && end.pc.batch.edus <= l.mem.edus
                  && |end.pc.batch.edus| == (if |l.mem.edus| > 100 then 100 else |l.mem.edus|))
  {
  }

  /**
  backgroundSend's deferred calls: `running` is cleared first, and then, unless the destination is blacklisted, a token
  that is there is taken and handed to a waker.
  */
  lemma CloseCourse(l: Local, d: Server, t: Tid)
    requires l.pc == Stop && l.lock != Some(t)
    ensures MaySteps(l, d, t, [Plain(0), Plain(0)])
    ensures var end := Steps(l, d, t, [Plain(0), Plain(0)]);
            if d in l.w.blacklisted
            then end == l.(pc := Done, sig := l.sig.(running := false), marks := l.marks.(leftOnBlacklist := true))
            else (&& end == l.(pc := CloseTake, sig := l.sig.(running := false))
                  && MayStepHere(end, d, Plain(0))
                  && Step(end, d, t, Plain(0)) ==
                       end.(pc := if l.sig.notify then WakeNotify else Done, sig := end.sig.(notify := false)))
  {
    StopIs(l, d, t);
    var stopped := l.(pc := CloseCheck, sig := l.sig.(running := false));
    CheckIs(stopped, d, t);
    TwoSteps(l, d, t, Plain(0), Plain(0));
    if d !in l.w.blacklisted {
      TakeIs(stopped.(pc := CloseTake), d, t);
    }
  }

  lemma StopIs(l: Local, d: Server, t: Tid)
    requires l.pc == Stop && l.lock != Some(t)
    ensures MayStepHere(l, d, Plain(0))
    ensures Step(l, d, t, Plain(0)) == l.(pc := CloseCheck, sig := l.sig.(running := false))
  {
  }

  lemma CheckIs(l: Local, d: Server, t: Tid)
    requires l.pc == CloseCheck && l.lock != Some(t)
    ensures MayStepHere(l, d, Plain(0))
    ensures Step(l, d, t, Plain(0)) ==
              if d in l.w.blacklisted then l.(pc := Done, marks := l.marks.(leftOnBlacklist := true))
              else l.(pc := CloseTake)
  {
  }

  lemma TakeIs(l: Local, d: Server, t: Tid)
    requires l.pc == CloseTake && l.lock != Some(t)
    ensures MayStepHere(l, d, Plain(0))
    ensures Step(l, d, t, Plain(0)) ==
              l.(pc := if l.sig.notify then WakeNotify else Done, sig := l.sig.(notify := false))
  {
  }
}
