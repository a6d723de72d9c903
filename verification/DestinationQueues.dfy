/**
The methods of a destination queue as code: each is proved against the functions that the step system
uses for the same piece of work, running alone.
*/
module DestinationQueues {
  import opened Wrappers
  import opened QueueMemory
  import opened Delivery
  import opened QueueRounds

  /** What the remote side and the local relay settings do to one send. */
  datatype Remote = Remote(direct: bool, assumedOffline: bool, relays: seq<bool>, userIdValid: bool)

  /** A send succeeds directly, or, towards a server assumed offline, through any one of its relays. */
  predicate Accepts(r: Remote) {
    r.direct || (r.assumedOffline && r.userIdValid && exists k :: 0 <= k < |r.relays| && r.relays[k])
  }

  class DestinationQueue {
    const destination: Server
    var notify: bool
    var running: bool
    var backingOff: bool
    var overflowed: bool
    var transactionID: string
    var pendingPDUs: seq<Queued>
    var pendingEDUs: seq<Queued>
    var hasNotifier: bool         // the backoff timer's callback leads to this queue

    ghost predicate Valid()
      reads this
    {
      && |pendingPDUs| <= MAX_IN_MEMORY && |pendingEDUs| <= MAX_IN_MEMORY
      && Present(pendingPDUs) && Present(pendingEDUs)
    }

    constructor (destination: Server)
      ensures Valid() && this.destination == destination
      ensures pendingPDUs == [] && pendingEDUs == [] && transactionID == ""
      ensures !notify && !running && !backingOff && !overflowed && hasNotifier
    {
      this.destination := destination;
      notify, running, backingOff, overflowed := false, false, false, false;
      transactionID, pendingPDUs, pendingEDUs := "", [], [];
      hasNotifier := true;
    }

    /** wakeQueueIfNeeded; `start` says whether `go oq.backgroundSend()` is run. */
    method WakeQueueIfNeeded() returns (start: bool)
      modifies this`backingOff
      ensures !backingOff && start == !running
    {
      if backingOff {
        backingOff := false;
      }
      start := !running;
    }

    /** wakeQueueAndNotify: the token goes in before `running` is tested. */
    method WakeQueueAndNotify() returns (start: bool)
      modifies this`notify, this`backingOff
      ensures notify && !backingOff && start == !running
    {
      notify := true;
      start := WakeQueueIfNeeded();
    }

    /** handleBackoffNotifier, the backoff timer's callback: without `backingOff` it does nothing. */
    method HandleBackoffNotifier() returns (start: bool)
      modifies this`notify, this`backingOff
      ensures !backingOff
      ensures if old(backingOff) then notify && start == !running else !start && notify == old(notify)
    {
      start := false;
      if backingOff {
        start := WakeQueueAndNotify();
      }
    }

    /** wakeQueueIfEventsPending: unlike a send, it ends a backoff. */
    method WakeQueueIfEventsPending(forceWakeup: bool) returns (start: bool)
      modifies this`notify, this`backingOff
      ensures if forceWakeup || pendingPDUs != [] || pendingEDUs != []
              then notify && !backingOff && start == !running
              else !start && notify == old(notify) && backingOff == old(backingOff)
    {
      start := false;
      if forceWakeup || |pendingPDUs| > 0 || |pendingEDUs| > 0 {
        start := WakeQueueAndNotify();
      }
    }

    method SendEvent(event: Option<Json>, receipt: Nid, blacklisted: bool) returns (start: bool)
      requires Valid()
      modifies this`pendingPDUs, this`overflowed, this`notify, this`backingOff
      ensures Valid()
      ensures event.None? || blacklisted ==> !start && unchanged(this)
      ensures event.Some? && !blacklisted ==>
                && (if |old(pendingPDUs)| < MAX_IN_MEMORY
                    then pendingPDUs == old(pendingPDUs) + [Queued(receipt, event)] && overflowed == old(overflowed)
                    else pendingPDUs == old(pendingPDUs) && overflowed)
                && (if old(backingOff) then !start && backingOff && notify == old(notify)
                    else start == !running && notify && !backingOff)
    {
      start := false;
      if event.None? {
        return;
      }
      if !blacklisted {
        if |pendingPDUs| < MAX_IN_MEMORY {
          pendingPDUs := pendingPDUs + [Queued(receipt, event)];
        } else {
          overflowed := true;
        }
        if !backingOff {
          start := WakeQueueAndNotify();
        }
      }
    }

    method SendEDU(event: Option<Json>, receipt: Nid, blacklisted: bool) returns (start: bool)
      requires Valid()
      modifies this`pendingEDUs, this`overflowed, this`notify, this`backingOff
      ensures Valid()
      ensures event.None? || blacklisted ==> !start && unchanged(this)
      ensures event.Some? && !blacklisted ==>
                && (if |old(pendingEDUs)| < MAX_IN_MEMORY
                    then pendingEDUs == old(pendingEDUs) + [Queued(receipt, event)] && overflowed == old(overflowed)
                    else pendingEDUs == old(pendingEDUs) && overflowed)
                && (if old(backingOff) then !start && backingOff && notify == old(notify)
                    else start == !running && notify && !backingOff)
    {
      start := false;
      if event.None? {
        return;
      }
      if !blacklisted {
        if |pendingEDUs| < MAX_IN_MEMORY {
          pendingEDUs := pendingEDUs + [Queued(receipt, event)];
        } else {
          overflowed := true;
        }
        if !backingOff {
          start := WakeQueueAndNotify();
        }
      }
    }

    /** getPendingFromDatabase, one of its two symmetric halves: the loop over a query's answer. */
    static method Retrieve(list: seq<Queued>, answer: Option<seq<Queued>>)
      returns (after: seq<Queued>, full: bool, retrieved: bool)
      requires |list| <= MAX_IN_MEMORY
      ensures after == TopUp(list, answer)
      ensures full == AnswerIsFull(list, answer)
      ensures full <==> |list| < 128 && answer.Some? && |answer.value| == 128
      ensures retrieved == (after != list)
    {
      var got: set<Nid> := {};
      for i := 0 to |list|
        invariant got == Receipts(list[..i])
      {
        got := got + {list[i].receipt};
        assert list[..i + 1] == list[..i] + [list[i]];
        ReceiptsSnoc(list[..i], list[i]);
      }
      assert list[..|list|] == list;
      after, full, retrieved := list, false, false;
      if |list| < MAX_IN_MEMORY && answer.Some? {
        var rows := answer.value;
        full := |rows| == MAX_IN_MEMORY;
        var k := 0;
        while k < |rows|
          invariant 0 <= k <= |rows|
          invariant |list| <= |after| < MAX_IN_MEMORY
          invariant retrieved == (|after| > |list|) && (!retrieved ==> after == list)
          invariant Absorb(list, got, rows) == Absorb(after, got, rows[k..])
        {
          assert rows[k..][1..] == rows[k + 1..];
          if rows[k].receipt !in got {
            after := after + [rows[k]];
            retrieved := true;
            if |after| == MAX_IN_MEMORY {
              return;
            }
          }
          k := k + 1;
        }
      }
    }

    /** The scan: lists are topped up, `overflowed` stays only if an answer was full, new items notify. */
    method GetPendingFromDatabase(pduAnswer: Option<seq<Queued>>, eduAnswer: Option<seq<Queued>>)
      requires Valid()
      requires pduAnswer.Some? ==> Present(pduAnswer.value)
      requires eduAnswer.Some? ==> Present(eduAnswer.value)
      modifies this`pendingPDUs, this`pendingEDUs, this`overflowed, this`notify
      ensures Valid()
      ensures pendingPDUs == TopUp(old(pendingPDUs), pduAnswer)
      ensures pendingEDUs == TopUp(old(pendingEDUs), eduAnswer)
      ensures overflowed ==
                old(overflowed && (AnswerIsFull(pendingPDUs, pduAnswer) || AnswerIsFull(pendingEDUs, eduAnswer)))
      ensures notify == (old(notify) || pendingPDUs != old(pendingPDUs) || pendingEDUs != old(pendingEDUs))
    {
      var pdus, pduFull, pduNew := Retrieve(pendingPDUs, pduAnswer);
      TopUpExtends(pendingPDUs, pduAnswer);
      var edus, eduFull, eduNew := Retrieve(pendingEDUs, eduAnswer);
      TopUpExtends(pendingEDUs, eduAnswer);
      pendingPDUs, pendingEDUs := pdus, edus;
      if !(pduFull || eduFull) {
        overflowed := false;
      }
      if pduNew || eduNew {
        notify := true;
      }
    }

    /** createTransaction: entries without a body are left out, with their receipts. */
    method CreateTransaction(pdus: seq<Queued>, edus: seq<Queued>, newID: string)
      returns (t: Transaction, pduReceipts: seq<Nid>, eduReceipts: seq<Nid>)
      requires newID != ""
      modifies this`transactionID
      ensures transactionID == (if old(transactionID) == "" then newID else old(transactionID))
      ensures t == Transaction(transactionID, destination, Bodies(pdus), Bodies(edus))
      ensures pduReceipts == ReceiptList(pdus) && eduReceipts == ReceiptList(edus)
    {
      if transactionID == "" {
        transactionID := newID;
      }
      var pduBodies, eduBodies;
      pduBodies, pduReceipts := Collect(pdus);
      eduBodies, eduReceipts := Collect(edus);
      t := Transaction(transactionID, destination, pduBodies, eduBodies);
    }

    static method Collect(items: seq<Queued>) returns (bodies: seq<Json>, receipts: seq<Nid>)
      ensures bodies == Bodies(items) && receipts == ReceiptList(items)
    {
      bodies, receipts := [], [];
      for i := 0 to |items|
        invariant bodies == Bodies(items[..i]) && receipts == ReceiptList(items[..i])
      {
        assert items[..i + 1] == items[..i] + [items[i]];
        BodiesAppend(items[..i], [items[i]]);
        if items[i].body.None? {
          continue;
        }
        bodies := bodies + [items[i].body.value];
        receipts := receipts + [items[i].receipt];
      }
      assert items[..|items|] == items;
    }

    /** The relay attempts of nextTransaction: every relay is tried, one success is enough. */
    static method TryRelays(relays: seq<bool>) returns (success: bool)
      ensures success <==> exists k :: 0 <= k < |relays| && relays[k]
    {
      success := false;
      for i := 0 to |relays|
        invariant success <==> exists k :: 0 <= k < i && relays[k]
      {
        if relays[i] {
          success := true;
        }
      }
    }

    /**
    nextTransaction: the transaction that was tried, whether it counts as sent, and the receipts handed
    to the database clean-up. The ID is kept for a retry and dropped on success.
    */
    method NextTransaction(pdus: seq<Queued>, edus: seq<Queued>, newID: string, remote: Remote)
      returns (t: Transaction, sent: bool, viaRelay: bool, cleanPDUs: seq<Nid>, cleanEDUs: seq<Nid>)
      requires newID != ""
      modifies this`transactionID
      ensures t == Transaction(if old(transactionID) == "" then newID else old(transactionID), destination,
                               Bodies(pdus), Bodies(edus))
      ensures sent <==>
                || remote.direct
                || (remote.assumedOffline && remote.userIdValid
                    && exists k :: 0 <= k < |remote.relays| && remote.relays[k])
      ensures transactionID == (if sent then "" else t.id)
      ensures cleanPDUs == if sent then ReceiptList(pdus) else []
      ensures cleanEDUs == if sent then ReceiptList(edus) else []
      ensures viaRelay == (!remote.direct && remote.assumedOffline && remote.relays != [])
    {
      var pduReceipts, eduReceipts;
      t, pduReceipts, eduReceipts := CreateTransaction(pdus, edus, newID);
      cleanPDUs, cleanEDUs, viaRelay := [], [], false;
      var shouldSendToRelays := remote.assumedOffline && |remote.relays| > 0;
      sent := remote.direct;
      if !sent && shouldSendToRelays {
        viaRelay := true;
        if !remote.userIdValid {
          return;
        }
        sent := TryRelays(remote.relays);
      }
      if sent {
        cleanPDUs, cleanEDUs := pduReceipts, eduReceipts;
        transactionID := "";
      }
    }

    /** handleTransactionSuccess: the counts were taken from these lists before the send. */
    method HandleTransactionSuccess(pduCount: nat, eduCount: nat)
      requires Valid() && pduCount <= |pendingPDUs| && eduCount <= |pendingEDUs|
      modifies this`pendingPDUs, this`pendingEDUs, this`notify
      ensures Valid()
      ensures old(pendingPDUs) == old(pendingPDUs)[..pduCount] + pendingPDUs
      ensures old(pendingEDUs) == old(pendingEDUs)[..eduCount] + pendingEDUs
      ensures pendingPDUs == old(pendingPDUs)[pduCount..] && pendingEDUs == old(pendingEDUs)[eduCount..]
      ensures notify == (old(notify) || pendingPDUs != [] || pendingEDUs != [])
    {
      pendingPDUs := pendingPDUs[pduCount..];
      pendingEDUs := pendingEDUs[eduCount..];
      if |pendingPDUs| > 0 || |pendingEDUs| > 0 {
        notify := true;
      }
    }

    /** blacklistDestination, up to the removal of the queue from the collection. */
    method BlacklistDestination()
      modifies this`pendingPDUs, this`pendingEDUs, this`hasNotifier
      ensures pendingPDUs == [] && pendingEDUs == [] && !hasNotifier
    {
      pendingPDUs, pendingEDUs := [], [];
      hasNotifier := false;
    }

    /** checkNotificationsOnClose: unless blacklisted, a token found here restarts the queue. */
    method CheckNotificationsOnClose(blacklisted: bool) returns (start: bool)
      modifies this`notify, this`backingOff
      ensures notify == old(notify)
      ensures start == (!blacklisted && old(notify) && !running)
      ensures backingOff == (old(backingOff) && (blacklisted || !old(notify)))
    {
      start := false;
      if !blacklisted {
        if notify {
          notify := false;
          start := WakeQueueAndNotify();
        }
      }
    }

    /** The slices to send: at most 50 PDUs and 100 EDUs, off the front. */
    method TakeBatch() returns (pdus: seq<Queued>, edus: seq<Queued>)
      ensures pdus == Front(pendingPDUs, MAX_PDUS_PER_TRANSACTION)
      ensures edus == Front(pendingEDUs, MAX_EDUS_PER_TRANSACTION)
      ensures pdus <= pendingPDUs && |pdus| == if |pendingPDUs| > 50 then 50 else |pendingPDUs|
      ensures edus <= pendingEDUs && |edus| == if |pendingEDUs| > 100 then 100 else |pendingEDUs|
    {
      var pduCount, eduCount := |pendingPDUs|, |pendingEDUs|;
      if pduCount > MAX_PDUS_PER_TRANSACTION {
        pduCount := MAX_PDUS_PER_TRANSACTION;
      }
      if eduCount > MAX_EDUS_PER_TRANSACTION {
        eduCount := MAX_EDUS_PER_TRANSACTION;
      }
      pdus, edus := pendingPDUs[..pduCount], pendingEDUs[..eduCount];
    }

    /** What follows a send: drop what was sent, or back off, or give up. */
    method EndRound(sent: bool, pduCount: nat, eduCount: nat, blacklisted: bool)
      requires Valid() && pduCount <= |pendingPDUs| && eduCount <= |pendingEDUs|
      modifies this`pendingPDUs, this`pendingEDUs, this`notify, this`backingOff, this`hasNotifier
      ensures Valid()
      ensures pendingPDUs == if sent then old(pendingPDUs)[pduCount..] else if blacklisted then [] else old(pendingPDUs)
      ensures pendingEDUs == if sent then old(pendingEDUs)[eduCount..] else if blacklisted then [] else old(pendingEDUs)
      ensures notify == (old(notify) || (sent && (pendingPDUs != [] || pendingEDUs != [])))
      ensures backingOff == (old(backingOff) || (!sent && !blacklisted))
      ensures hasNotifier == (old(hasNotifier) && (sent || !blacklisted))
    {
      if sent {
        HandleTransactionSuccess(pduCount, eduCount);
      } else if blacklisted {
        BlacklistDestination();
      } else {
        backingOff := true;
      }
    }

    /**
    One round of the worker loop from a token taken to the end of its transaction, running alone.
    `goOn` is false when the goroutine ends.
    */
    method HandleToken(newID: string, remote: Remote, blacklisted: bool)
      returns (goOn: bool, posted: Option<Transaction>)
      requires Valid() && newID != ""
      modifies this
      ensures Valid()
      ensures Round(pendingPDUs, pendingEDUs, transactionID, notify, backingOff, posted, goOn) ==
                old(RoundOf(destination, pendingPDUs, pendingEDUs, transactionID, notify, backingOff,
                            newID, Accepts(remote), blacklisted))
      ensures running == old(running) && overflowed == old(overflowed)
      ensures hasNotifier == (old(hasNotifier) && (goOn || !blacklisted))
    {
      goOn, posted := true, None;
      var toSendPDUs, toSendEDUs := TakeBatch();
      if |toSendPDUs| == 0 && |toSendEDUs| == 0 {
        return;
      }
      var t, sent, viaRelay, cleanPDUs, cleanEDUs := NextTransaction(toSendPDUs, toSendEDUs, newID, remote);
      posted, goOn := Some(t), sent;
      PendingRound(destination, pendingPDUs, pendingEDUs, old(transactionID), notify, backingOff, newID, sent,
                   blacklisted);
      EndRound(sent, |toSendPDUs|, |toSendEDUs|, blacklisted);
    }
  }

  /** A round with something to send, in terms of the batch taken. */
  lemma PendingRound(d: Server, pdus: seq<Queued>, edus: seq<Queued>, transactionID: string, notify: bool,
                     backingOff: bool, newID: string, accepted: bool, blacklisted: bool)
    requires pdus != [] || edus != []
    ensures var toSendPDUs := Front(pdus, MAX_PDUS_PER_TRANSACTION);
            var toSendEDUs := Front(edus, MAX_EDUS_PER_TRANSACTION);
            var pdus', edus' := pdus[|toSendPDUs|..], edus[|toSendEDUs|..];
            var t := Transaction(if transactionID == "" then newID else transactionID, d,
                                 Bodies(toSendPDUs), Bodies(toSendEDUs));
            RoundOf(d, pdus, edus, transactionID, notify, backingOff, newID, accepted, blacklisted) ==
              if accepted
              then Round(pdus', edus', "", notify || pdus' != [] || edus' != [], backingOff, Some(t), true)
              else if blacklisted
              then Round([], [], t.id, notify, backingOff, Some(t), false)
              else Round(pdus, edus, t.id, notify, true, Some(t), false)
  {
    BackOfFront(pdus, MAX_PDUS_PER_TRANSACTION);
    BackOfFront(edus, MAX_EDUS_PER_TRANSACTION);
  }

  lemma ReceiptsSnoc(items: seq<Queued>, item: Queued)
    ensures Receipts(items + [item]) == Receipts(items) + {item.receipt}
  {
    var more := items + [item];
    assert more[|items|] == item;
    forall n | n in Receipts(items) ensures n in Receipts(more) {
      var i :| 0 <= i < |items| && items[i].receipt == n;
      assert more[i] == items[i];
    }
  }

  /**
  Exactly when a scan that clears `overflowed` leaves every stored item in memory. The flag is cleared all the same if
  a query failed, if one was skipped because the list is full, or if items that are not stored any more, or are there
  twice, take the room.
  */
  lemma ScanCompleteness(pdus: seq<Queued>, edus: seq<Queued>,
                         pduAnswer: Option<seq<Queued>>, eduAnswer: Option<seq<Queued>>,
                         storedPdus: map<Nid, Json>, storedEdus: map<Nid, Json>)
    requires |pdus| <= MAX_IN_MEMORY && |edus| <= MAX_IN_MEMORY
    requires pduAnswer.Some? ==> Answers(pduAnswer.value, storedPdus)
    requires eduAnswer.Some? ==> Answers(eduAnswer.value, storedEdus)
    requires !AnswerIsFull(pdus, pduAnswer) && !AnswerIsFull(edus, eduAnswer)
    ensures storedPdus.Keys <= Receipts(TopUp(pdus, pduAnswer)) && storedEdus.Keys <= Receipts(TopUp(edus, eduAnswer))
            <==>
            && (storedPdus.Keys <= Receipts(pdus) || (pduAnswer.Some? && HasRoomFor(pdus, storedPdus.Keys)))
            && (storedEdus.Keys <= Receipts(edus) || (eduAnswer.Some? && HasRoomFor(edus, storedEdus.Keys)))
  {
    TopUpCompleteness(pdus, pduAnswer, storedPdus);
    TopUpCompleteness(edus, eduAnswer, storedEdus);
  }

  /** For lists of stored items, none twice, it is enough that each query was made and succeeded. */
  lemma StoredScanCompleteness(pdus: seq<Queued>, edus: seq<Queued>,
                               pduAnswer: Option<seq<Queued>>, eduAnswer: Option<seq<Queued>>,
                               storedPdus: map<Nid, Json>, storedEdus: map<Nid, Json>)
    requires |pdus| <= MAX_IN_MEMORY && Distinct(pdus) && Receipts(pdus) <= storedPdus.Keys
    requires |edus| <= MAX_IN_MEMORY && Distinct(edus) && Receipts(edus) <= storedEdus.Keys
    requires pduAnswer.Some? ==> Answers(pduAnswer.value, storedPdus)
    requires eduAnswer.Some? ==> Answers(eduAnswer.value, storedEdus)
    requires !AnswerIsFull(pdus, pduAnswer) && !AnswerIsFull(edus, eduAnswer)
    ensures Distinct(TopUp(pdus, pduAnswer)) && Distinct(TopUp(edus, eduAnswer))
    ensures Receipts(TopUp(pdus, pduAnswer)) == storedPdus.Keys && Receipts(TopUp(edus, eduAnswer)) == storedEdus.Keys
            <==>
            && ((|pdus| < MAX_IN_MEMORY && pduAnswer.Some?) || Receipts(pdus) == storedPdus.Keys)
            && ((|edus| < MAX_IN_MEMORY && eduAnswer.Some?) || Receipts(edus) == storedEdus.Keys)
  {
    TopUpKeepsDistinct(pdus, pduAnswer, storedPdus);
    TopUpKeepsDistinct(edus, eduAnswer, storedEdus);
    StoredItemsCompleteness(pdus, pduAnswer, storedPdus);
    StoredItemsCompleteness(edus, eduAnswer, storedEdus);
  }
}
