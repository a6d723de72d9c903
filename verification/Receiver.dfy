/**
The other end of a transaction: a server that is still working on a transaction ID answers a second request
with that ID by the result of the first, without reading the second body. What a retry may then leave unread.
*/
module Receiver {
  import opened Wrappers
  import opened Sequences
  import opened QueueMemory

  /** What the receiver knows about one origin and transaction ID: the body in work, and the PDUs read so far. */
  datatype Desk = Desk(working: Option<seq<Json>>, read: set<Json>)

  const EMPTY := Desk(None, {})

  datatype Event = Arrival(pdus: seq<Json>) | Finished

  function Handle(desk: Desk, e: Event): Desk {
    match e
    case Arrival(pdus) => if desk.working.Some? then desk else Desk(Some(pdus), desk.read + Elements(pdus))
    case Finished => desk.(working := None)
  }

  function After(events: seq<Event>): Desk {
    if events == [] then EMPTY else Handle(After(events[..|events| - 1]), events[|events| - 1])
  }

  // --- in terms of the events -----------------------------------------------------------------------------

  /** Something has arrived since the receiver last finished. */
  ghost predicate Busy(events: seq<Event>) {
    exists k :: 0 <= k < |events| && events[k].Arrival? && forall j :: k < j < |events| ==> events[j].Arrival?
  }

  /** The attempt arrived at a receiver that was not busy. */
  ghost predicate Taken(events: seq<Event>, k: nat) {
    k < |events| && events[k].Arrival? && !Busy(events[..k])
  }

  ghost predicate WasRead(events: seq<Event>, pdu: Json) {
    exists k: nat :: Taken(events, k) && pdu in events[k].pdus
  }

  lemma BusyStep(events: seq<Event>)
    requires events != []
    ensures Busy(events) <==> events[|events| - 1].Arrival?
  {
    var last := |events| - 1;
    if Busy(events) {
      var k :| 0 <= k < |events| && events[k].Arrival? && forall j :: k < j < |events| ==> events[j].Arrival?;
    }
  }

  lemma {:induction false} WorkingIsBusy(events: seq<Event>)
    ensures After(events).working.Some? <==> Busy(events)
  {
    if events != [] {
      BusyStep(events);
      WorkingIsBusy(events[..|events| - 1]);
    }
  }

  lemma TakenBefore(events: seq<Event>, n: nat, k: nat)
    requires k < n <= |events|
    ensures Taken(events[..n], k) <==> Taken(events, k)
  {
    assert events[..n][..k] == events[..k];
  }

  /** Exactly the PDUs of the attempts that were taken have been read. */
  lemma {:induction false} ReadSoFar(events: seq<Event>, pdu: Json)
    ensures pdu in After(events).read <==> WasRead(events, pdu)
  {
    if events != [] {
      var last := |events| - 1;
      var before := events[..last];
      ReadSoFar(before, pdu);
      WorkingIsBusy(before);
      forall k: nat | k < last ensures Taken(before, k) <==> Taken(events, k) {
        TakenBefore(events, last, k);
      }
      assert Taken(events, last) <==> events[last].Arrival? && !Busy(before);
      if WasRead(before, pdu) {
        var k: nat :| Taken(before, k) && pdu in before[k].pdus;
        assert Taken(events, k);
      }
      if WasRead(events, pdu) {
        var k: nat :| Taken(events, k) && pdu in events[k].pdus;
        assert k < last ==> Taken(before, k);
      }
    }
  }

  /**
  For any attempts whatever: after a retry has arrived all its PDUs have been read exactly when the receiver was not
  busy, or each of them was in an attempt that arrived when the receiver was not.
  */
  lemma RetryIsReadExactlyWhen(events: seq<Event>, pdus: seq<Json>)
    ensures Elements(pdus) <= After(events + [Arrival(pdus)]).read <==>
              !Busy(events) || forall pdu :: pdu in pdus ==> WasRead(events, pdu)
  {
    assert (events + [Arrival(pdus)])[..|events|] == events;
    WorkingIsBusy(events);
    forall pdu ensures pdu in After(events).read <==> WasRead(events, pdu) {
      ReadSoFar(events, pdu);
    }
  }

  // --- attempts that grow ---------------------------------------------------------------------------------

  /** The latest attempt. */
  function Latest(events: seq<Event>): seq<Json> {
    if events == [] then []
    else
      var last := events[|events| - 1];
      if last.Arrival? then last.pdus else Latest(events[..|events| - 1])
  }

  /** Attempts only grow at their end, as they do under one ID as long as the sender's lists are not wiped. */
  predicate Growing(events: seq<Event>) {
    events == [] ||
    (var before, last := events[..|events| - 1], events[|events| - 1];
     Growing(before) && (last.Arrival? ==> Latest(before) <= last.pdus))
  }

  lemma PrefixElements<T>(a: seq<T>, b: seq<T>)
    requires a <= b
    ensures Elements(a) <= Elements(b)
  {
    forall x | x in Elements(a) ensures x in Elements(b) {
      var i :| 0 <= i < |a| && a[i] == x;
      assert b[i] == x;
    }
  }

  /** What was read belongs to the latest attempt, and while one is in work it is exactly that one's PDUs. */
  lemma {:induction false} GrowingReads(events: seq<Event>)
    requires Growing(events)
    ensures var desk := After(events);
            && desk.read <= Elements(Latest(events))
            && (desk.working.Some? ==>
                  desk.read == Elements(desk.working.value) && desk.working.value <= Latest(events))
  {
    if events != [] {
      var before, last := events[..|events| - 1], events[|events| - 1];
      GrowingReads(before);
      if last.Arrival? {
        PrefixElements(Latest(before), last.pdus);
      }
    }
  }

  /**
  If attempts grow, earlier ones do not help: the retry is read exactly when no attempt is in work, or the one in work
  carried all its PDUs.
  */
  lemma GrownRetryIsReadExactlyWhen(events: seq<Event>, pdus: seq<Json>)
    requires Growing(events + [Arrival(pdus)])
    ensures var desk := After(events);
            Elements(pdus) <= After(events + [Arrival(pdus)]).read <==>
              desk.working.None? || Elements(pdus) <= Elements(desk.working.value)
  {
    assert (events + [Arrival(pdus)])[..|events|] == events;
    GrowingReads(events);
  }
}
