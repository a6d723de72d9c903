/**
The collection of destination queues: which queue serves a destination, whom an event is queued for,
and when pending queues wake up after a start.
*/
module OutgoingQueues {
  import opened Wrappers
  import opened Sequences
  import opened QueueMemory
  import opened DestinationQueues

  const SECOND: nat := 1_000_000_000

  datatype SendError = UnknownOrigin | MarshalFailed | StoreFailed | AssociateFailed

  datatype Wakeup = Wakeup(server: Server, at: nat)

  class OutgoingQueues {
    const disabled: bool
    const origin: Server
    const signing: set<Server>
    var queues: map<Server, DestinationQueue>

    ghost predicate Valid()
      reads this
    {
      forall d :: d in queues ==> queues[d].destination == d
    }

    /** A queue as it was built. */
    static ghost predicate IsNew(q: DestinationQueue)
      reads q
    {
      && q.Valid() && q.pendingPDUs == [] && q.pendingEDUs == [] && q.hasNotifier
      && !q.notify && !q.running && !q.backingOff && !q.overflowed
    }

    constructor (disabled: bool, origin: Server, signing: set<Server>)
      ensures Valid() && queues == map[]
      ensures this.disabled == disabled && this.origin == origin && this.signing == signing
    {
      this.disabled, this.origin, this.signing := disabled, origin, signing;
      queues := map[];
    }

    /** getQueue: none for a blacklisted destination, else the registered queue or a new one. */
    method GetQueue(d: Server, blacklisted: bool) returns (q: DestinationQueue?)
      requires Valid()
      modifies this`queues
      ensures Valid()
      ensures q == null <==> blacklisted
      ensures blacklisted ==> queues == old(queues)
      ensures q != null ==>
                && q.destination == d && queues == old(queues)[d := q]
                && (d in old(queues) ==> q == old(queues)[d])
                && (d !in old(queues) ==> fresh(q) && IsNew(q))
    {
      if blacklisted {
        return null;
      }
      if d !in queues {
        q := new DestinationQueue(d);
        queues := queues[d := q];
      } else {
        q := queues[d];
        assert queues == queues[d := q];
      }
    }

    /** clearQueue deletes by destination. */
    method ClearQueue(q: DestinationQueue)
      requires Valid()
      modifies this`queues
      ensures Valid() && queues == old(queues) - {q.destination}
    {
      queues := queues - {q.destination};
    }

    /** RetryServer: a queue that is not there yet has nothing pending, so it wakes only when forced. */
    method RetryServer(srv: Server, wasBlacklisted: bool, blacklisted: bool) returns (start: bool)
      requires Valid()
      modifies this`queues, if srv in queues then {queues[srv]} else {}
      ensures Valid()
      ensures disabled || blacklisted ==>
                !start && queues == old(queues) && (srv in queues ==> unchanged(queues[srv]))
      ensures !disabled && !blacklisted ==>
                && srv in queues && queues.Keys == old(queues.Keys) + {srv}
                && (forall d :: d in old(queues) ==> queues[d] == old(queues)[d])
                && (srv !in old(queues) ==> fresh(queues[srv]))
                && var q := queues[srv];
                   if wasBlacklisted || q.pendingPDUs != [] || q.pendingEDUs != []
                   then q.notify && !q.backingOff && start == !q.running
                   else !start && (srv in old(queues) ==> unchanged(q))
      ensures srv in old(queues) ==>
                && queues[srv].pendingPDUs == old(queues[srv].pendingPDUs)
                && queues[srv].pendingEDUs == old(queues[srv].pendingEDUs)
    {
      start := false;
      if disabled {
        return;
      }
      var queue := GetQueue(srv, blacklisted);
      if queue != null {
        start := queue.WakeQueueIfEventsPending(wasBlacklisted);
      }
    }

    /** The end of blacklistDestination: the queue goes, with what it holds. */
    method Blacklist(q: DestinationQueue)
      requires Valid()
      modifies this`queues, q`pendingPDUs, q`pendingEDUs, q`hasNotifier
      ensures Valid() && queues == old(queues) - {q.destination}
      ensures q.pendingPDUs == [] && q.pendingEDUs == [] && !q.hasNotifier
    {
      q.BlacklistDestination();
      ClearQueue(q);
    }

    function Wanted(destinations: seq<Server>): set<Server> {
      (set d | d in destinations) - {origin} - signing
    }

    /** The destinations without duplicates and without our own names. */
    method Deduplicate(destinations: seq<Server>) returns (destmap: set<Server>)
      ensures destmap == Wanted(destinations)
    {
      destmap := {};
      for i := 0 to |destinations|
        invariant destmap == set d | d in destinations[..i]
      {
        destmap := destmap + {destinations[i]};
        assert destinations[..i + 1] == destinations[..i] + [destinations[i]];
      }
      assert destinations[..|destinations|] == destinations;
      destmap := destmap - {origin};
      destmap := destmap - signing;
    }

    /** A queue for each destination that is not blacklisted. */
    method OpenQueues(wanted: set<Server>, blacklisted: set<Server>) returns (destmap: set<Server>)
      requires Valid()
      modifies this`queues
      ensures Valid() && destmap == wanted - blacklisted && queues.Keys == old(queues.Keys) + destmap
      ensures forall d :: d in old(queues) ==> d in queues && queues[d] == old(queues)[d]
      ensures forall d :: d in queues && d !in old(queues) ==> fresh(queues[d]) && IsNew(queues[d])
    {
      destmap := wanted;
      var todo := wanted;
      while todo != {}
        invariant Valid()
        invariant todo <= wanted && destmap == todo + ((wanted - todo) - blacklisted)
        invariant queues.Keys == old(queues.Keys) + ((wanted - todo) - blacklisted)
        invariant forall d :: d in old(queues) ==> d in queues && queues[d] == old(queues)[d]
        invariant forall d :: d in queues && d !in old(queues) ==> fresh(queues[d]) && IsNew(queues[d])
        decreases todo
      {
        var d :| d in todo;
        var q := GetQueue(d, d in blacklisted);
        if q == null {
          destmap := destmap - {d};
        }
        todo := todo - {d};
      }
    }

    /** The objects behind some of the queues. */
    ghost function Objects(destmap: set<Server>): set<DestinationQueue>
      reads this
    {
      set d | d in destmap && d in queues :: queues[d]
    }

    static ghost function Seen(q: DestinationQueue): Facade
      reads q
    {
      Facade(q.pendingPDUs, q.overflowed, q.notify, q.backingOff)
    }

    /** The loop that hands the event to each queue. */
    method HandOver(destmap: set<Server>, body: Json, nid: Nid) returns (started: set<Server>)
      requires Valid() && destmap <= queues.Keys && forall d :: d in destmap ==> queues[d].Valid()
      modifies Objects(destmap)
      ensures started == set d | d in destmap && old(!queues[d].backingOff && !queues[d].running)
      ensures forall d :: d in destmap ==>
                queues[d].Valid() && Seen(queues[d]) == Receiving(old(Seen(queues[d])), Queued(nid, Some(body)))
    {
      started := {};
      var todo := destmap;
      while todo != {}
        invariant todo <= destmap && queues == old(queues)
        invariant started == set d | d in destmap - todo && old(!queues[d].backingOff && !queues[d].running)
        invariant forall d :: d in todo ==> unchanged(queues[d]) && queues[d].Valid()
        invariant forall d :: d in destmap - todo ==>
                    queues[d].Valid() && Seen(queues[d]) == Receiving(old(Seen(queues[d])), Queued(nid, Some(body)))
        decreases todo
      {
        var d :| d in todo;
        var start := queues[d].SendEvent(Some(body), nid, false);
        if start {
          started := started + {d};
        }
        todo := todo - {d};
      }
    }

    /** The second half of SendEvent: queues are opened, the rows associated, and then each queue gets the event. */
    method Enqueue(wanted: set<Server>, blacklisted: set<Server>, body: Json, nid: Nid, associated: bool)
      returns (destmap: set<Server>, started: set<Server>)
      requires Valid() && forall d :: d in queues ==> queues[d].Valid()
      modifies this`queues, Objects(queues.Keys)
      ensures Valid() && destmap == wanted - blacklisted && queues.Keys == old(queues.Keys) + destmap
      ensures forall d :: d in started <==>
                associated && d in destmap && (d in old(queues) ==> old(!queues[d].backingOff && !queues[d].running))
      ensures forall d :: d in old(queues) ==>
                && d in queues && queues[d] == old(queues)[d]
                && Seen(queues[d]) ==
                     if associated && d in destmap then Receiving(old(Seen(queues[d])), Queued(nid, Some(body)))
                     else old(Seen(queues[d]))
      ensures forall d :: d in queues && d !in old(queues) ==>
                fresh(queues[d]) && queues[d].pendingPDUs == if associated then [Queued(nid, Some(body))] else []
    {
      destmap := OpenQueues(wanted, blacklisted);
      started := {};
      assert forall d :: d in destmap && d !in old(queues) ==> IsNew(queues[d]);
      if associated {
        started := HandOver(destmap, body, nid);
      }
    }

    /**
    SendEvent. Each remaining destination has a registered queue, and once the rows are there each queue has the event
    behind its pending ones, or has noted that it did not fit.
    */
    method SendEvent(event: Option<Json>, eventOrigin: Server, destinations: seq<Server>, blacklisted: set<Server>,
                     stored: Option<Nid>, associated: bool)
      returns (r: Result<set<Server>, SendError>, started: set<Server>)
      requires Valid() && forall d :: d in queues ==> queues[d].Valid()
      modifies this`queues, Objects(queues.Keys)
      ensures Valid()
      ensures r == Err(UnknownOrigin) <==> !disabled && eventOrigin !in signing
      ensures !disabled && eventOrigin in signing && Wanted(destinations) != {} ==>
                && (r == Err(MarshalFailed) <==> event.None?)
                && (r == Err(StoreFailed) <==> event.Some? && stored.None?)
                && (r == Err(AssociateFailed) <==> event.Some? && stored.Some? && !associated)
      ensures r.Ok? ==>
                && r.value == (if disabled then {} else Wanted(destinations) - blacklisted)
                && queues.Keys == old(queues.Keys) + r.value
                && (!disabled ==> forall d :: d in r.value <==>
                      d in destinations && d != origin && d !in signing && d !in blacklisted)
      ensures forall d :: d in started <==>
                r.Ok? && d in r.value && (d in old(queues) ==> old(!queues[d].backingOff && !queues[d].running))
      ensures forall d :: d in old(queues) ==>
                && d in queues && queues[d] == old(queues)[d]
                && Seen(queues[d]) ==
                     if r.Ok? && d in r.value then Receiving(old(Seen(queues[d])), Queued(stored.value, event))
                     else old(Seen(queues[d]))
      ensures forall d :: d in queues && d !in old(queues) ==>
                fresh(queues[d]) && queues[d].pendingPDUs == if r.Ok? then [Queued(stored.value, event)] else []
    {
      started := {};
      if disabled {
        return Ok({}), {};
      }
      if eventOrigin !in signing {
        return Err(UnknownOrigin), {};
      }
      var destmap := Deduplicate(destinations);
      if destmap == {} {
        return Ok({}), {};
      }
      if event.None? {
        return Err(MarshalFailed), {};
      }
      if stored.None? {
        return Err(StoreFailed), {};
      }
      destmap, started := Enqueue(destmap, blacklisted, event.value, stored.value, associated);
      if !associated {
        return Err(AssociateFailed), {};
      }
      return Ok(destmap), started;
    }
  }

  /** The part of a queue that a send may change. */
  datatype Facade = Facade(pdus: seq<Queued>, overflowed: bool, notify: bool, backingOff: bool)

  /** A send: the item goes behind the others if it fits, and the queue is notified unless it backs off. */
  function Receiving(f: Facade, item: Queued): Facade {
    Facade(Appended(f.pdus, item), f.overflowed || |f.pdus| >= MAX_IN_MEMORY, f.notify || !f.backingOff, f.backingOff)
  }

  /** A list with one more item, if it fits. */
  function Appended(list: seq<Queued>, item: Queued): seq<Queued> {
    if |list| < MAX_IN_MEMORY then list + [item] else list
  }

  /** The step between wake-ups, under integer division of durations. */
  function Step(servers: nat): nat {
    if servers > 120 then (SECOND * 120) / servers else SECOND
  }

  /** One second up to 120 servers; for more the greatest step with which all of them fit into 120 seconds. */
  lemma StepExactly(servers: nat)
    ensures servers <= 120 ==> Step(servers) == 1_000_000_000
    ensures servers > 120 ==> Step(servers) * servers <= 120_000_000_000 < (Step(servers) + 1) * servers
  {
    if servers > 120 {
      var all := SECOND * 120;
      assert all == servers * (all / servers) + all % servers;
      assert (Step(servers) + 1) * servers == Step(servers) * servers + servers;
    }
  }

  lemma StepBound(servers: nat)
    requires servers > 0
    ensures Step(servers) * (servers - 1) < SECOND * 120
  {
    if servers > 120 {
      var step := Step(servers);
      assert step * servers <= SECOND * 120 by {
        assert SECOND * 120 == servers * ((SECOND * 120) / servers) + (SECOND * 120) % servers;
      }
      if step == 0 {
        assert step * (servers - 1) == 0;
      } else {
        assert step * (servers - 1) == step * servers - step;
      }
    } else {
      assert SECOND * (servers - 1) <= SECOND * 119;
    }
  }

  lemma MulMonotone(a: nat, b: nat, step: nat)
    requires a <= b
    ensures step * a <= step * b
  {
  }

  /** The servers that get a queue, in iteration order. */
  function Awake(servers: seq<Server>, blacklisted: set<Server>): seq<Server> {
    if servers == [] then []
    else
      var before, last := servers[..|servers| - 1], servers[|servers| - 1];
      if last in blacklisted then Awake(before, blacklisted) else Awake(before, blacklisted) + [last]
  }

  /** The k-th queue wakes k steps after the first, which wakes after five seconds. */
  function Timetable(awake: seq<Server>, step: nat): seq<Wakeup> {
    seq(|awake|, k requires 0 <= k < |awake| => Wakeup(awake[k], 5 * SECOND + step * k))
  }

  lemma TimetableSnoc(awake: seq<Server>, d: Server, step: nat)
    ensures Timetable(awake + [d], step) == Timetable(awake, step) + [Wakeup(d, 5 * SECOND + step * |awake|)]
    ensures step * |awake + [d]| == step * |awake| + step
  {
  }

  /** The hydration loop of NewOutgoingQueues. */
  method Hydrate(serverNames: seq<Server>, blacklisted: set<Server>) returns (schedule: seq<Wakeup>)
    ensures schedule == Timetable(Awake(serverNames, blacklisted), Step(|serverNames|))
  {
    schedule := [];
    var offset, step := SECOND * 5, SECOND;
    var max := |serverNames|;
    if max > 120 {
      step := (SECOND * 120) / max;
    }
    ghost var awake: seq<Server> := [];
    for i := 0 to max
      invariant awake == Awake(serverNames[..i], blacklisted)
      invariant schedule == Timetable(awake, step)
      invariant offset == 5 * SECOND + step * |awake|
    {
      assert serverNames[..i + 1][..i] == serverNames[..i];
      if serverNames[i] !in blacklisted {
        TimetableSnoc(awake, serverNames[i], step);
        awake := awake + [serverNames[i]];
        schedule := schedule + [Wakeup(serverNames[i], offset)];
        offset := offset + step;
      }
    }
    assert serverNames[..max] == serverNames;
  }

  lemma {:induction false} AwakeExactly(servers: seq<Server>, blacklisted: set<Server>)
    requires NoRepeats(servers)
    ensures |Awake(servers, blacklisted)| <= |servers|
    ensures NoRepeats(Awake(servers, blacklisted))
    ensures forall d :: d in Awake(servers, blacklisted) <==> d in servers && d !in blacklisted
  {
    if servers != [] {
      var n := |servers| - 1;
      AwakeExactly(servers[..n], blacklisted);
      assert servers == servers[..n] + [servers[n]];
      assert servers[n] !in servers[..n];
    }
  }

  /** One wake-up of the timetable is within bounds. */
  lemma WakesInTime(servers: nat, k: nat)
    requires k < servers
    ensures 5 * SECOND <= 5 * SECOND + Step(servers) * k < 125 * SECOND
  {
    StepBound(servers);
    MulMonotone(k, servers - 1, Step(servers));
  }

  /** The entry of the timetable at one index. */
  lemma TimetableAt(awake: seq<Server>, step: nat, k: nat)
    requires k < |awake|
    ensures Timetable(awake, step)[k] == Wakeup(awake[k], 5 * SECOND + step * k)
  {
  }

  lemma InOrder(awake: seq<Server>, step: nat, j: nat, k: nat)
    requires j < k < |awake|
    ensures Timetable(awake, step)[j].at <= Timetable(awake, step)[k].at
  {
    TimetableAt(awake, step, j);
    TimetableAt(awake, step, k);
    MulMonotone(j, k, step);
  }

  lemma WakesOnce(awake: seq<Server>, step: nat, d: Server)
    ensures d in awake <==> exists k :: 0 <= k < |awake| && Timetable(awake, step)[k].server == d
  {
    forall k | 0 <= k < |awake| ensures Timetable(awake, step)[k].server == awake[k] {
      TimetableAt(awake, step, k);
    }
    if d in awake {
      var k :| 0 <= k < |awake| && awake[k] == d;
      assert Timetable(awake, step)[k].server == d;
    }
  }

  /** Some wake-up on the schedule is for the server. */
  predicate Scheduled(schedule: seq<Wakeup>, d: Server) {
    exists k :: 0 <= k < |schedule| && schedule[k].server == d
  }

  predicate WithinBounds(schedule: seq<Wakeup>) {
    forall k :: 0 <= k < |schedule| ==> 5 * SECOND <= schedule[k].at < 125 * SECOND
  }

  predicate OrderedAndDistinct(schedule: seq<Wakeup>) {
    forall j, k :: 0 <= j < k < |schedule| ==>
      schedule[j].at <= schedule[k].at && schedule[j].server != schedule[k].server
  }

  /**
  Every pending server that is not blacklisted wakes exactly once, at or after five seconds and before two
  minutes and five seconds, later ones no earlier than earlier ones, however many servers there are.
  */
  lemma HydrationSchedule(servers: seq<Server>, blacklisted: set<Server>)
    requires NoRepeats(servers)
    ensures var schedule := Timetable(Awake(servers, blacklisted), Step(|servers|));
            && WithinBounds(schedule) && OrderedAndDistinct(schedule)
            && (schedule != [] ==> schedule[0].at == 5_000_000_000)
            && (forall k :: 0 < k < |schedule| ==> schedule[k].at == schedule[k - 1].at + Step(|servers|))
            && forall d :: Scheduled(schedule, d) <==> d in servers && d !in blacklisted
  {
    AwakeExactly(servers, blacklisted);
    var awake, step := Awake(servers, blacklisted), Step(|servers|);
    ScheduleTimes(awake, |servers|);
    ScheduleOrder(awake, step);
    ScheduleGaps(awake, step);
    forall d ensures Scheduled(Timetable(awake, step), d) <==> d in awake {
      WakesOnce(awake, step, d);
    }
  }

  lemma ScheduleTimes(awake: seq<Server>, servers: nat)
    requires |awake| <= servers
    ensures WithinBounds(Timetable(awake, Step(servers)))
  {
    var step := Step(servers);
    forall k | 0 <= k < |awake| ensures 5 * SECOND <= Timetable(awake, step)[k].at < 125 * SECOND {
      TimetableAt(awake, step, k);
      WakesInTime(servers, k);
    }
  }

  lemma ScheduleGaps(awake: seq<Server>, step: nat)
    ensures var schedule := Timetable(awake, step);
            && (schedule != [] ==> schedule[0].at == 5_000_000_000)
            && forall k :: 0 < k < |schedule| ==> schedule[k].at == schedule[k - 1].at + step
  {
    forall k | 0 < k < |awake| ensures Timetable(awake, step)[k].at == Timetable(awake, step)[k - 1].at + step {
      TimetableAt(awake, step, k);
      TimetableAt(awake, step, k - 1);
      assert step * k == step * (k - 1) + step;
    }
    if awake != [] {
      TimetableAt(awake, step, 0);
      assert step * 0 == 0;
    }
  }

  lemma ScheduleOrder(awake: seq<Server>, step: nat)
    requires NoRepeats(awake)
    ensures OrderedAndDistinct(Timetable(awake, step))
  {
    forall j, k | 0 <= j < k < |awake|
      ensures Timetable(awake, step)[j].at <= Timetable(awake, step)[k].at
      ensures Timetable(awake, step)[j].server != Timetable(awake, step)[k].server
    {
      InOrder(awake, step, j, k);
      TimetableAt(awake, step, j);
      TimetableAt(awake, step, k);
    }
  }
}
