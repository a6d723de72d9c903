/**
Whom a room event is sent to: the servers joined in the state before the event, worked out from the
joined-hosts table and the deltas that come with the event.
*/
module Recipients {
  import opened Wrappers
  import opened Sequences
  import opened StateDelta

  datatype Lookup = UserId(domain: Server) | CorruptInput(split: Option<Server>) | LookupFailed

  /** A state event, with what parsing its membership and looking up its sender yield. */
  datatype StateEvent = StateEvent(
    id: EventId, isMember: bool, hasStateKey: bool, membership: Option<string>, lookup: Lookup)

  datatype JoinedHost = JoinedHost(memberEventID: EventId, serverName: Server)

  datatype Error = BadMembership | BadSender | QueryFailed | MissingStateEvents | PeeksFailed

  // --- membership events -------------------------------------------------------------------------

  /** The host an event makes joined, if any. */
  function HostOf(e: StateEvent): Result<Option<Server>, Error> {
    if !e.isMember || !e.hasStateKey then Ok(None)
    else if e.membership.None? then Err(BadMembership)
    else if e.membership.value != "join" then Ok(None)
    else match e.lookup
      case UserId(domain) => Ok(Some(domain))
      case CorruptInput(split) => if split.Some? then Ok(split) else Err(BadSender)
      case LookupFailed => Err(BadSender)
  }

  predicate IsJoin(e: StateEvent) {
    HostOf(e).Ok? && HostOf(e).value.Some?
  }

  /** The event joins a user of the server: a member event with a state key, membership "join" and a known sender. */
  predicate JoinsAs(e: StateEvent, server: Server) {
    && e.isMember && e.hasStateKey && e.membership == Some("join")
    && (e.lookup == UserId(server) || e.lookup == CorruptInput(Some(server)))
  }

  /** A member event without a membership, or a join whose sender tells no server. */
  predicate Unreadable(e: StateEvent) {
    && e.isMember && e.hasStateKey
    && (e.membership.None?
        || (e.membership == Some("join") && (e.lookup == CorruptInput(None) || e.lookup == LookupFailed)))
  }

  lemma HostOfExactly(e: StateEvent, server: Server)
    ensures HostOf(e) == Ok(Some(server)) <==> JoinsAs(e, server)
    ensures HostOf(e).Err? <==> Unreadable(e)
  {
  }

  /** The joined-hosts rows of the given events. */
  ghost function HostRows(events: set<StateEvent>): set<JoinedHost> {
    set e | e in events && IsJoin(e) :: JoinedHost(e.id, HostOf(e).value.value)
  }

  method JoinedHostsFromEvents(events: seq<StateEvent>) returns (r: Result<seq<JoinedHost>, Error>)
    ensures r.Ok? <==> forall i :: 0 <= i < |events| ==> HostOf(events[i]).Ok?
    ensures r.Ok? ==> Elements(r.value) == HostRows(Elements(events))
    ensures r.Ok? ==> forall h :: h in r.value <==>
              (exists e :: && e in events && e.id == h.memberEventID
                           && e.isMember && e.hasStateKey && e.membership == Some("join")
                           && (e.lookup == UserId(h.serverName) || e.lookup == CorruptInput(Some(h.serverName))))
    ensures r.Err? <==>
              (exists e :: && e in events && e.isMember && e.hasStateKey
                           && (e.membership.None? || (e.membership == Some("join")
                                                      && (e.lookup == CorruptInput(None) || e.lookup == LookupFailed))))
  {
    RowsExactly(events);
    FailuresExactly(events);
    var joinedHosts: seq<JoinedHost> := [];
    for k := 0 to |events|
      invariant forall i :: 0 <= i < k ==> HostOf(events[i]).Ok?
      invariant Elements(joinedHosts) == HostRows(Elements(events[..k]))
    {
      var e := events[k];
      assert Elements(events[..k + 1]) == Elements(events[..k]) + {e} by {
        assert events[..k + 1] == events[..k] + [e];
      }
      if !e.isMember || !e.hasStateKey {
        continue;
      }
      if e.membership.None? {
        return Err(BadMembership);
      }
      if e.membership.value != "join" {
        continue;
      }
      var domain;
      match e.lookup {
        case UserId(d) => domain := d;
        case CorruptInput(split) =>
          if split.None? {
            return Err(BadSender);
          }
          domain := split.value;
        case LookupFailed => return Err(BadSender);
      }
      HostRowsSnoc(Elements(events[..k]), e);
      assert Elements(joinedHosts + [JoinedHost(e.id, domain)]) == Elements(joinedHosts) + {JoinedHost(e.id, domain)};
      joinedHosts := joinedHosts + [JoinedHost(e.id, domain)];
    }
    assert events[..|events|] == events;
    assert forall h :: h in joinedHosts <==> h in HostRows(Elements(events)) by {
      assert forall h :: h in joinedHosts <==> h in Elements(joinedHosts);
    }
    assert forall h :: h in joinedHosts <==>
                         (exists e :: e in events && e.id == h.memberEventID && JoinsAs(e, h.serverName));
    return Ok(joinedHosts);
  }

  lemma RowsExactly(events: seq<StateEvent>)
    ensures forall h :: h in HostRows(Elements(events)) <==>
              exists e :: e in events && e.id == h.memberEventID && JoinsAs(e, h.serverName)
  {
    forall h ensures h in HostRows(Elements(events)) <==>
        exists e :: e in events && e.id == h.memberEventID && JoinsAs(e, h.serverName) {
      if h in HostRows(Elements(events)) {
        var e :| e in Elements(events) && IsJoin(e) && h == JoinedHost(e.id, HostOf(e).value.value);
        HostOfExactly(e, h.serverName);
      }
      if e :| e in events && e.id == h.memberEventID && JoinsAs(e, h.serverName) {
        HostOfExactly(e, h.serverName);
        assert e in Elements(events) && IsJoin(e);
      }
    }
  }

  lemma FailuresExactly(events: seq<StateEvent>)
    ensures (forall i :: 0 <= i < |events| ==> HostOf(events[i]).Ok?) <==> !exists e :: e in events && Unreadable(e)
  {
    forall e | e in events ensures HostOf(e).Err? <==> Unreadable(e) {
      HostOfExactly(e, "");
    }
    if e :| e in events && Unreadable(e) {
      var i :| 0 <= i < |events| && events[i] == e;
      assert HostOf(events[i]).Err?;
    }
  }

  lemma HostRowsSnoc(events: set<StateEvent>, e: StateEvent)
    requires IsJoin(e)
    ensures HostRows(events + {e}) == HostRows(events) + {JoinedHost(e.id, HostOf(e).value.value)}
  {
  }

  // --- looking events up ---------------------------------------------------------------------------

  /** All events the roomserver knows, by ID. */
  type Registry = map<EventId, StateEvent>

  ghost predicate Consistent(reg: Registry) {
    forall id :: id in reg ==> reg[id].id == id
  }

  ghost function EventsOf(ids: set<EventId>, reg: Registry): set<StateEvent> {
    set id | id in ids && id in reg :: reg[id]
  }

  function Ids(events: seq<StateEvent>): set<EventId> {
    set e | e in events :: e.id
  }

  method MissingEventsFrom(events: seq<StateEvent>, required: seq<EventId>) returns (missing: seq<EventId>)
    ensures Elements(missing) == Elements(required) - Ids(events)
    ensures missing == [] <==> Elements(required) <= Ids(events)
  {
    var have: set<EventId> := {};
    for i := 0 to |events|
      invariant have == Ids(events[..i])
    {
      assert events[..i + 1] == events[..i] + [events[i]];
      have := have + {events[i].id};
    }
    assert events[..|events|] == events;
    missing := [];
    for i := 0 to |required|
      invariant Elements(missing) == Elements(required[..i]) - have
    {
      assert required[..i + 1] == required[..i] + [required[i]];
      if required[i] !in have {
        assert Elements(missing + [required[i]]) == Elements(missing) + {required[i]};
        missing := missing + [required[i]];
      }
    }
    assert required[..|required|] == required;
    assert missing == [] <==> Elements(missing) == {} by {
      if missing != [] { assert missing[0] in Elements(missing); }
    }
    assert Elements(missing) == {} <==> Elements(required) <= have by {
      if Elements(missing) == {} {
        forall id | id in Elements(required) ensures id in have {
          assert id !in Elements(missing);
        }
      }
    }
  }

  /** A roomserver reply to a query for `asked`: known events, and only ones that were asked for. */
  ghost predicate Honest(reply: Option<seq<StateEvent>>, asked: set<EventId>, reg: Registry) {
    reply.Some? ==> forall e :: e in reply.value ==> e.id in asked && e.id in reg && reg[e.id] == e
  }

  /** The event itself and the reply cover everything that is needed; no query is made for the event alone. */
  predicate Answerable(ids: set<EventId>, event: StateEvent, reply: Option<seq<StateEvent>>) {
    ids <= {event.id} || (reply.Some? && ids - {event.id} <= Ids(reply.value))
  }

  /** lookupStateEvents; `reply` is None when the query fails. */
  method LookupStateEvents(ids: seq<EventId>, event: StateEvent, reply: Option<seq<StateEvent>>, ghost reg: Registry)
    returns (r: Result<seq<StateEvent>, Error>)
    requires Consistent(reg) && event.id in reg && reg[event.id] == event
    requires Honest(reply, Elements(ids) - {event.id}, reg)
    ensures r.Ok? ==> Elements(ids) <= reg.Keys && Elements(r.value) == EventsOf(Elements(ids), reg)
    ensures r.Ok? <==> Answerable(Elements(ids), event, reply)
  {
    if |ids| == 0 {
      return Ok([]);
    }
    if |ids| == 1 && ids[0] == event.id {
      return Ok([event]);
    }
    var result: seq<StateEvent> := [];
    for i := 0 to |ids|
      invariant result == [] && event.id !in ids[..i]
    {
      if ids[i] == event.id {
        result := result + [event];
        break;
      }
    }
    assert ids[..|ids|] == ids;
    assert result == if event.id in ids then [event] else [];
    var missing := MissingEventsFrom(result, ids);
    assert Ids(result) == if event.id in ids then {event.id} else {};
    if |missing| == 0 {
      assert ids[0] in Elements(ids);
      assert Elements(ids) == {event.id};
      return Ok(result);
    }
    if reply.None? {
      assert missing[0] in Elements(missing);
      return Err(QueryFailed);
    }
    ghost var own := result;
    result := result + reply.value;
    missing := MissingEventsFrom(result, ids);
    assert Ids(result) == Ids(own) + Ids(reply.value);
    if |missing| != 0 {
      assert missing[0] in Elements(missing);
      return Err(MissingStateEvents);
    }
    AnsweredExactly(ids, result, reg);
    return Ok(result);
  }

  lemma AnsweredExactly(ids: seq<EventId>, result: seq<StateEvent>, reg: Registry)
    requires Consistent(reg)
    requires forall e :: e in result ==> e.id in Elements(ids) && e.id in reg && reg[e.id] == e
    requires Elements(ids) <= Ids(result)
    ensures Elements(ids) <= reg.Keys && Elements(result) == EventsOf(Elements(ids), reg)
  {
    forall id | id in Elements(ids) ensures id in reg && reg[id] in result {
      var e :| e in result && e.id == id;
    }
  }

  // --- the servers to send to -------------------------------------------------------------------------

  /** Servers with a join-membership event among `ids`. */
  ghost function JoinServers(ids: set<EventId>, reg: Registry): set<Server> {
    set id | id in ids && id in reg && IsJoin(reg[id]) :: HostOf(reg[id]).value.value
  }

  /** A server is joined exactly if one of the events joins a user of it. */
  lemma JoinServersExactly(ids: set<EventId>, reg: Registry, server: Server)
    ensures server in JoinServers(ids, reg) <==> exists id :: id in ids && id in reg && JoinsAs(reg[id], server)
  {
    forall id | id in ids && id in reg ensures IsJoin(reg[id]) && HostOf(reg[id]).value.value == server <==>
        JoinsAs(reg[id], server) {
      HostOfExactly(reg[id], server);
    }
  }

  function ServersOf(hosts: set<JoinedHost>): set<Server> {
    set h | h in hosts :: h.serverName
  }

  /** What comes out of an old host list, a folded delta and the inbound peeks. */
  ghost function SentTo(oldHosts: set<JoinedHost>, d: Delta, peeks: set<Server>, reg: Registry): set<Server> {
    ServersOf(set h | h in oldHosts && h.memberEventID !in d.removes) + JoinServers(d.adds, reg) + peeks
  }

  datatype OutputNewRoomEvent = OutputNewRoomEvent(
    event: StateEvent, rewritesState: bool,
    adds: seq<EventId>, removes: seq<EventId>,
    stateBeforeAdds: seq<EventId>, stateBeforeRemoves: seq<EventId>)

  function CurrentDelta(ore: OutputNewRoomEvent): Delta {
    Delta(Elements(ore.adds), Elements(ore.removes))
  }

  function BeforeDelta(ore: OutputNewRoomEvent): Delta {
    Delta(Elements(ore.stateBeforeAdds), Elements(ore.stateBeforeRemoves))
  }

  function Folded(ore: OutputNewRoomEvent): Delta {
    Combined(CurrentDelta(ore), BeforeDelta(ore))
  }

  /** joinedHostsAtEvent */
  method JoinedHostsAtEvent(ore: OutputNewRoomEvent, oldJoinedHosts: seq<JoinedHost>, reply: Option<seq<StateEvent>>,
                            peeks: Option<seq<Server>>, ghost reg: Registry)
    returns (r: Result<set<Server>, Error>)
    requires Consistent(reg) && ore.event.id in reg && reg[ore.event.id] == ore.event
    requires Honest(reply, Folded(ore).adds - {ore.event.id}, reg)
    ensures r.Ok? <==> Answerable(Folded(ore).adds, ore.event, reply) && peeks.Some?
                       && forall e :: e in EventsOf(Folded(ore).adds, reg) ==> HostOf(e).Ok?
    ensures r.Ok? ==> r.value == SentTo(Elements(oldJoinedHosts), Folded(ore), Elements(peeks.value), reg)
  {
    var combinedAdds, combinedRemoves :=
      CombineDeltas(ore.adds, ore.removes, ore.stateBeforeAdds, ore.stateBeforeRemoves);
    var events := LookupStateEvents(combinedAdds, ore.event, reply, reg);
    if events.Err? {
      return Err(events.error);
    }
    var addsHosts := JoinedHostsFromEvents(events.value);
    if addsHosts.Err? {
      return Err(addsHosts.error);
    }
    var removed: set<EventId> := set id | id in combinedRemoves;
    var stayed := HostsKept(oldJoinedHosts, removed);
    var joined := HostsAdded(stayed, addsHosts.value);
    RowsOfEvents(Folded(ore).adds, reg);
    if peeks.None? {
      return Err(PeeksFailed);
    }
    for i := 0 to |peeks.value|
      invariant joined == stayed + JoinServers(Folded(ore).adds, reg) + Elements(peeks.value[..i])
    {
      assert peeks.value[..i + 1] == peeks.value[..i] + [peeks.value[i]];
      joined := joined + {peeks.value[i]};
    }
    assert peeks.value[..|peeks.value|] == peeks.value;
    return Ok(joined);
  }

  /** The first loop of joinedHostsAtEvent: hosts whose membership event is not being removed. */
  method HostsKept(oldJoinedHosts: seq<JoinedHost>, removed: set<EventId>) returns (joined: set<Server>)
    ensures joined == ServersOf(set h | h in Elements(oldJoinedHosts) && h.memberEventID !in removed)
  {
    joined := {};
    for i := 0 to |oldJoinedHosts|
      invariant joined == ServersOf(set h | h in oldJoinedHosts[..i] && h.memberEventID !in removed)
    {
      assert oldJoinedHosts[..i + 1] == oldJoinedHosts[..i] + [oldJoinedHosts[i]];
      if oldJoinedHosts[i].memberEventID in removed {
        continue;
      }
      joined := joined + {oldJoinedHosts[i].serverName};
    }
    assert oldJoinedHosts[..|oldJoinedHosts|] == oldJoinedHosts;
  }

  /** The second loop: hosts joined by events of the state before. */
  method HostsAdded(start: set<Server>, hosts: seq<JoinedHost>) returns (joined: set<Server>)
    ensures joined == start + ServersOf(Elements(hosts))
  {
    joined := start;
    for i := 0 to |hosts|
      invariant joined == start + ServersOf(Elements(hosts[..i]))
    {
      assert hosts[..i + 1] == hosts[..i] + [hosts[i]];
      joined := joined + {hosts[i].serverName};
    }
    assert hosts[..|hosts|] == hosts;
  }

  lemma RowsOfEvents(ids: set<EventId>, reg: Registry)
    requires Consistent(reg)
    ensures ServersOf(HostRows(EventsOf(ids, reg))) == JoinServers(ids, reg)
  {
    var rows := HostRows(EventsOf(ids, reg));
    forall s | s in JoinServers(ids, reg) ensures s in ServersOf(rows) {
      var id :| id in ids && id in reg && IsJoin(reg[id]) && HostOf(reg[id]).value.value == s;
      assert reg[id] in EventsOf(ids, reg);
      assert JoinedHost(id, s) in rows;
    }
    forall s | s in ServersOf(rows) ensures s in JoinServers(ids, reg) {
      var h :| h in rows && h.serverName == s;
      var e :| e in EventsOf(ids, reg) && IsJoin(e) && h == JoinedHost(e.id, HostOf(e).value.value);
      assert e.id in ids && reg[e.id] == e;
    }
  }

  // --- are those the right servers? ---------------------------------------------------------------------

  /** The joined-hosts rows of a state. */
  ghost function Rows(state: set<EventId>, reg: Registry): set<JoinedHost> {
    set id | id in state && id in reg && IsJoin(reg[id]) :: JoinedHost(id, HostOf(reg[id]).value.value)
  }

  lemma ServersOfRows(state: set<EventId>, gone: set<EventId>, reg: Registry)
    ensures ServersOf(set h | h in Rows(state, reg) && h.memberEventID !in gone) == JoinServers(state - gone, reg)
  {
    var kept := set h | h in Rows(state, reg) && h.memberEventID !in gone;
    forall s | s in JoinServers(state - gone, reg) ensures s in ServersOf(kept) {
      var id :| id in state - gone && id in reg && IsJoin(reg[id]) && HostOf(reg[id]).value.value == s;
      assert JoinedHost(id, s) in kept;
    }
    forall s | s in ServersOf(kept) ensures s in JoinServers(state - gone, reg) {
      var h :| h in kept && h.serverName == s;
    }
  }

  lemma JoinServersUnion(a: set<EventId>, b: set<EventId>, reg: Registry)
    ensures JoinServers(a + b, reg) == JoinServers(a, reg) + JoinServers(b, reg)
  {
  }

  /** Whatever the deltas, the event goes to the servers joined in the state that the folded delta leads to. */
  lemma RecipientsAreJoined(state: set<EventId>, ore: OutputNewRoomEvent, peeks: set<Server>, reg: Registry)
    ensures SentTo(Rows(state, reg), Folded(ore), peeks, reg) == JoinServers(Apply(state, Folded(ore)), reg) + peeks
  {
    var d := Folded(ore);
    ServersOfRows(state, d.removes, reg);
    CombinedIsDisjoint(CurrentDelta(ore), BeforeDelta(ore));
    assert Apply(state, d) == (state - d.removes) + d.adds;
    JoinServersUnion(state - d.removes, d.adds, reg);
  }

  /**
  If the old host list is the join-membership events of the old state, and what cancelled out was already as it ends
  up, the event goes exactly to the servers joined in the state before the event, and the peeking ones.
  */
  lemma RecipientsAreExact(state: set<EventId>, ore: OutputNewRoomEvent, peeks: set<Server>, reg: Registry)
    requires CancellationIsSound(state, CurrentDelta(ore), BeforeDelta(ore))
    ensures SentTo(Rows(state, reg), Folded(ore), peeks, reg)
         == JoinServers(InTurn(state, CurrentDelta(ore), BeforeDelta(ore)), reg) + peeks
  {
    RecipientsAreJoined(state, ore, peeks, reg);
    CombinedPreservesExactlyWhen(state, CurrentDelta(ore), BeforeDelta(ore));
  }

  /**
  When an event rewrites the state, the host list that comes back is that of the new state, so the event
  goes to the servers joined in the new state or in the state before. That is the right set exactly when
  nobody is joined in the new state who was not joined, or peeking, before.
  */
  lemma RewriteRecipients(ore: OutputNewRoomEvent, peeks: set<Server>, reg: Registry)
    requires ore.removes == []
    ensures var after := CurrentDelta(ore).adds; var before := Apply(after, BeforeDelta(ore));
            var sent := SentTo(Rows(after, reg), Folded(ore), peeks, reg);
            && sent == JoinServers(after + before, reg) + peeks
            && (sent == JoinServers(before, reg) + peeks <==>
                  JoinServers(after, reg) <= JoinServers(before, reg) + peeks)
  {
    var after, d := CurrentDelta(ore).adds, Folded(ore);
    var before := Apply(after, BeforeDelta(ore));
    assert d.adds == before && d.removes !! after;
    ServersOfRows(after, d.removes, reg);
    assert after - d.removes == after;
    JoinServersUnion(after, before, reg);
  }

  /** A rewrite that sends the event to a server joined only in the state after it. */
  lemma RewriteReachesNewcomer(newcomer: Server, id: EventId) returns (ore: OutputNewRoomEvent, reg: Registry)
    ensures Consistent(reg) && ore.rewritesState && ore.removes == []
    ensures Effective(CurrentDelta(ore).adds, BeforeDelta(ore))
    ensures newcomer in SentTo(Rows(CurrentDelta(ore).adds, reg), Folded(ore), {}, reg)
    ensures newcomer !in JoinServers(Apply(CurrentDelta(ore).adds, BeforeDelta(ore)), reg)
  {
    var join := StateEvent(id, true, true, Some("join"), UserId(newcomer));
    reg := map[id := join];
    ore := OutputNewRoomEvent(join, true, [id], [], [], [id]);
    assert CurrentDelta(ore) == Delta({id}, {}) && BeforeDelta(ore) == Delta({}, {id});
    assert Folded(ore) == Delta({}, {});
    var rows := Rows({id}, reg);
    assert JoinedHost(id, newcomer) in rows;
    assert JoinedHost(id, newcomer) in set h | h in rows && h.memberEventID !in Folded(ore).removes;
  }
}
