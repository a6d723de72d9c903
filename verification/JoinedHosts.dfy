/**
The joined-hosts table of a room, kept in step with the room state message by message, and the
recipients that each message yields.
*/
module JoinedHosts {
  import opened Wrappers
  import opened Sequences
  import opened StateDelta
  import opened Recipients

  /** The table that belongs to a state: one row per join-membership event. */
  ghost function Table(state: set<EventId>, reg: Registry): map<EventId, Server> {
    map id | id in state && id in reg && IsJoin(reg[id]) :: HostOf(reg[id]).value.value
  }

  function RowSet(table: map<EventId, Server>): set<JoinedHost> {
    set id | id in table :: JoinedHost(id, table[id])
  }

  lemma RowSetPlus(table: map<EventId, Server>, id: EventId, server: Server)
    requires id !in table
    ensures RowSet(table[id := server]) == RowSet(table) + {JoinedHost(id, server)}
  {
    forall h | h in RowSet(table) ensures h in RowSet(table[id := server]) {
      assert h.memberEventID in table[id := server];
    }
    assert id in table[id := server];
  }

  lemma TableRows(state: set<EventId>, reg: Registry)
    ensures RowSet(Table(state, reg)) == Rows(state, reg)
  {
    var table := Table(state, reg);
    forall h | h in Rows(state, reg) ensures h in RowSet(table) {
      assert h.memberEventID in table && h == JoinedHost(h.memberEventID, table[h.memberEventID]);
    }
  }

  /** The current state after an output event. */
  ghost function StateAfter(state: set<EventId>, ore: OutputNewRoomEvent): set<EventId> {
    if ore.rewritesState then Elements(ore.adds) else Apply(state, CurrentDelta(ore))
  }

  /** The state whose joined hosts come back from the table: a rewrite returns the rows just written. */
  ghost function OldState(state: set<EventId>, ore: OutputNewRoomEvent): set<EventId> {
    if ore.rewritesState then Elements(ore.adds) else state
  }

  /** Whom the event is handed to if it is to be sent; nobody, peeking servers included, for an empty host list. */
  ghost function HandedOver(state: set<EventId>, ore: OutputNewRoomEvent, peeks: set<Server>, reg: Registry)
    : Option<set<Server>>
  {
    if Table(OldState(state, ore), reg) == map[] then None
    else Some(SentTo(Rows(OldState(state, ore), reg), Folded(ore), peeks, reg))
  }

  /** Nobody gets an event who neither peeks nor has a join event among the old state and the added events. */
  lemma ReachedHaveJoined(state: set<EventId>, ore: OutputNewRoomEvent, peeks: set<Server>, reg: Registry)
    ensures var handed := HandedOver(state, ore, peeks, reg);
            handed.Some? ==> forall server :: server in handed.value ==> server in peeks || exists id ::
              (id in OldState(state, ore) || id in Folded(ore).adds) && id in reg && JoinsAs(reg[id], server)
  {
    var handed, olds, adds := HandedOver(state, ore, peeks, reg), OldState(state, ore), Folded(ore).adds;
    if handed.Some? {
      ServersOfRows(olds, Folded(ore).removes, reg);
      forall server | server in handed.value && server !in peeks
        ensures exists id :: (id in olds || id in adds) && id in reg && JoinsAs(reg[id], server)
      {
        JoinServersExactly(olds - Folded(ore).removes, reg, server);
        JoinServersExactly(adds, reg, server);
      }
    }
  }

  /** The added events that the roomserver has to be asked for. */
  function OtherIds(adds: seq<EventId>, id: EventId): seq<EventId> {
    if adds == [] then []
    else
      var last := adds[|adds| - 1];
      OtherIds(adds[..|adds| - 1], id) + if last == id then [] else [last]
  }

  lemma OtherIdsStep(adds: seq<EventId>, i: nat, id: EventId)
    requires i < |adds|
    ensures OtherIds(adds[..i + 1], id) == OtherIds(adds[..i], id) + if adds[i] == id then [] else [adds[i]]
    ensures Elements(adds[..i + 1]) == Elements(adds[..i]) + {adds[i]}
    ensures id in adds[..i + 1] <==> id in adds[..i] || id == adds[i]
  {
    assert adds[..i + 1] == adds[..i] + [adds[i]] && adds[..i + 1][..i] == adds[..i];
    ElementsSnoc(adds[..i], adds[i]);
  }

  /** NeededStateEventIDs: the event itself if it is among the added ones, and the IDs of the other added ones. */
  method NeededStateEventIDs(adds: seq<EventId>, event: StateEvent)
    returns (events: seq<StateEvent>, others: seq<EventId>)
    ensures others == OtherIds(adds, event.id) && Elements(others) == Elements(adds) - {event.id}
    ensures Elements(events) == if event.id in adds then {event} else {}
    ensures others == [] <==> Elements(adds) <= {event.id}
  {
    others, events := [], [];
    for i := 0 to |adds|
      invariant others == OtherIds(adds[..i], event.id) && Elements(others) == Elements(adds[..i]) - {event.id}
      invariant Elements(events) == if event.id in adds[..i] then {event} else {}
    {
      OtherIdsStep(adds, i, event.id);
      if adds[i] != event.id {
        ElementsSnoc(others, adds[i]);
        others := others + [adds[i]];
      } else {
        ElementsSnoc(events, event);
        events := events + [event];
      }
    }
    assert adds[..|adds|] == adds;
    NothingElse(others);
  }

  lemma NothingElse<T>(items: seq<T>)
    ensures items == [] <==> Elements(items) == {}
  {
    if items != [] {
      assert items[0] in Elements(items);
    }
  }

  class JoinedHostsTable {
    var joinedHosts: map<EventId, Server>

    constructor ()
      ensures joinedHosts == map[]
    {
      joinedHosts := map[];
    }

    /** INSERT ... ON CONFLICT DO NOTHING, row by row. */
    method InsertAll(hosts: seq<JoinedHost>)
      modifies this
      ensures joinedHosts.Keys == old(joinedHosts.Keys) + set h | h in hosts :: h.memberEventID
      ensures forall id :: id in old(joinedHosts) ==> joinedHosts[id] == old(joinedHosts)[id]
      ensures forall id :: id in joinedHosts && id !in old(joinedHosts) ==> JoinedHost(id, joinedHosts[id]) in hosts
    {
      for i := 0 to |hosts|
        invariant joinedHosts.Keys == old(joinedHosts.Keys) + set h | h in hosts[..i] :: h.memberEventID
        invariant forall id :: id in old(joinedHosts) ==> joinedHosts[id] == old(joinedHosts)[id]
        invariant forall id :: id in joinedHosts && id !in old(joinedHosts) ==>
                    JoinedHost(id, joinedHosts[id]) in hosts[..i]
      {
        assert hosts[..i + 1] == hosts[..i] + [hosts[i]];
        if hosts[i].memberEventID !in joinedHosts {
          joinedHosts := joinedHosts[hosts[i].memberEventID := hosts[i].serverName];
        }
      }
      assert hosts[..|hosts|] == hosts;
    }

    /** SELECT: the rows in some order. */
    method Select() returns (rows: seq<JoinedHost>)
      ensures Elements(rows) == RowSet(joinedHosts)
      ensures rows == [] <==> joinedHosts == map[]
    {
      rows := [];
      var todo := joinedHosts.Keys;
      while todo != {}
        invariant todo <= joinedHosts.Keys
        invariant Elements(rows) == RowSet(joinedHosts - todo)
        decreases todo
      {
        var id :| id in todo;
        var row := JoinedHost(id, joinedHosts[id]);
        assert joinedHosts - (todo - {id}) == (joinedHosts - todo)[id := joinedHosts[id]];
        RowSetPlus(joinedHosts - todo, id, joinedHosts[id]);
        assert Elements(rows + [row]) == Elements(rows) + {row};
        rows := rows + [row];
        todo := todo - {id};
      }
      assert joinedHosts - {} == joinedHosts;
      assert joinedHosts != map[] ==> RowSet(joinedHosts) != {} by {
        if joinedHosts != map[] {
          var id :| id in joinedHosts;
          assert JoinedHost(id, joinedHosts[id]) in RowSet(joinedHosts);
        }
      }
      if rows != [] {
        assert rows[0] in Elements(rows);
      }
    }

    /** UpdateRoom. Rewriting returns the hosts just added; otherwise it returns the rows from before. */
    method UpdateRoom(adds: seq<JoinedHost>, removes: seq<EventId>, purgeFirst: bool)
      returns (oldHosts: seq<JoinedHost>)
      modifies this
      ensures purgeFirst ==> oldHosts == adds
      ensures !purgeFirst ==> Elements(oldHosts) == RowSet(old(joinedHosts))
      ensures !purgeFirst ==> (oldHosts == [] <==> old(joinedHosts) == map[])
      ensures var kept := if purgeFirst then map[] else old(joinedHosts);
              var gone := if purgeFirst then {} else Elements(removes);
              && joinedHosts.Keys == kept.Keys + (set h | h in adds :: h.memberEventID) - gone
              && (forall id :: id in joinedHosts && id in kept ==> joinedHosts[id] == kept[id])
              && (forall id :: id in joinedHosts && id !in kept ==> JoinedHost(id, joinedHosts[id]) in adds)
    {
      if purgeFirst {
        joinedHosts := map[];
        InsertAll(adds);
        oldHosts := adds;
      } else {
        oldHosts := Select();
        InsertAll(adds);
        joinedHosts := joinedHosts - set id | id in removes;
      }
    }

    /** The joined hosts among the added events, the first part of processMessage. */
    method AddedHosts(ore: OutputNewRoomEvent, addReply: Option<seq<StateEvent>>, ghost reg: Registry)
      returns (r: Result<seq<JoinedHost>, Error>)
      requires Consistent(reg) && ore.event.id in reg && reg[ore.event.id] == ore.event
      requires addReply.Some? && |addReply.value| == |OtherIds(ore.adds, ore.event.id)| ==>
                 Complete(addReply.value, Elements(ore.adds) - {ore.event.id}, reg)
      ensures r.Ok? <==> Readable(ore, addReply, reg)
      ensures r.Ok? ==> Elements(r.value) == Rows(Elements(ore.adds), reg)
    {
      var events, others := NeededStateEventIDs(ore.adds, ore.event);
      assert others == OtherIds(ore.adds, ore.event.id);
      if |others| > 0 {
        if addReply.None? {
          return Err(QueryFailed);
        }
        if |addReply.value| != |others| {
          return Err(MissingStateEvents);
        }
        assert Elements(events + addReply.value) == Elements(events) + Elements(addReply.value);
        events := events + addReply.value;
      }
      AddedEvents(Elements(ore.adds), ore.event, others != [], Elements(events), addReply, reg);
      r := JoinedHostsFromEvents(events);
      RowsOfRegistry(Elements(ore.adds), reg);
      AllReadableInOrder(events, Elements(ore.adds), reg);
    }

    /** The table takes the step from one state to the next, and the old hosts come back. */
    method Follow(ore: OutputNewRoomEvent, added: seq<JoinedHost>, ghost state: set<EventId>, ghost reg: Registry)
      returns (oldHosts: seq<JoinedHost>)
      requires Consistent(reg) && joinedHosts == Table(state, reg)
      requires Elements(added) == Rows(Elements(ore.adds), reg)
      modifies this
      ensures joinedHosts == Table(StateAfter(state, ore), reg)
      ensures Elements(oldHosts) == Rows(OldState(state, ore), reg)
      ensures oldHosts == [] <==> Table(OldState(state, ore), reg) == map[]
    {
      oldHosts := UpdateRoom(added, ore.removes, ore.rewritesState);
      TableFollows(joinedHosts, state, ore, added, reg);
      TableRows(state, reg);
      NoRowsNoTable(Elements(ore.adds), reg);
      NothingElse(oldHosts);
    }

    /**
    processMessage, from the output event to the servers handed to the sending queues: None when nothing
    is sent. `addReply` answers for the added events that are not the event itself, `beforeReply` for the
    ones of the state before.
    */
    method ProcessMessage(ore: OutputNewRoomEvent, send: bool, addReply: Option<seq<StateEvent>>,
                          beforeReply: Option<seq<StateEvent>>, peeks: Option<seq<Server>>,
                          ghost state: set<EventId>, ghost reg: Registry)
      returns (r: Result<Option<set<Server>>, Error>)
      requires Consistent(reg) && ore.event.id in reg && reg[ore.event.id] == ore.event
      requires joinedHosts == Table(state, reg)
      requires addReply.Some? && |addReply.value| == |OtherIds(ore.adds, ore.event.id)| ==>
                 Complete(addReply.value, Elements(ore.adds) - {ore.event.id}, reg)
      requires Honest(beforeReply, Folded(ore).adds - {ore.event.id}, reg)
      modifies this
      ensures joinedHosts ==
                if Readable(ore, addReply, reg) then Table(StateAfter(state, ore), reg) else old(joinedHosts)
      ensures r.Ok? <==>
                && Readable(ore, addReply, reg)
                && (send && Table(OldState(state, ore), reg) != map[] ==>
                      && Answerable(Folded(ore).adds, ore.event, beforeReply) && peeks.Some?
                      && AllReadable(Folded(ore).adds, reg))
      ensures r.Ok? ==> r.value == if !send then None
                                   else HandedOver(state, ore, if peeks.Some? then Elements(peeks.value) else {}, reg)
      ensures r.Ok? && r.value.Some? ==> peeks.Some? && forall server :: server in r.value.value ==>
                server in peeks.value || (exists id :: id in reg && JoinsAs(reg[id], server))
    {
      var added := AddedHosts(ore, addReply, reg);
      if added.Err? {
        return Err(added.error);
      }
      var oldHosts := Follow(ore, added.value, state, reg);
      if |oldHosts| == 0 {
        return Ok(None);
      }
      if !send {
        return Ok(None);
      }
      var joined := JoinedHostsAtEvent(ore, oldHosts, beforeReply, peeks, reg);
      if joined.Err? {
        return Err(joined.error);
      }
      ReachedHaveJoined(state, ore, Elements(peeks.value), reg);
      return Ok(Some(joined.value));
    }
  }

  lemma AllReadableInOrder(events: seq<StateEvent>, ids: set<EventId>, reg: Registry)
    requires Elements(events) == EventsOf(ids, reg)
    ensures (exists e :: e in events && Unreadable(e)) <==> !AllReadable(ids, reg)
  {
    forall e ensures e in events <==> e in EventsOf(ids, reg) {
      assert e in events <==> e in Elements(events);
    }
    forall e | e in events ensures HostOf(e).Err? <==> Unreadable(e) {
      HostOfExactly(e, "");
    }
  }

  ghost predicate AllReadable(ids: set<EventId>, reg: Registry) {
    forall e :: e in EventsOf(ids, reg) ==> HostOf(e).Ok?
  }

  /** The added events can be had, and their hosts can be worked out. */
  ghost predicate Readable(ore: OutputNewRoomEvent, addReply: Option<seq<StateEvent>>, reg: Registry) {
    var others := OtherIds(ore.adds, ore.event.id);
    && (others != [] ==> addReply.Some? && |addReply.value| == |others|)
    && AllReadable(Elements(ore.adds), reg)
  }

  /** A reply that holds exactly the events asked for. */
  ghost predicate Complete(reply: seq<StateEvent>, asked: set<EventId>, reg: Registry) {
    Elements(reply) == EventsOf(asked, reg) && asked <= reg.Keys
  }

  lemma AddedEvents(adds: set<EventId>, event: StateEvent, queried: bool, events: set<StateEvent>,
                    reply: Option<seq<StateEvent>>, reg: Registry)
    requires Consistent(reg) && event.id in reg && reg[event.id] == event
    requires queried ==> reply.Some? && Complete(reply.value, adds - {event.id}, reg)
    requires !queried ==> adds - {event.id} == {}
    requires events == (if event.id in adds then {event} else {}) + (if queried then Elements(reply.value) else {})
    ensures events == EventsOf(adds, reg)
  {
    forall e | e in EventsOf(adds, reg) ensures e in events {
      assert e.id in adds;
      if e.id != event.id { assert e.id in adds - {event.id}; }
    }
  }

  lemma RowsOfRegistry(ids: set<EventId>, reg: Registry)
    requires Consistent(reg)
    ensures HostRows(EventsOf(ids, reg)) == Rows(ids, reg)
  {
    forall h | h in Rows(ids, reg) ensures h in HostRows(EventsOf(ids, reg)) {
      assert reg[h.memberEventID] in EventsOf(ids, reg);
    }
  }

  lemma NoRowsNoTable(ids: set<EventId>, reg: Registry)
    ensures Rows(ids, reg) == {} <==> Table(ids, reg) == map[]
  {
    TableRows(ids, reg);
    if Table(ids, reg) != map[] {
      var id :| id in Table(ids, reg);
      assert JoinedHost(id, Table(ids, reg)[id]) in RowSet(Table(ids, reg));
    }
  }

  lemma TableFollows(table: map<EventId, Server>, state: set<EventId>, ore: OutputNewRoomEvent, hosts: seq<JoinedHost>,
                     reg: Registry)
    requires Consistent(reg) && Elements(hosts) == Rows(Elements(ore.adds), reg)
    requires var kept := if ore.rewritesState then map[] else Table(state, reg);
             var gone := if ore.rewritesState then {} else Elements(ore.removes);
             && table.Keys == kept.Keys + (set h | h in hosts :: h.memberEventID) - gone
             && (forall id :: id in table && id in kept ==> table[id] == kept[id])
             && (forall id :: id in table && id !in kept ==> JoinedHost(id, table[id]) in hosts)
    ensures table == Table(StateAfter(state, ore), reg)
  {
    var target := Table(StateAfter(state, ore), reg);
    forall id | id in target ensures id in table {
      if id in Elements(ore.adds) {
        assert JoinedHost(id, target[id]) in Elements(hosts);
        assert JoinedHost(id, target[id]) in hosts;
      }
    }
    forall id | id in table ensures id in target && table[id] == target[id] {
      if id !in (if ore.rewritesState then map[] else Table(state, reg)) {
        assert JoinedHost(id, table[id]) in Elements(hosts);
      }
    }
  }

  /** The state before an event, from the state after it. */
  ghost function StateBefore(state: set<EventId>, ore: OutputNewRoomEvent): set<EventId> {
    Apply(StateAfter(state, ore), BeforeDelta(ore))
  }

  /**
  What the roomserver sends: deltas that may be folded, as those between actual states may, or a rewrite that lists
  the whole state.
  */
  ghost predicate WellFormed(state: set<EventId>, ore: OutputNewRoomEvent) {
    if ore.rewritesState then ore.removes == [] else CancellationIsSound(state, CurrentDelta(ore), BeforeDelta(ore))
  }

  /** Those who should have the event: joined in the state before it, or peeking. */
  ghost function Entitled(state: set<EventId>, ore: OutputNewRoomEvent, peeks: set<Server>, reg: Registry)
    : set<Server>
  {
    JoinServers(StateBefore(state, ore), reg) + peeks
  }

  function Reached(handed: Option<set<Server>>): set<Server> {
    if handed.Some? then handed.value else {}
  }

  /**
  Whether the servers that ProcessMessage hands over are the right ones. With an empty old host list that is so only if
  nobody is entitled. Otherwise it always is for a message that does not rewrite the state, and for one that does if
  the new state has no joined server that was neither joined before nor peeking.
  */
  lemma MessageRecipients(state: set<EventId>, ore: OutputNewRoomEvent, peeks: set<Server>, reg: Registry)
    requires WellFormed(state, ore)
    ensures var right := Entitled(state, ore, peeks, reg);
            Reached(HandedOver(state, ore, peeks, reg)) == right <==>
              if Table(OldState(state, ore), reg) == map[] then right == {}
              else (ore.rewritesState ==> JoinServers(StateAfter(state, ore), reg) <= right)
  {
    if ore.rewritesState {
      RewriteRecipients(ore, peeks, reg);
    } else {
      RecipientsAreExact(state, ore, peeks, reg);
    }
  }

  /** The first event of a room: a server that peeks already does not get it. */
  lemma PeekerMissesFirstEvent(peeker: Server, id: EventId)
    returns (state: set<EventId>, ore: OutputNewRoomEvent, reg: Registry)
    ensures WellFormed(state, ore) && !ore.rewritesState && Consistent(reg) && StateBefore(state, ore) == state
    ensures peeker in Entitled(state, ore, {peeker}, reg)
    ensures peeker !in Reached(HandedOver(state, ore, {peeker}, reg))
  {
    var event := StateEvent(id, false, true, None, LookupFailed);
    state, reg := {}, map[id := event];
    ore := OutputNewRoomEvent(event, false, [id], [], [], [id]);
    assert CurrentDelta(ore) == Delta({id}, {}) && BeforeDelta(ore) == Delta({}, {id});
    assert StateBefore(state, ore) == {};
  }

  // --- the same message twice -----------------------------------------------------------------------------

  /**
  A message comes again if the server went down, or the rest of the work failed, after the table was written. The table
  takes no harm, but the old host list is gone. For an event sent in the state that was current, the repeated message
  goes to the servers joined after the event instead of those before, so it is right exactly when they are the same.
  */
  lemma RepeatedRecipients(state: set<EventId>, ore: OutputNewRoomEvent, peeks: set<Server>, reg: Registry)
    requires !ore.rewritesState && StateBefore(state, ore) == state
    requires Effective(state, CurrentDelta(ore)) && Effective(StateAfter(state, ore), BeforeDelta(ore))
    ensures var after := StateAfter(state, ore);
            var right, repeated := Entitled(state, ore, peeks, reg), Reached(HandedOver(after, ore, peeks, reg));
            && StateAfter(after, ore) == after
            && right == JoinServers(state, reg) + peeks
            && repeated == (if Table(after, reg) == map[] then {} else JoinServers(after, reg) + peeks)
  {
    var after, d := StateAfter(state, ore), Folded(ore);
    CombinedPreservesEffectiveDeltas(state, CurrentDelta(ore), BeforeDelta(ore));
    CombinedIsEffective(state, CurrentDelta(ore), BeforeDelta(ore));
    assert Apply(state, d) == state;
    assert d.adds == {} && d.removes == {};
    RecipientsAreJoined(after, ore, peeks, reg);
    assert Apply(after, d) == after;
  }

  /** The server that leaves by the event, the last one in the room, does not get it when the message is repeated. */
  lemma RepeatedLeaveIsMissed(server: Server, join: EventId, leave: EventId)
    returns (state: set<EventId>, ore: OutputNewRoomEvent, reg: Registry)
    requires join != leave
    ensures WellFormed(state, ore) && !ore.rewritesState && Consistent(reg) && StateBefore(state, ore) == state
    ensures server in Entitled(state, ore, {}, reg) && server in Reached(HandedOver(state, ore, {}, reg))
    ensures server !in Reached(HandedOver(StateAfter(state, ore), ore, {}, reg))
  {
    var joined := StateEvent(join, true, true, Some("join"), UserId(server));
    var left := StateEvent(leave, true, true, Some("leave"), UserId(server));
    state, reg := {join}, map[join := joined, leave := left];
    ore := OutputNewRoomEvent(left, false, [leave], [join], [join], [leave]);
    assert CurrentDelta(ore) == Delta({leave}, {join}) && BeforeDelta(ore) == Delta({join}, {leave});
    assert StateAfter(state, ore) == {leave} && StateBefore(state, ore) == {join};
    assert join in Table(state, reg);
    assert server in JoinServers(state, reg);
    MessageRecipients(state, ore, {}, reg);
  }
}
