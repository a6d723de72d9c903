/**
The event provider used while checking a join or peek response: it fetches missing auth events from one
server and remembers what it has asked for and what it got.
*/
module EventProviders {
  import opened Wrappers
  import opened Sequences

  datatype Event = Event(id: string, content: string)

  /** One PDU of a reply: it may fail to parse, and a parsed one may fail its signature check. */
  datatype Pdu = Garbage | Parsed(event: Event, signed: bool)

  datatype Reply = Unreachable | Transaction(pdus: seq<Pdu>)

  datatype Failure = UnknownVersion | NotRetrying | FetchFailed | BadEvent | BadSignature

  /**
  `retries` is the map of the closure, where [] stands for nil. `asked` lists the IDs requested so far and
  `accepted` the events that passed their checks, oldest first.
  */
  datatype Book = Book(retries: map<string, seq<Event>>, asked: seq<string>, accepted: seq<Event>)

  datatype Outcome = Outcome(book: Book, answer: Result<seq<Event>, Failure>)

  const BLANK := Book(map[], [], [])

  function Entry(b: Book, id: string): seq<Event> {
    if id in b.retries then b.retries[id] else []
  }

  /** The accepted events with a given ID. */
  function Having(events: seq<Event>, id: string): seq<Event> {
    if events == [] then []
    else
      var last := events[|events| - 1];
      Having(events[..|events| - 1], id) + if last.id == id then [last] else []
  }

  // --- one reply --------------------------------------------------------------------------------------

  function Check(p: Pdu): Result<Event, Failure> {
    match p
    case Garbage => Err(BadEvent)
    case Parsed(e, signed) => if signed then Ok(e) else Err(BadSignature)
  }

  function Note(b: Book, e: Event): Book {
    b.(retries := b.retries[e.id := Entry(b, e.id) + [e]], accepted := b.accepted + [e])
  }

  /** The good PDUs of a reply up to the first bad one. */
  function TakeIn(b: Book, pdus: seq<Pdu>): Outcome {
    if pdus == [] then Outcome(b, Ok([]))
    else
      var before := TakeIn(b, pdus[..|pdus| - 1]);
      if before.answer.Err? then before
      else
        var c := Check(pdus[|pdus| - 1]);
        if c.Err? then Outcome(before.book, Err(c.error))
        else Outcome(Note(before.book, c.value), Ok(before.answer.value + [c.value]))
  }

  function AskOne(b: Book, id: string, server: string -> Reply): Outcome {
    if id in b.retries then Outcome(b, if b.retries[id] == [] then Err(NotRetrying) else Ok(b.retries[id]))
    else
      var noted := b.(retries := b.retries[id := []], asked := b.asked + [id]);
      match server(id)
      case Unreachable => Outcome(noted, Err(FetchFailed))
      case Transaction(pdus) => TakeIn(noted, pdus)
  }

  function Ask(b: Book, ids: seq<string>, server: string -> Reply): Outcome {
    if ids == [] then Outcome(b, Ok([]))
    else
      var before := Ask(b, ids[..|ids| - 1], server);
      if before.answer.Err? then before
      else
        var one := AskOne(before.book, ids[|ids| - 1], server);
        Outcome(one.book, if one.answer.Err? then one.answer else Ok(before.answer.value + one.answer.value))
  }

  lemma Associates<T>(a: seq<T>, b: seq<T>, c: seq<T>)
    ensures a + b + c == a + (b + c)
  {
  }

  // --- which events are accepted ------------------------------------------------------------------------

  predicate IsGood(p: Pdu) {
    p.Parsed? && p.signed
  }

  predicate AllGood(pdus: seq<Pdu>) {
    forall i :: 0 <= i < |pdus| ==> IsGood(pdus[i])
  }

  predicate FirstBadAt(pdus: seq<Pdu>, i: int) {
    0 <= i < |pdus| && !IsGood(pdus[i]) && AllGood(pdus[..i])
  }

  /** The events are those of the PDUs, one by one, each parsed and with a good signature. */
  predicate AreEventsOf(events: seq<Event>, pdus: seq<Pdu>) {
    |events| == |pdus| && forall i :: 0 <= i < |pdus| ==> pdus[i] == Parsed(events[i], true)
  }

  function FailureOf(p: Pdu): Failure {
    if p.Garbage? then BadEvent else BadSignature
  }

  /**
  A reply is taken exactly if every PDU is parsed and signed, and then its events are the answer. Otherwise the first
  bad PDU gives the failure; the events before it are accepted all the same.
  */
  lemma {:induction false} TakeInExactly(b: Book, pdus: seq<Pdu>)
    ensures var out := TakeIn(b, pdus);
            && (out.answer.Ok? <==> AllGood(pdus))
            && (out.answer.Ok? ==> AreEventsOf(out.answer.value, pdus)
                                   && out.book.accepted == b.accepted + out.answer.value)
            && (out.answer.Err? ==> exists i :: FirstBadAt(pdus, i) && out.answer.error == FailureOf(pdus[i])
                                                && out.book == TakeIn(b, pdus[..i]).book)
  {
    if pdus != [] {
      var n := |pdus| - 1;
      TakeInExactly(b, pdus[..n]);
      var before, out := TakeIn(b, pdus[..n]), TakeIn(b, pdus);
      assert AllGood(pdus) <==> AllGood(pdus[..n]) && IsGood(pdus[n]);
      if before.answer.Err? {
        var i :| FirstBadAt(pdus[..n], i) && before.answer.error == FailureOf(pdus[..n][i])
                 && before.book == TakeIn(b, pdus[..n][..i]).book;
        assert pdus[..n][..i] == pdus[..i];
        assert FirstBadAt(pdus, i);
      } else if !IsGood(pdus[n]) {
        assert FirstBadAt(pdus, n);
      }
    }
  }

  /** The same without the names. */
  lemma TakeInOutright(b: Book, pdus: seq<Pdu>)
    ensures var r := TakeIn(b, pdus).answer;
            && (r.Ok? <==> forall i :: 0 <= i < |pdus| ==> pdus[i].Parsed? && pdus[i].signed)
            && (r.Ok? ==> |r.value| == |pdus| && forall i :: 0 <= i < |pdus| ==> pdus[i] == Parsed(r.value[i], true))
            && (r.Err? ==> exists i :: FirstBadAt(pdus, i)
                                       && r.error == if pdus[i].Garbage? then BadEvent else BadSignature)
  {
    TakeInExactly(b, pdus);
    assert AllGood(pdus) <==> forall i :: 0 <= i < |pdus| ==> pdus[i].Parsed? && pdus[i].signed;
    if TakeIn(b, pdus).answer.Err? {
      var i :| FirstBadAt(pdus, i) && TakeIn(b, pdus).answer.error == FailureOf(pdus[i]);
    }
  }

  /** What one request comes to, for an ID that is not in the books. */
  lemma FirstRequestExactly(b: Book, id: string, server: string -> Reply)
    requires id !in b.retries
    ensures var one, reply := AskOne(b, id, server), server(id);
            && (reply.Unreachable? ==> one.answer == Err(FetchFailed))
            && (reply.Transaction? ==>
                  && (one.answer.Ok? <==> AllGood(reply.pdus))
                  && (one.answer.Ok? ==> AreEventsOf(one.answer.value, reply.pdus))
                  && (one.answer.Err? ==>
                        exists i :: FirstBadAt(reply.pdus, i) && one.answer.error == FailureOf(reply.pdus[i])))
  {
    if server(id).Transaction? {
      TakeInExactly(b.(retries := b.retries[id := []], asked := b.asked + [id]), server(id).pdus);
    }
  }

  /** The IDs before the k-th are answered, and this one is not. */
  predicate FailsAt(b: Book, ids: seq<string>, k: int, server: string -> Reply, f: Failure) {
    && 0 <= k < |ids| && Ask(b, ids[..k], server).answer.Ok?
    && AskOne(Ask(b, ids[..k], server).book, ids[k], server).answer == Err(f)
  }

  lemma {:induction false} AskFailsExactly(b: Book, ids: seq<string>, server: string -> Reply)
    ensures Ask(b, ids, server).answer.Err? ==> exists k :: FailsAt(b, ids, k, server, Ask(b, ids, server).answer.error)
    ensures Ask(b, ids, server).answer.Ok? ==> forall k, f :: !FailsAt(b, ids, k, server, f)
  {
    if ids != [] {
      var n := |ids| - 1;
      AskFailsExactly(b, ids[..n], server);
      forall k | 0 <= k < n ensures ids[..n][..k] == ids[..k] { }
      if Ask(b, ids[..n], server).answer.Err? {
        var f := Ask(b, ids[..n], server).answer.error;
        var k :| FailsAt(b, ids[..n], k, server, f);
        assert FailsAt(b, ids, k, server, f);
      } else {
        if Ask(b, ids, server).answer.Err? {
          assert FailsAt(b, ids, n, server, Ask(b, ids, server).answer.error);
        }
        forall k, f | 0 <= k < n ensures !FailsAt(b, ids, k, server, f) {
          assert FailsAt(b, ids, k, server, f) ==> FailsAt(b, ids[..n], k, server, f);
        }
      }
    }
  }

  function Joined(first: Outcome, second: Outcome): Outcome {
    if first.answer.Err? then first
    else if second.answer.Err? then second
    else Outcome(second.book, Ok(first.answer.value + second.answer.value))
  }

  /** The answer to a list is the answers to its parts, in order; what fails first decides. */
  lemma {:induction false} AskInParts(b: Book, ids: seq<string>, more: seq<string>, server: string -> Reply)
    ensures Ask(b, ids + more, server) == Joined(Ask(b, ids, server), Ask(Ask(b, ids, server).book, more, server))
    ensures |more| == 1 ==> Ask(b, more, server) == AskOne(b, more[0], server)
  {
    if more == [] {
      assert ids + more == ids;
      var first := Ask(b, ids, server);
      assert first.answer.Ok? ==> first.answer.value + [] == first.answer.value;
    } else {
      var init, last := more[..|more| - 1], more[|more| - 1];
      AskInParts(b, ids, init, server);
      assert (ids + more)[..|ids + more| - 1] == ids + init && (ids + more)[|ids + more| - 1] == last;
      var first, second := Ask(b, ids, server), Ask(Ask(b, ids, server).book, init, server);
      var third := AskOne(second.book, last, server);
      if first.answer.Ok? && second.answer.Ok? && third.answer.Ok? {
        Associates(first.answer.value, second.answer.value, third.answer.value);
      }
      if |more| == 1 {
        var one := AskOne(b, more[0], server);
        assert init == [] && (one.answer.Ok? ==> [] + one.answer.value == one.answer.value);
      }
    }
  }

  // --- the books keep the history -----------------------------------------------------------------------

  /** An entry is what was accepted under its ID, and there is one exactly for the IDs asked for or received. */
  ghost predicate BookInv(b: Book) {
    && NoRepeats(b.asked)
    && (forall id :: Entry(b, id) == Having(b.accepted, id))
    && (forall id :: id in b.retries <==> id in b.asked || Having(b.accepted, id) != [])
  }

  /** Later books extend earlier ones. */
  predicate Extends(b: Book, later: Book) {
    b.asked <= later.asked && b.accepted <= later.accepted
  }

  lemma HavingSnoc(events: seq<Event>, e: Event, id: string)
    ensures Having(events + [e], id) == Having(events, id) + if e.id == id then [e] else []
  {
    assert (events + [e])[..|events|] == events;
  }

  lemma NoteKeeps(b: Book, e: Event)
    requires BookInv(b)
    ensures BookInv(Note(b, e)) && Extends(b, Note(b, e))
  {
    forall id ensures Entry(Note(b, e), id) == Having(Note(b, e).accepted, id) {
      HavingSnoc(b.accepted, e, id);
    }
    forall id ensures id in Note(b, e).retries <==> id in b.asked || Having(Note(b, e).accepted, id) != [] {
      HavingSnoc(b.accepted, e, id);
    }
  }

  lemma {:induction false} TakeInKeeps(b: Book, pdus: seq<Pdu>)
    requires BookInv(b)
    ensures BookInv(TakeIn(b, pdus).book) && Extends(b, TakeIn(b, pdus).book)
    ensures TakeIn(b, pdus).book.asked == b.asked
    ensures TakeIn(b, pdus).answer.Ok? ==> TakeIn(b, pdus).book.accepted == b.accepted + TakeIn(b, pdus).answer.value
  {
    if pdus != [] {
      var before := TakeIn(b, pdus[..|pdus| - 1]);
      TakeInKeeps(b, pdus[..|pdus| - 1]);
      var c := Check(pdus[|pdus| - 1]);
      if before.answer.Ok? && c.Ok? {
        NoteKeeps(before.book, c.value);
        Associates(b.accepted, before.answer.value, [c.value]);
      }
    }
  }

  lemma FirstAskKeeps(b: Book, id: string)
    requires BookInv(b) && id !in b.retries
    ensures BookInv(b.(retries := b.retries[id := []], asked := b.asked + [id]))
  {
    var noted := b.(retries := b.retries[id := []], asked := b.asked + [id]);
    assert Having(b.accepted, id) == Entry(b, id) == [];
    forall x ensures Entry(noted, x) == Having(noted.accepted, x) {
      assert Entry(b, x) == Having(b.accepted, x);
    }
  }

  lemma AskOneKeeps(b: Book, id: string, server: string -> Reply)
    requires BookInv(b)
    ensures BookInv(AskOne(b, id, server).book) && Extends(b, AskOne(b, id, server).book)
    ensures id in AskOne(b, id, server).book.retries
  {
    if id !in b.retries {
      var noted := b.(retries := b.retries[id := []], asked := b.asked + [id]);
      FirstAskKeeps(b, id);
      if server(id).Transaction? {
        TakeInKeeps(noted, server(id).pdus);
        assert id in TakeIn(noted, server(id).pdus).book.asked;
      }
    }
  }

  lemma {:induction false} AskKeeps(b: Book, ids: seq<string>, server: string -> Reply)
    requires BookInv(b)
    ensures BookInv(Ask(b, ids, server).book) && Extends(b, Ask(b, ids, server).book)
  {
    if ids != [] {
      AskKeeps(b, ids[..|ids| - 1], server);
      AskOneKeeps(Ask(b, ids[..|ids| - 1], server).book, ids[|ids| - 1], server);
    }
  }

  // --- any number of calls -----------------------------------------------------------------------------

  datatype Call = Call(ids: seq<string>, server: string -> Reply)

  function After(b: Book, calls: seq<Call>): Book {
    if calls == [] then b
    else
      var last := calls[|calls| - 1];
      Ask(After(b, calls[..|calls| - 1]), last.ids, last.server).book
  }

  /** Calls take the books one after the other from where they were left. */
  lemma OneMoreCall(b: Book, calls: seq<Call>, last: Call)
    ensures After(b, []) == b
    ensures After(b, calls + [last]) == Ask(After(b, calls), last.ids, last.server).book
  {
    assert (calls + [last])[..|calls|] == calls;
  }

  lemma {:induction false} EveryRunKeeps(b: Book, calls: seq<Call>)
    requires BookInv(b)
    ensures BookInv(After(b, calls)) && Extends(b, After(b, calls))
  {
    if calls != [] {
      var before := After(b, calls[..|calls| - 1]);
      EveryRunKeeps(b, calls[..|calls| - 1]);
      AskKeeps(before, calls[|calls| - 1].ids, calls[|calls| - 1].server);
    }
  }

  /** The event came in answer to one of the requests, parsed and with a good signature. */
  predicate WasReplied(ids: seq<string>, server: string -> Reply, e: Event) {
    exists k :: 0 <= k < |ids| && server(ids[k]).Transaction? && Parsed(e, true) in server(ids[k]).pdus
  }

  lemma {:induction false} TakenWereReplied(b: Book, pdus: seq<Pdu>, e: Event)
    requires e in TakeIn(b, pdus).book.accepted
    ensures e in b.accepted || Parsed(e, true) in pdus
  {
    if pdus != [] {
      var before := TakeIn(b, pdus[..|pdus| - 1]);
      if e in before.book.accepted {
        TakenWereReplied(b, pdus[..|pdus| - 1], e);
      }
    }
  }

  lemma {:induction false} AcceptedWereReplied(b: Book, ids: seq<string>, server: string -> Reply, e: Event)
    requires e in Ask(b, ids, server).book.accepted
    ensures e in b.accepted || WasReplied(ids, server, e)
  {
    if ids != [] {
      var n := |ids| - 1;
      var before := Ask(b, ids[..n], server);
      if e in before.book.accepted {
        AcceptedWereReplied(b, ids[..n], server, e);
        if k :| 0 <= k < n && server(ids[..n][k]).Transaction? && Parsed(e, true) in server(ids[..n][k]).pdus {
          assert ids[..n][k] == ids[k];
        }
      } else {
        var id := ids[n];
        TakenWereReplied(before.book.(retries := before.book.retries[id := []], asked := before.book.asked + [id]),
                         server(id).pdus, e);
      }
    }
  }

  /** Over any sequence of calls: every accepted event was in a reply to a request, parsed and properly signed. */
  lemma {:induction false} OnlySignedEventsAreAccepted(calls: seq<Call>, e: Event)
    requires e in After(BLANK, calls).accepted
    ensures exists k :: 0 <= k < |calls| && WasReplied(calls[k].ids, calls[k].server, e)
  {
    var n := |calls| - 1;
    var before := After(BLANK, calls[..n]);
    if e in before.accepted {
      OnlySignedEventsAreAccepted(calls[..n], e);
      var k :| 0 <= k < n && WasReplied(calls[..n][k].ids, calls[..n][k].server, e);
      assert calls[..n][k] == calls[k];
    } else {
      AcceptedWereReplied(before, calls[n].ids, calls[n].server, e);
    }
  }

  /** Over any sequence of calls, whatever the server answers, each ID is requested at most once. */
  lemma EachIdIsRequestedOnce(calls: seq<Call>)
    ensures NoRepeats(After(BLANK, calls).asked)
  {
    EveryRunKeeps(BLANK, calls);
  }

  /**
  In every reachable state the past alone decides: an ID under which events were accepted is answered with
  exactly them, one that was asked for in vain is refused, and only an ID new on both counts is requested.
  */
  lemma ThePastDecides(calls: seq<Call>, id: string, server: string -> Reply)
    ensures var b := After(BLANK, calls);
            var one := AskOne(b, id, server);
            var known := Having(b.accepted, id);
            && (known != [] ==> one == Outcome(b, Ok(known)))
            && (known == [] && id in b.asked ==> one == Outcome(b, Err(NotRetrying)))
            && (known == [] && id !in b.asked ==> one.book.asked == b.asked + [id])
  {
    EveryRunKeeps(BLANK, calls);
    var b := After(BLANK, calls);
    assert Entry(b, id) == Having(b.accepted, id);
    if id !in b.retries && server(id).Transaction? {
      var noted := b.(retries := b.retries[id := []], asked := b.asked + [id]);
      FirstAskKeeps(b, id);
      TakeInKeeps(noted, server(id).pdus);
    }
  }

  lemma {:induction false} HavingPrefix(events: seq<Event>, more: seq<Event>, id: string)
    ensures Having(events + more, id) == Having(events, id) + Having(more, id)
  {
    if more == [] {
      assert events + more == events;
    } else {
      var init, last := more[..|more| - 1], more[|more| - 1];
      HavingPrefix(events, init, id);
      assert (events + more)[..|events + more| - 1] == events + init;
    }
  }

  /** Once an ID is answered it stays answered: after any further calls the answer has only grown at the end. */
  lemma AnswersOnlyGrow(calls: seq<Call>, more: seq<Call>, id: string, server: string -> Reply)
    ensures var b, later := After(BLANK, calls), After(After(BLANK, calls), more);
            Having(b.accepted, id) != [] ==>
              AskOne(later, id, server).answer.Ok? && Having(b.accepted, id) <= AskOne(later, id, server).answer.value
  {
    EveryRunKeeps(BLANK, calls);
    var b := After(BLANK, calls);
    EveryRunKeeps(b, more);
    var later := After(b, more);
    var rest := later.accepted[|b.accepted|..];
    assert later.accepted == b.accepted + rest;
    HavingPrefix(b.accepted, rest, id);
    assert Entry(later, id) == Having(later.accepted, id);
  }

  /** A first request that succeeds is refused when repeated exactly if no event of the reply bears the ID. */
  lemma RepeatIsRefusedExactlyWhen(calls: seq<Call>, id: string, server: string -> Reply, again: string -> Reply)
    requires id !in After(BLANK, calls).retries && AskOne(After(BLANK, calls), id, server).answer.Ok?
    ensures var one := AskOne(After(BLANK, calls), id, server);
            && (AskOne(one.book, id, again).answer == Err(NotRetrying) <==>
                  forall e :: e in one.answer.value ==> e.id != id)
            && AskOne(one.book, id, again).book == one.book
  {
    var b := After(BLANK, calls);
    EveryRunKeeps(BLANK, calls);
    AskOneKeeps(b, id, server);
    var noted := b.(retries := b.retries[id := []], asked := b.asked + [id]);
    FirstAskKeeps(b, id);
    TakeInKeeps(noted, server(id).pdus);
    var one := AskOne(b, id, server);
    HavingPrefix(b.accepted, one.answer.value, id);
    assert Entry(one.book, id) == Having(one.book.accepted, id);
    assert Entry(b, id) == Having(b.accepted, id);
    HavingNone(one.answer.value, id);
  }

  /** A server that answers with another event than the one asked for: the request succeeds, its repeat is refused. */
  lemma RepeatCanBeRefused(id: string, other: Event) returns (server: string -> Reply)
    requires other.id != id
    ensures var one := AskOne(BLANK, id, server);
            one.answer == Ok([other]) && AskOne(one.book, id, server).answer == Err(NotRetrying)
  {
    server := asked => Transaction([Parsed(other, true)]);
    var pdus := [Parsed(other, true)];
    assert pdus[..0] == [];
    var noted := Book(map[id := []], [id], []);
    assert TakeIn(noted, []) == Outcome(noted, Ok([]));
    assert [] + [id] == [id];
    assert AskOne(BLANK, id, server) == TakeIn(noted, pdus);
    assert [] + [other] == [other];
  }

  lemma {:induction false} HavingNone(events: seq<Event>, id: string)
    ensures Having(events, id) == [] <==> forall e :: e in events ==> e.id != id
  {
    if events != [] {
      HavingNone(events[..|events| - 1], id);
      assert events == events[..|events| - 1] + [events[|events| - 1]];
    }
  }

  // --- the closure ---------------------------------------------------------------------------------------

  lemma {:induction false} TakeInStops(b: Book, pdus: seq<Pdu>, i: nat)
    requires i <= |pdus| && TakeIn(b, pdus[..i]).answer.Err?
    ensures TakeIn(b, pdus) == TakeIn(b, pdus[..i])
    decreases |pdus| - i
  {
    if i < |pdus| {
      assert pdus[..i + 1][..i] == pdus[..i];
      TakeInStops(b, pdus, i + 1);
    } else {
      assert pdus[..i] == pdus;
    }
  }

  lemma {:induction false} AskStops(b: Book, ids: seq<string>, i: nat, server: string -> Reply)
    requires i <= |ids| && Ask(b, ids[..i], server).answer.Err?
    ensures Ask(b, ids, server) == Ask(b, ids[..i], server)
    decreases |ids| - i
  {
    if i < |ids| {
      assert ids[..i + 1][..i] == ids[..i];
      AskStops(b, ids, i + 1, server);
    } else {
      assert ids[..i] == ids;
    }
  }

  class EventProvider {
    /** [] stands for the nil entry. */
    var retries: map<string, seq<Event>>
    ghost var asked: seq<string>
    ghost var accepted: seq<Event>

    ghost function Books(): Book
      reads this
    {
      Book(retries, asked, accepted)
    }

    constructor ()
      ensures Books() == BLANK
    {
      retries, asked, accepted := map[], [], [];
    }

    /** The loop over the PDUs of one reply. */
    method TakeReply(pdus: seq<Pdu>) returns (r: Result<seq<Event>, Failure>)
      modifies this
      ensures TakeIn(old(Books()), pdus) == Outcome(Books(), r)
      ensures r.Ok? <==> forall i :: 0 <= i < |pdus| ==> pdus[i].Parsed? && pdus[i].signed
      ensures r.Ok? ==> |r.value| == |pdus| && forall i :: 0 <= i < |pdus| ==> pdus[i] == Parsed(r.value[i], true)
      ensures r.Err? ==> exists i :: FirstBadAt(pdus, i)
                                     && r.error == if pdus[i].Garbage? then BadEvent else BadSignature
    {
      TakeInOutright(Books(), pdus);
      var taken: seq<Event> := [];
      for i := 0 to |pdus|
        invariant TakeIn(old(Books()), pdus[..i]) == Outcome(Books(), Ok(taken))
      {
        assert pdus[..i + 1][..i] == pdus[..i];
        if pdus[i].Garbage? {
          TakeInStops(old(Books()), pdus, i + 1);
          return Err(BadEvent);
        }
        if !pdus[i].signed {
          TakeInStops(old(Books()), pdus, i + 1);
          return Err(BadSignature);
        }
        var e := pdus[i].event;
        assert [] + [e] == [e];
        taken := taken + [e];
        retries := retries[e.id := if e.id in retries then retries[e.id] + [e] else [e]];
        accepted := accepted + [e];
      }
      assert pdus[..|pdus|] == pdus;
      return Ok(taken);
    }

    /** One round of the loop over the IDs. */
    method AskFor(id: string, server: string -> Reply) returns (r: Result<seq<Event>, Failure>)
      modifies this
      ensures AskOne(old(Books()), id, server) == Outcome(Books(), r)
      ensures id !in old(retries) && server(id).Transaction? ==>
                && (r.Ok? <==> AllGood(server(id).pdus))
                && (r.Ok? ==> AreEventsOf(r.value, server(id).pdus))
                && (r.Err? ==> exists i :: FirstBadAt(server(id).pdus, i) && r.error == FailureOf(server(id).pdus[i]))
    {
      if id !in retries {
        FirstRequestExactly(Books(), id, server);
      }
      if id in retries {
        if retries[id] == [] {
          return Err(NotRetrying);
        }
        return Ok(retries[id]);
      }
      retries := retries[id := []];
      asked := asked + [id];
      var reply := server(id);
      if reply.Unreachable? {
        return Err(FetchFailed);
      }
      r := TakeReply(reply.pdus);
    }

    /** The provider function; `server` is what the server answers to each request. */
    method Provide(knownVersion: bool, ids: seq<string>, server: string -> Reply)
      returns (r: Result<seq<Event>, Failure>)
      modifies this
      ensures !knownVersion ==> r == Err(UnknownVersion) && Books() == old(Books())
      ensures knownVersion ==> Ask(old(Books()), ids, server) == Outcome(Books(), r)
      ensures knownVersion ==>
                if r.Err? then exists k :: FailsAt(old(Books()), ids, k, server, r.error)
                else forall k, f :: !FailsAt(old(Books()), ids, k, server, f)
      ensures forall e :: e in accepted && e !in old(accepted) ==> WasReplied(ids, server, e)
    {
      AskFailsExactly(Books(), ids, server);
      forall e | e in Ask(Books(), ids, server).book.accepted && e !in accepted ensures WasReplied(ids, server, e) {
        AcceptedWereReplied(Books(), ids, server, e);
      }
      if !knownVersion {
        return Err(UnknownVersion);
      }
      var returning: seq<Event> := [];
      for i := 0 to |ids|
        invariant Ask(old(Books()), ids[..i], server) == Outcome(Books(), Ok(returning))
      {
        assert ids[..i + 1][..i] == ids[..i];
        var one := AskFor(ids[i], server);
        if one.Err? {
          AskStops(old(Books()), ids, i + 1, server);
          return one;
        }
        returning := returning + one.value;
      }
      assert ids[..|ids|] == ids;
      return Ok(returning);
    }
  }
}
