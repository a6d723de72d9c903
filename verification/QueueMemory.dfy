/**
The bounded in-memory lists of a destination queue: appending, cutting a
transaction off the front, and topping up from the database.
*/
module QueueMemory {
  import opened Wrappers

  const MAX_PDUS_PER_TRANSACTION := 50
  const MAX_EDUS_PER_TRANSACTION := 100
  const MAX_IN_MEMORY := 128

  // A row number of the queue_json table, and the JSON held in that row.
  type Nid = int
  type Json = string

  /** A queued PDU or EDU: its database receipt and its body, which may be nil. */
  datatype Queued = Queued(receipt: Nid, body: Option<Json>)

  function Min(a: nat, b: nat): nat {
    if a < b then a else b
  }

  function Front<T>(list: seq<T>, n: nat): seq<T> {
    list[..Min(n, |list|)]
  }

  function Back<T>(list: seq<T>, n: nat): seq<T> {
    list[Min(n, |list|)..]
  }

  function Receipts(items: seq<Queued>): set<Nid> {
    set i | 0 <= i < |items| :: items[i].receipt
  }

  ghost predicate Distinct(items: seq<Queued>) {
    forall i, j :: 0 <= i < j < |items| ==> items[i].receipt != items[j].receipt
  }

  predicate Present(items: seq<Queued>) {
    forall i :: 0 <= i < |items| ==> items[i].body.Some?
  }

  // --- what a transaction carries -------------------------------------------------------

  function OwnBody(item: Queued): seq<Json> {
    if item.body.Some? then [item.body.value] else []
  }

  function OwnReceipt(item: Queued): seq<Nid> {
    if item.body.Some? then [item.receipt] else []
  }

  /** The bodies that reach the transaction: entries without a body are skipped. */
  function Bodies(items: seq<Queued>): seq<Json> {
    if items == [] then []
    else OwnBody(items[0]) + Bodies(items[1..])
  }

  /** The receipts returned next to the transaction, skipping the same entries. */
  function ReceiptList(items: seq<Queued>): seq<Nid> {
    if items == [] then []
    else OwnReceipt(items[0]) + ReceiptList(items[1..])
  }

  lemma {:induction false} ReceiptsMatchBodies(items: seq<Queued>)
    ensures |ReceiptList(items)| == |Bodies(items)|
    ensures forall k :: 0 <= k < |Bodies(items)| ==>
              Queued(ReceiptList(items)[k], Some(Bodies(items)[k])) in items
  {
    if items != [] {
      ReceiptsMatchBodies(items[1..]);
    }
  }

  /** Receipts and bodies match the items index by index. */
  predicate CarriedWhole(items: seq<Queued>, bodies: seq<Json>, receipts: seq<Nid>) {
    |bodies| == |receipts| == |items|
    && forall k :: 0 <= k < |items| ==> items[k] == Queued(receipts[k], Some(bodies[k]))
  }

  lemma {:induction false} PresentIsCarriedWhole(items: seq<Queued>)
    requires Present(items)
    ensures CarriedWhole(items, Bodies(items), ReceiptList(items))
  {
    if items != [] {
      PresentIsCarriedWhole(items[1..]);
    }
  }

  /** What two lists carry together is what each carries, in order. */
  lemma {:induction false} BodiesAppend(a: seq<Queued>, b: seq<Queued>)
    ensures Bodies(a + b) == Bodies(a) + Bodies(b)
    ensures ReceiptList(a + b) == ReceiptList(a) + ReceiptList(b)
  {
    if a == [] {
      assert a + b == b;
    } else {
      var rest := a[1..];
      assert (a + b)[1..] == rest + b && (a + b)[0] == a[0];
      BodiesAppend(rest, b);
      Associates(OwnBody(a[0]), Bodies(rest), Bodies(b));
      Associates(OwnReceipt(a[0]), ReceiptList(rest), ReceiptList(b));
    }
  }

  lemma Associates<T>(a: seq<T>, b: seq<T>, c: seq<T>)
    ensures a + (b + c) == a + b + c
  {
  }

  lemma PrefixBodies(first: seq<Queued>, now: seq<Queued>)
    requires first <= now && Present(now)
    ensures Bodies(first) <= Bodies(now) && (Bodies(first) == Bodies(now) <==> first == now)
  {
    var rest := now[|first|..];
    assert now == first + rest;
    assert forall k :: 0 <= k < |first| ==> first[k] == now[k];
    BodiesAppend(first, rest);
    PresentIsCarriedWhole(first);
    PresentIsCarriedWhole(now);
  }

  /** One item: its body and receipt, or nothing. With `BodiesAppend` this settles what a transaction carries. */
  lemma OneBody(x: Queued)
    ensures x.body.Some? ==> Bodies([x]) == [x.body.value] && ReceiptList([x]) == [x.receipt]
    ensures x.body.None? ==> Bodies([x]) == [] && ReceiptList([x]) == []
    ensures Bodies([]) == [] && ReceiptList([]) == []
  {
    assert [x][1..] == [];
  }

  // --- topping up from the database -----------------------------------------------------

  /** The map-iteration loop of the scan: skip what memory already held, stop when memory is full. */
  function Absorb(list: seq<Queued>, got: set<Nid>, rows: seq<Queued>): seq<Queued>
    decreases |rows|
  {
    if rows == [] then list
    else if rows[0].receipt in got then Absorb(list, got, rows[1..])
    else
      var grown := list + [rows[0]];
      if |grown| == MAX_IN_MEMORY then grown else Absorb(grown, got, rows[1..])
  }

  /** A correct answer to a pending-items query: 128 distinct stored rows, or all of them if fewer. */
  ghost predicate Answers(rows: seq<Queued>, stored: map<Nid, Json>) {
    && Distinct(rows)
    && (forall i :: 0 <= i < |rows| ==>
          rows[i].receipt in stored && rows[i].body == Some(stored[rows[i].receipt]))
    && |rows| == Min(MAX_IN_MEMORY, |stored.Keys|)
  }

  /** Topping up one list; `answer` is None when the query failed. */
  function TopUp(list: seq<Queued>, answer: Option<seq<Queued>>): seq<Queued> {
    if |list| < MAX_IN_MEMORY && answer.Some?
    then Absorb(list, Receipts(list), answer.value)
    else list
  }

  /** Whether this query told the scan that the database may hold more than memory can. */
  predicate AnswerIsFull(list: seq<Queued>, answer: Option<seq<Queued>>) {
    |list| < MAX_IN_MEMORY && answer.Some? && |answer.value| == MAX_IN_MEMORY
  }

  lemma {:induction false} AbsorbExtends(list: seq<Queued>, got: set<Nid>, rows: seq<Queued>)
    requires |list| < MAX_IN_MEMORY
    ensures list <= Absorb(list, got, rows)
    ensures |Absorb(list, got, rows)| <= MAX_IN_MEMORY
    ensures forall i :: |list| <= i < |Absorb(list, got, rows)| ==> Absorb(list, got, rows)[i] in rows
    decreases |rows|
  {
    if rows != [] {
      if rows[0].receipt in got {
        AbsorbExtends(list, got, rows[1..]);
      } else {
        var grown := list + [rows[0]];
        if |grown| < MAX_IN_MEMORY {
          AbsorbExtends(grown, got, rows[1..]);
          var out := Absorb(grown, got, rows[1..]);
          assert out[|list|] == grown[|list|] == rows[0];
        }
      }
    }
  }

  lemma TopUpExtends(list: seq<Queued>, answer: Option<seq<Queued>>)
    requires |list| <= MAX_IN_MEMORY
    ensures list <= TopUp(list, answer)
    ensures |TopUp(list, answer)| <= MAX_IN_MEMORY
    ensures forall i :: |list| <= i < |TopUp(list, answer)| ==>
              answer.Some? && TopUp(list, answer)[i] in answer.value
  {
    if |list| < MAX_IN_MEMORY && answer.Some? {
      AbsorbExtends(list, Receipts(list), answer.value);
    }
  }

  /** The rows that memory does not hold. */
  function Missing(got: set<Nid>, rows: seq<Queued>): seq<Queued> {
    if rows == [] then []
    else (if rows[0].receipt in got then [] else [rows[0]]) + Missing(got, rows[1..])
  }

  /** The loop appends the first of them, as many as there is room for. */
  lemma {:induction false} AbsorbIsExact(list: seq<Queued>, got: set<Nid>, rows: seq<Queued>)
    requires |list| < MAX_IN_MEMORY
    ensures Absorb(list, got, rows) == list + Front(Missing(got, rows), MAX_IN_MEMORY - |list|)
    decreases |rows|
  {
    if rows == [] {
      assert list + [] == list;
    } else if rows[0].receipt in got {
      AbsorbIsExact(list, got, rows[1..]);
    } else {
      var grown, more := list + [rows[0]], Missing(got, rows[1..]);
      assert Missing(got, rows) == [rows[0]] + more;
      var room := MAX_IN_MEMORY - |list|;
      if |grown| < MAX_IN_MEMORY {
        AbsorbIsExact(grown, got, rows[1..]);
        assert [rows[0]] + Front(more, room - 1) == Front([rows[0]] + more, room);
        assert grown + Front(more, room - 1) == list + ([rows[0]] + Front(more, room - 1));
      } else {
        assert Front([rows[0]] + more, room) == [rows[0]];
      }
    }
  }

  lemma {:induction false} MissingAreDistinct(got: set<Nid>, rows: seq<Queued>)
    requires Distinct(rows)
    ensures Distinct(Missing(got, rows)) && Receipts(Missing(got, rows)) == Receipts(rows) - got
    decreases |rows|
  {
    if rows != [] {
      var first, rest := rows[0], rows[1..];
      assert rows == [first] + rest;
      forall i, j | 0 <= i < j < |rest| ensures rest[i].receipt != rest[j].receipt {
        assert rest[i] == rows[i + 1] && rest[j] == rows[j + 1];
      }
      forall j | 0 <= j < |rest| ensures rest[j].receipt != first.receipt {
        assert rest[j] == rows[j + 1];
      }
      NotAmong(first.receipt, rest);
      MissingAreDistinct(got, rest);
      var more := Missing(got, rest);
      ReceiptsAppend([first], rest);
      ReceiptsAppend([first], more);
      assert Receipts([first]) == {first.receipt} by {
        assert [first][0].receipt in Receipts([first]);
      }
      DistinctAppend([first], more);
      assert Missing(got, rows) == if first.receipt in got then [] + more else [first] + more;
      assert [] + more == more;
    }
  }

  lemma NotAmong(n: Nid, items: seq<Queued>)
    ensures n !in Receipts(items) <==> forall j :: 0 <= j < |items| ==> items[j].receipt != n
  {
  }

  lemma DistinctAppend(a: seq<Queued>, b: seq<Queued>)
    requires Distinct(a) && Distinct(b)
    ensures Receipts(a) !! Receipts(b) ==> Distinct(a + b)
  {
    if Receipts(a) !! Receipts(b) {
      forall i | 0 <= i < |a| ensures forall j :: 0 <= j < |b| ==> b[j].receipt != a[i].receipt {
        assert a[i].receipt in Receipts(a);
        NotAmong(a[i].receipt, b);
      }
    }
  }

  lemma ReceiptsAppend(a: seq<Queued>, b: seq<Queued>)
    ensures Receipts(a + b) == Receipts(a) + Receipts(b)
  {
    forall n | n in Receipts(a) + Receipts(b) ensures n in Receipts(a + b) {
      if n in Receipts(a) {
        var i :| 0 <= i < |a| && a[i].receipt == n;
        assert (a + b)[i] == a[i];
      } else {
        var i :| 0 <= i < |b| && b[i].receipt == n;
        assert (a + b)[|a| + i] == b[i];
      }
    }
  }

  lemma {:induction false} DistinctCount(items: seq<Queued>)
    requires Distinct(items)
    ensures |Receipts(items)| == |items|
  {
    if items == [] {
      assert Receipts(items) == {};
    } else {
      var last := |items| - 1;
      DistinctCount(items[..last]);
      assert Receipts(items) == Receipts(items[..last]) + {items[last].receipt};
      assert items[last].receipt !in Receipts(items[..last]);
    }
  }

  lemma SubsetCount<T>(a: set<T>, b: set<T>)
    requires a <= b
    ensures |a| <= |b|
    ensures |a| == |b| ==> a == b
  {
    assert b == a + (b - a);
    if |a| == |b| {
      assert |b - a| == 0;
    }
  }

  lemma AnsweredIsStored(rows: seq<Queued>, stored: map<Nid, Json>)
    requires Answers(rows, stored)
    ensures Receipts(rows) <= stored.Keys
  {
    forall n | n in Receipts(rows) ensures n in stored.Keys {
      var i :| 0 <= i < |rows| && rows[i].receipt == n;
    }
  }

  /** A correct answer shorter than the limit lists the whole store. */
  lemma ShortAnswerIsAll(rows: seq<Queued>, stored: map<Nid, Json>)
    requires Answers(rows, stored) && |rows| < MAX_IN_MEMORY
    ensures Receipts(rows) == stored.Keys
  {
    DistinctCount(rows);
    AnsweredIsStored(rows, stored);
    SubsetCount(Receipts(rows), stored.Keys);
  }

  /** What a top-up appends, in detail: the first of the missing rows, none of them twice. */
  lemma TopUpIsExact(list: seq<Queued>, answer: Option<seq<Queued>>, stored: map<Nid, Json>)
    requires |list| < MAX_IN_MEMORY && answer.Some? && Answers(answer.value, stored)
    ensures var missing := Missing(Receipts(list), answer.value);
            var added := Front(missing, MAX_IN_MEMORY - |list|);
            && TopUp(list, answer) == list + added
            && Receipts(TopUp(list, answer)) == Receipts(list) + Receipts(added)
            && Distinct(missing) && Receipts(missing) == Receipts(answer.value) - Receipts(list)
            && Distinct(added) && Receipts(added) <= Receipts(missing)
  {
    var missing := Missing(Receipts(list), answer.value);
    var added := Front(missing, MAX_IN_MEMORY - |list|);
    AbsorbIsExact(list, Receipts(list), answer.value);
    MissingAreDistinct(Receipts(list), answer.value);
    ReceiptsAppend(list, added);
    assert missing == added + missing[|added|..];
    ReceiptsAppend(added, missing[|added|..]);
  }

  /** Topping up keeps receipts distinct and inside the store, whatever order the rows come in. */
  lemma TopUpKeepsDistinct(list: seq<Queued>, answer: Option<seq<Queued>>, stored: map<Nid, Json>)
    requires |list| <= MAX_IN_MEMORY && Distinct(list) && Receipts(list) <= stored.Keys
    requires answer.Some? ==> Answers(answer.value, stored)
    ensures Distinct(TopUp(list, answer)) && Receipts(TopUp(list, answer)) <= stored.Keys
  {
    if |list| < MAX_IN_MEMORY && answer.Some? {
      TopUpIsExact(list, answer, stored);
      AnsweredIsStored(answer.value, stored);
      DistinctAppend(list, Front(Missing(Receipts(list), answer.value), MAX_IN_MEMORY - |list|));
    }
  }

  // --- what a top-up leaves out --------------------------------------------------------------

  /** A cut-off list of distinct items lacks some of their receipts. */
  lemma FrontLacks(items: seq<Queued>, n: nat)
    requires Distinct(items)
    ensures Receipts(items) <= Receipts(Front(items, n)) <==> |items| <= n
  {
    if n < |items| {
      assert items[n].receipt in Receipts(items);
      NotAmong(items[n].receipt, Front(items, n));
    } else {
      assert Front(items, n) == items;
    }
  }

  /** Room for everything that is stored and not in memory. */
  predicate HasRoomFor(list: seq<Queued>, stored: set<Nid>) {
    |list| < MAX_IN_MEMORY && |list| + |stored - Receipts(list)| <= MAX_IN_MEMORY
  }

  /**
  Exactly when a top-up that does not report a full answer leaves the whole store in memory: either memory held
  everything beforehand, or the query was made and succeeded, and what was missing fits. Nothing is presumed of the
  items in memory; they may have expired from the store, and they may be there twice.
  */
  lemma TopUpCompleteness(list: seq<Queued>, answer: Option<seq<Queued>>, stored: map<Nid, Json>)
    requires |list| <= MAX_IN_MEMORY && !AnswerIsFull(list, answer)
    requires answer.Some? ==> Answers(answer.value, stored)
    ensures stored.Keys <= Receipts(TopUp(list, answer)) <==>
              stored.Keys <= Receipts(list) || (answer.Some? && HasRoomFor(list, stored.Keys))
  {
    if |list| < MAX_IN_MEMORY && answer.Some? {
      var missing := Missing(Receipts(list), answer.value);
      ShortAnswerIsAll(answer.value, stored);
      TopUpIsExact(list, answer, stored);
      DistinctCount(missing);
      FrontLacks(missing, MAX_IN_MEMORY - |list|);
    }
  }

  /** With nothing in memory that is not stored, and nothing twice, there is always room. */
  lemma StoredItemsLeaveRoom(list: seq<Queued>, stored: set<Nid>)
    requires Distinct(list) && Receipts(list) <= stored && |stored| < MAX_IN_MEMORY
    ensures HasRoomFor(list, stored)
  {
    DistinctCount(list);
    SubsetCount(Receipts(list), stored);
    assert |stored - Receipts(list)| == |stored| - |Receipts(list)|;
  }

  /** So for such a list it is enough that the query was made and succeeded. */
  lemma StoredItemsCompleteness(list: seq<Queued>, answer: Option<seq<Queued>>, stored: map<Nid, Json>)
    requires |list| <= MAX_IN_MEMORY && !AnswerIsFull(list, answer)
    requires Distinct(list) && Receipts(list) <= stored.Keys
    requires answer.Some? ==> Answers(answer.value, stored)
    ensures Receipts(TopUp(list, answer)) == stored.Keys <==>
              (|list| < MAX_IN_MEMORY && answer.Some?) || Receipts(list) == stored.Keys
  {
    TopUpKeepsDistinct(list, answer, stored);
    TopUpCompleteness(list, answer, stored);
    if |list| < MAX_IN_MEMORY && answer.Some? {
      StoredItemsLeaveRoom(list, stored.Keys);
    }
  }

  /** Items with consecutive receipts. */
  function Numbered(first: Nid, count: nat, body: Json): (items: seq<Queued>)
    ensures |items| == count && Distinct(items)
    ensures forall i :: 0 <= i < count ==> items[i] == Queued(first + i, Some(body))
  {
    seq(count, i => Queued(first + i, Some(body)))
  }

  /**
  Items whose rows are gone can crowd out stored ones, although the query succeeds and is not full: 28 EDUs that have
  expired from the store, and 127 stored ones.
  */
  lemma ExpiredItemsCrowdOut(body: Json) returns (list: seq<Queued>, rows: seq<Queued>, stored: map<Nid, Json>)
    ensures |list| == 28 && Distinct(list) && Receipts(list) !! stored.Keys
    ensures |rows| == 127 && Answers(rows, stored) && !AnswerIsFull(list, Some(rows))
    ensures !(stored.Keys <= Receipts(TopUp(list, Some(rows))))
  {
    list := Numbered(-28, 28, body);
    rows := Numbered(0, 127, body);
    stored := map n | n in Receipts(rows) :: body;
    assert stored.Keys == Receipts(rows);
    DistinctCount(rows);
    assert stored.Keys - Receipts(list) == stored.Keys;
    assert rows[0].receipt in stored.Keys;
    TopUpCompleteness(list, Some(rows), stored);
  }
}
