/**
What outlives a destination queue: the database rows behind pending items, and the record of
which transactions a destination (or a relay acting for it) has accepted.
*/
module Delivery {
  import opened Wrappers
  import opened QueueMemory

  /** A stored JSON row; each row is created for one PDU or for one EDU. */
  datatype Blob = Blob(edu: bool, body: Json)

  datatype Transaction = Transaction(id: string, destination: Server, pdus: seq<Json>, edus: seq<Json>)

  datatype World = World(
    recorded: map<Nid, Blob>,       // every row ever inserted into queue_json
    blobs: set<Nid>,                // the rows that are still there
    posted: set<(Server, Nid)>,     // every PDU association ever made
    pduRows: set<(Server, Nid)>,    // the PDU associations that are still there
    eduRows: set<(Server, Nid)>,
    accepted: seq<Transaction>,     // transactions accepted, oldest first
    blacklisted: set<Server>,
    shutdown: bool)

  ghost predicate Delivered(w: World, d: Server, n: Nid) {
    n in w.recorded &&
    exists k :: 0 <= k < |w.accepted| && w.accepted[k].destination == d && w.recorded[n].body in w.accepted[k].pdus
  }

  /** A queued item whose body is what the database recorded under its receipt. */
  predicate Faithful(w: World, edu: bool, item: Queued) {
    item.receipt in w.recorded && item.body == Some(w.recorded[item.receipt].body)
    && w.recorded[item.receipt].edu == edu
  }

  predicate AllFaithful(w: World, edu: bool, items: seq<Queued>) {
    forall i :: 0 <= i < |items| ==> Faithful(w, edu, items[i])
  }

  /** No PDU is lost: every association ever made is still stored, or its body was accepted. */
  ghost predicate NothingLost(w: World) {
    forall r :: r in w.posted ==> r in w.pduRows || Delivered(w, r.0, r.1)
  }

  ghost predicate WorldInv(w: World) {
    && NothingLost(w)
    && w.pduRows <= w.posted
    && w.blobs <= w.recorded.Keys
    && (forall r :: r in w.posted ==> r.1 in w.recorded && !w.recorded[r.1].edu)
    && (forall r :: r in w.eduRows ==> r.1 in w.recorded && w.recorded[r.1].edu)
    // a pending association never points at a row that was deleted
    && (forall r :: r in w.pduRows ==> r.1 in w.blobs)
    && (forall r :: r in w.eduRows ==> r.1 in w.blobs)
  }

  /** What no step ever takes back. */
  predicate Evolves(w: World, w': World) {
    && (forall n :: n in w.recorded ==> n in w'.recorded && w'.recorded[n] == w.recorded[n])
    && w.posted <= w'.posted
    && w.accepted <= w'.accepted
  }

  lemma DeliveredStays(w: World, w': World, d: Server, n: Nid)
    requires Evolves(w, w') && Delivered(w, d, n)
    ensures Delivered(w', d, n)
  {
    var k :| 0 <= k < |w.accepted| && w.accepted[k].destination == d && w.recorded[n].body in w.accepted[k].pdus;
    assert w'.accepted[k] == w.accepted[k];
  }

  // --- the operations on the store --------------------------------------------------------

  /** StoreJSON: a fresh row. */
  function Record(w: World, n: Nid, b: Blob): World
    requires n !in w.recorded
  {
    w.(recorded := w.recorded[n := b], blobs := w.blobs + {n})
  }

  /** The rows for all destinations whose insert succeeds, in one database transaction. */
  function AssociatePDU(w: World, ds: set<Server>, n: Nid): World {
    var rows := set d | d in ds :: (d, n);
    w.(posted := w.posted + rows, pduRows := w.pduRows + rows)
  }

  function AssociateEDU(w: World, ds: set<Server>, n: Nid): World {
    w.(eduRows := w.eduRows + set d | d in ds :: (d, n))
  }

  function WithoutRows(rows: set<(Server, Nid)>, d: Server, nids: set<Nid>): set<(Server, Nid)> {
    set r | r in rows && !(r.0 == d && r.1 in nids)
  }

  function Unreferenced(rows: set<(Server, Nid)>, nids: set<Nid>): set<Nid> {
    set n | n in nids && forall r :: r in rows ==> r.1 != n
  }

  /** CleanPDUs: drop this destination's rows, then the JSON rows nobody refers to any more. */
  function CleanPDUs(w: World, d: Server, nids: set<Nid>): World {
    var rows := WithoutRows(w.pduRows, d, nids);
    w.(pduRows := rows, blobs := w.blobs - Unreferenced(rows, nids))
  }

  function CleanEDUs(w: World, d: Server, nids: set<Nid>): World {
    var rows := WithoutRows(w.eduRows, d, nids);
    w.(eduRows := rows, blobs := w.blobs - Unreferenced(rows, nids))
  }

  /** DeleteExpiredEDUs: every row of an expired EDU goes, and its JSON with it. */
  function ExpireEDUs(w: World, nids: set<Nid>): World {
    w.(eduRows := (set r | r in w.eduRows && r.1 !in nids), blobs := w.blobs - nids)
  }

  /** The rows a pending-PDU query for `d` may draw on. */
  function StoredFor(w: World, rows: set<(Server, Nid)>, d: Server): map<Nid, Json> {
    map r | r in rows && r.0 == d && r.1 in w.recorded && r.1 in w.blobs :: r.1 := w.recorded[r.1].body
  }

  // --- what the operations leave in the store ----------------------------------------------------

  /** Whether a JSON row is there still or again: at least one association needs it. */
  ghost predicate Referenced(rows: set<(Server, Nid)>, n: Nid) {
    exists r :: r in rows && r.1 == n
  }

  /** Of the rows in question exactly those of the one destination go, and exactly the JSON that nobody needs then. */
  ghost predicate Cleaned(rows: set<(Server, Nid)>, rows': set<(Server, Nid)>, blobs: set<Nid>, blobs': set<Nid>,
                          d: Server, nids: set<Nid>)
  {
    && (forall e, n :: (e, n) in rows' <==> (e, n) in rows && (e != d || n !in nids))
    && (forall n :: n in blobs && n !in nids ==> n in blobs')
    && (forall n :: n in blobs && n in nids ==> (n in blobs' <==> Referenced(rows', n)))
    && blobs' <= blobs
  }

  lemma CleanPDUsIsExact(w: World, d: Server, nids: set<Nid>)
    ensures var w' := CleanPDUs(w, d, nids);
            && Cleaned(w.pduRows, w'.pduRows, w.blobs, w'.blobs, d, nids)
            && w' == w.(pduRows := w'.pduRows, blobs := w'.blobs)
  {
    WithoutRowsIsExact(w.pduRows, d, nids);
    UnreferencedIsExact(WithoutRows(w.pduRows, d, nids), nids);
  }

  lemma CleanEDUsIsExact(w: World, d: Server, nids: set<Nid>)
    ensures var w' := CleanEDUs(w, d, nids);
            && Cleaned(w.eduRows, w'.eduRows, w.blobs, w'.blobs, d, nids)
            && w' == w.(eduRows := w'.eduRows, blobs := w'.blobs)
  {
    WithoutRowsIsExact(w.eduRows, d, nids);
    UnreferencedIsExact(WithoutRows(w.eduRows, d, nids), nids);
  }

  lemma WithoutRowsIsExact(rows: set<(Server, Nid)>, d: Server, nids: set<Nid>)
    ensures forall e, n :: (e, n) in WithoutRows(rows, d, nids) <==> (e, n) in rows && (e != d || n !in nids)
  {
    forall e, n ensures (e, n) in WithoutRows(rows, d, nids) <==> (e, n) in rows && (e != d || n !in nids) {
      var r := (e, n);
      assert r.0 == e && r.1 == n;
    }
  }

  lemma UnreferencedIsExact(rows: set<(Server, Nid)>, nids: set<Nid>)
    ensures forall n :: n in Unreferenced(rows, nids) <==> n in nids && !Referenced(rows, n)
  {
  }

  /** An expired EDU is gone altogether, and nothing else is. */
  lemma ExpireEDUsIsExact(w: World, nids: set<Nid>)
    ensures var w' := ExpireEDUs(w, nids);
            && (forall d, n :: (d, n) in w'.eduRows <==> (d, n) in w.eduRows && n !in nids)
            && (forall n :: n in w'.blobs <==> n in w.blobs && n !in nids)
            && w' == w.(eduRows := w'.eduRows, blobs := w'.blobs)
  {
    forall d, n ensures (d, n) in ExpireEDUs(w, nids).eduRows <==> (d, n) in w.eduRows && n !in nids {
      var r := (d, n);
      assert r.1 == n;
    }
  }

  /** Associating adds the rows asked for, for PDUs also to the record, and leaves everything else. */
  lemma AssociatingIsExact(w: World, ds: set<Server>, n: Nid)
    ensures var w' := AssociatePDU(w, ds, n);
            && (forall d, m :: (d, m) in w'.pduRows <==> (d, m) in w.pduRows || (d in ds && m == n))
            && (forall d, m :: (d, m) in w'.posted <==> (d, m) in w.posted || (d in ds && m == n))
            && w' == w.(pduRows := w'.pduRows, posted := w'.posted)
    ensures var w' := AssociateEDU(w, ds, n);
            && (forall d, m :: (d, m) in w'.eduRows <==> (d, m) in w.eduRows || (d in ds && m == n))
            && w' == w.(eduRows := w'.eduRows)
  {
  }

  /** A pending query may answer exactly the rows of its own destination whose JSON is there. */
  lemma StoredForIsExact(w: World, rows: set<(Server, Nid)>, d: Server, n: Nid)
    ensures n in StoredFor(w, rows, d) <==> (d, n) in rows && n in w.recorded && n in w.blobs
    ensures n in StoredFor(w, rows, d) ==> StoredFor(w, rows, d)[n] == w.recorded[n].body
  {
    var r := (d, n);
    assert r.0 == d && r.1 == n;
  }

  /** StoreJSON gives the new row its JSON, and changes no other. */
  lemma RecordIsExact(w: World, n: Nid, b: Blob)
    requires n !in w.recorded
    ensures var w' := Record(w, n, b);
            && n in w'.recorded && w'.recorded[n] == b && w'.recorded.Keys == w.recorded.Keys + {n}
            && (forall m :: m in w.recorded ==> w'.recorded[m] == w.recorded[m])
            && w'.blobs == w.blobs + {n} && w' == w.(recorded := w'.recorded, blobs := w'.blobs)
  {
  }

  // --- what they keep ----------------------------------------------------------------------------

  lemma RecordKeeps(w: World, n: Nid, b: Blob)
    requires WorldInv(w) && n !in w.recorded
    ensures WorldInv(Record(w, n, b)) && Evolves(w, Record(w, n, b))
  {
    var w' := Record(w, n, b);
    forall r | r in w'.posted ensures r in w'.pduRows || Delivered(w', r.0, r.1) {
      if r !in w.pduRows { DeliveredStays(w, w', r.0, r.1); }
    }
  }

  lemma AssociatePDUKeeps(w: World, ds: set<Server>, n: Nid)
    requires WorldInv(w) && n in w.blobs && !w.recorded[n].edu
    ensures WorldInv(AssociatePDU(w, ds, n)) && Evolves(w, AssociatePDU(w, ds, n))
  {
    var w' := AssociatePDU(w, ds, n);
    forall r | r in w'.posted ensures r in w'.pduRows || Delivered(w', r.0, r.1) {
      if r in w.posted && r !in w.pduRows { DeliveredStays(w, w', r.0, r.1); }
    }
  }

  lemma AssociateEDUKeeps(w: World, ds: set<Server>, n: Nid)
    requires WorldInv(w) && n in w.blobs && w.recorded[n].edu
    ensures WorldInv(AssociateEDU(w, ds, n)) && Evolves(w, AssociateEDU(w, ds, n))
  {
    var w' := AssociateEDU(w, ds, n);
    forall r | r in w'.posted ensures r in w'.pduRows || Delivered(w', r.0, r.1) {
      if r !in w.pduRows { DeliveredStays(w, w', r.0, r.1); }
    }
  }

  /**
  AssociatePDUWithDestinations, for destinations in some order: every insert is tried, but only the outcome of the
  last one decides whether the database transaction is committed.
  */
  method AssociatePDUWithDestinations(w: World, destinations: seq<Server>, fails: set<Server>, n: Nid)
    returns (ok: bool, w': World)
    ensures ok <==> destinations == [] || destinations[|destinations| - 1] !in fails
    ensures ok ==> w' == AssociatePDU(w, (set d | d in destinations) - fails, n)
    ensures !ok ==> w' == w
  {
    ok := true;
    var rows: set<Server> := {};
    for i := 0 to |destinations|
      invariant ok <==> i == 0 || destinations[i - 1] !in fails
      invariant rows == (set d | d in destinations[..i]) - fails
    {
      assert destinations[..i + 1] == destinations[..i] + [destinations[i]];
      ok := destinations[i] !in fails;
      if ok {
        rows := rows + {destinations[i]};
      }
    }
    assert destinations[..|destinations|] == destinations;
    w' := if ok then AssociatePDU(w, rows, n) else w;
  }

  /** Success is reported although a row is missing exactly when some insert failed and the last one did not. */
  lemma RowsAreMissingExactlyWhen(w: World, destinations: seq<Server>, fails: set<Server>, n: Nid)
    requires destinations != [] && destinations[|destinations| - 1] !in fails
    requires forall d :: d in destinations ==> (d, n) !in w.pduRows
    ensures var rows := AssociatePDU(w, (set d | d in destinations) - fails, n).pduRows;
            (exists d :: d in destinations && (d, n) !in rows) <==> exists d :: d in destinations && d in fails
  {
    var added := (set d | d in destinations) - fails;
    var rows := AssociatePDU(w, added, n).pduRows;
    forall d | d in destinations ensures (d, n) in rows <==> d !in fails {
      assert (d, n) in rows <==> d in added;
    }
  }

  lemma ShutdownKeepsWorld(w: World, down: bool)
    requires WorldInv(w)
    ensures WorldInv(w.(shutdown := down)) && Evolves(w, w.(shutdown := down))
  {
    var w' := w.(shutdown := down);
    forall r | r in w'.posted ensures r in w'.pduRows || Delivered(w', r.0, r.1) {
      if r !in w.pduRows { DeliveredStays(w, w', r.0, r.1); }
    }
  }

  /** Cleaning up after an accepted transaction removes only what was delivered. */
  lemma CleanPDUsKeeps(w: World, d: Server, nids: set<Nid>)
    requires WorldInv(w)
    requires forall n :: n in nids ==> Delivered(w, d, n) && !w.recorded[n].edu
    ensures WorldInv(CleanPDUs(w, d, nids)) && Evolves(w, CleanPDUs(w, d, nids))
  {
    var w' := CleanPDUs(w, d, nids);
    forall r | r in w'.eduRows ensures r.1 in w'.blobs {
      var n := r.1;
      assert r in w.eduRows && w.recorded[n].edu;
      assert n !in nids;
    }
    forall r | r in w'.posted ensures r in w'.pduRows || Delivered(w', r.0, r.1) {
      if r !in w'.pduRows { DeliveredStays(w, w', r.0, r.1); }
    }
  }

  lemma CleanEDUsKeeps(w: World, d: Server, nids: set<Nid>)
    requires WorldInv(w)
    requires forall n :: n in nids ==> n in w.recorded && w.recorded[n].edu
    ensures WorldInv(CleanEDUs(w, d, nids)) && Evolves(w, CleanEDUs(w, d, nids))
  {
    var w' := CleanEDUs(w, d, nids);
    forall r | r in w'.pduRows ensures r.1 in w'.blobs {
      var n := r.1;
      assert r in w.posted && !w.recorded[n].edu;
      assert n !in nids;
    }
    forall r | r in w'.posted ensures r in w'.pduRows || Delivered(w', r.0, r.1) {
      if r !in w'.pduRows { DeliveredStays(w, w', r.0, r.1); }
    }
  }

  lemma ExpireEDUsKeeps(w: World, nids: set<Nid>)
    requires WorldInv(w)
    requires forall n :: n in nids ==> n in w.recorded && w.recorded[n].edu
    ensures WorldInv(ExpireEDUs(w, nids)) && Evolves(w, ExpireEDUs(w, nids))
  {
    var w' := ExpireEDUs(w, nids);
    forall r | r in w'.pduRows ensures r.1 in w'.blobs {
      var n := r.1;
      assert r in w.posted && !w.recorded[n].edu;
      assert n !in nids;
    }
    forall r | r in w'.posted ensures r in w'.pduRows || Delivered(w', r.0, r.1) {
      if r !in w'.pduRows { DeliveredStays(w, w', r.0, r.1); }
    }
  }

  /** An accepted transaction delivers every PDU it carried. */
  lemma AcceptDelivers(w: World, t: Transaction, items: seq<Queued>)
    requires AllFaithful(w, false, items) && t.pdus == Bodies(items)
    ensures var w' := w.(accepted := w.accepted + [t]);
            Evolves(w, w') && forall n :: n in Receipts(items) ==> Delivered(w', t.destination, n)
  {
    var w' := w.(accepted := w.accepted + [t]);
    PresentIsCarriedWhole(items);
    forall n | n in Receipts(items) ensures Delivered(w', t.destination, n) {
      var i :| 0 <= i < |items| && items[i].receipt == n;
      assert w'.accepted[|w.accepted|] == t && t.pdus[i] == w.recorded[n].body;
    }
  }
}
