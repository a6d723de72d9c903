/**
The public room directory: the cache with its shuffle, de-duplication and sort, filtering, and the
answer to one request.
*/
module PublicRooms {
  import opened Wrappers
  import opened Sequences
  import opened Pagination

  datatype Room = Room(id: string, name: string, topic: string, alias: string, members: int)

  function Ids(rooms: seq<Room>): set<string> {
    set r | r in rooms :: r.id
  }

  ghost predicate DistinctIds(rooms: seq<Room>) {
    forall i, j :: 0 <= i < j < |rooms| ==> rooms[i].id != rooms[j].id
  }

  ghost predicate BigToSmall(rooms: seq<Room>) {
    forall i, j :: 0 <= i < j < |rooms| ==> rooms[i].members >= rooms[j].members
  }

  function Swapped<T>(s: seq<T>, i: nat, j: nat): (r: seq<T>)
    requires i < |s| && j < |s|
    ensures |r| == |s|
  {
    s[i := s[j]][j := s[i]]
  }

  /** The swaps of the positions from i down to 1, each with a partner at or before it. */
  function Shuffled<T>(s: seq<T>, i: nat, random: nat -> nat): (r: seq<T>)
    requires i == 0 || i < |s|
    ensures |r| == |s|
    decreases i
  {
    if i == 0 then s else Shuffled(Swapped(s, i, random(i) % (i + 1)), i - 1, random)
  }

  lemma SwapRearranges<T>(s: seq<T>, i: nat, j: nat)
    requires i < |s| && j < |s|
    ensures multiset(Swapped(s, i, j)) == multiset(s)
  {
  }

  lemma {:induction false} ShuffleRearranges<T>(s: seq<T>, i: nat, random: nat -> nat)
    requires i == 0 || i < |s|
    ensures multiset(Shuffled(s, i, random)) == multiset(s)
    ensures forall k :: i < k < |s| ==> Shuffled(s, i, random)[k] == s[k]
    decreases i
  {
    if i > 0 {
      SwapRearranges(s, i, random(i) % (i + 1));
      ShuffleRearranges(Swapped(s, i, random(i) % (i + 1)), i - 1, random);
    }
  }

  lemma {:induction false} OnlyTheseCount<T>(s: seq<T>, i: nat, random: nat -> nat, other: nat -> nat)
    requires i == 0 || i < |s|
    requires forall k: nat :: k <= i ==> random(k) == other(k)
    ensures Shuffled(s, i, random) == Shuffled(s, i, other)
    decreases i
  {
    if i > 0 {
      OnlyTheseCount(Swapped(s, i, random(i) % (i + 1)), i - 1, random, other);
    }
  }

  lemma SomePlace<T>(s: seq<T>, target: seq<T>, i: nat) returns (j: nat)
    requires |target| == |s| && i < |s| && multiset(s[..i + 1]) == multiset(target[..i + 1])
    ensures j <= i && s[j] == target[i]
  {
    assert target[i] == target[..i + 1][i];
    assert target[i] in multiset(s[..i + 1]);
    j :| 0 <= j < i + 1 && s[..i + 1][j] == target[i];
  }

  lemma PlacedFirst<T>(s: seq<T>, target: seq<T>, i: nat, j: nat)
    requires |target| == |s| && j <= i < |s| && s[j] == target[i]
    requires multiset(s[..i + 1]) == multiset(target[..i + 1])
    ensures multiset(Swapped(s, i, j)[..i]) == multiset(target[..i]) && Swapped(s, i, j)[i] == target[i]
  {
    var swapped := Swapped(s, i, j);
    SwapInFront(s, i, j);
    SwapRearranges(s[..i + 1], i, j);
    LastOff(swapped, i);
    LastOff(target, i);
  }

  lemma SwapInFront<T>(s: seq<T>, i: nat, j: nat)
    requires j <= i < |s|
    ensures Swapped(s, i, j)[..i + 1] == Swapped(s[..i + 1], i, j) && Swapped(s, i, j)[i] == s[j]
  {
  }

  lemma LastOff<T>(s: seq<T>, i: nat)
    requires i < |s|
    ensures multiset(s[..i]) == multiset(s[..i + 1]) - multiset{s[i]}
  {
    assert s[..i + 1] == s[..i] + [s[i]];
  }

  lemma OneSwapFirst<T>(s: seq<T>, i: nat, j: nat, random: nat -> nat, rest: nat -> nat)
    requires j <= i < |s| && i > 0 && random(i) == j && forall k: nat :: k < i ==> random(k) == rest(k)
    ensures Shuffled(s, i, random) == Shuffled(Swapped(s, i, j), i - 1, rest)
  {
    assert random(i) % (i + 1) == j;
    OnlyTheseCount(Swapped(s, i, j), i - 1, random, rest);
  }

  /** The shuffle is fair in this: every rearrangement can come out of it. */
  lemma {:induction false} EveryOrderCanCome<T>(s: seq<T>, target: seq<T>, i: nat) returns (random: nat -> nat)
    requires |target| == |s| && i < |s| && multiset(s[..i + 1]) == multiset(target[..i + 1])
    requires forall k :: i < k < |s| ==> s[k] == target[k]
    ensures Shuffled(s, i, random) == target
    decreases i
  {
    var j := SomePlace(s, target, i);
    PlacedFirst(s, target, i, j);
    if i == 0 {
      random := k => 0;
      assert s == target;
    } else {
      var rest := EveryOrderCanCome(Swapped(s, i, j), target, i - 1);
      random := k => if k == i then j else rest(k);
      OneSwapFirst(s, i, j, random, rest);
    }
  }

  method Swap(a: array<Room>, i: nat, j: nat)
    requires i < a.Length && j < a.Length
    modifies a
    ensures a[..] == Swapped(old(a[..]), i, j)
  {
    a[i], a[j] := a[j], a[i];
  }

  function ShuffledAll<T>(s: seq<T>, random: nat -> nat): seq<T> {
    if s == [] then s else Shuffled(s, |s| - 1, random)
  }

  /** A shuffle loses nothing and adds nothing. */
  lemma ShuffleKeepsAll<T>(s: seq<T>, random: nat -> nat)
    ensures multiset(ShuffledAll(s, random)) == multiset(s)
  {
    if s != [] {
      ShuffleRearranges(s, |s| - 1, random);
    }
  }

  /** rand.Shuffle: `random(i)` picks the partner of position i. */
  method Shuffle(a: array<Room>, random: nat -> nat)
    modifies a
    ensures a[..] == ShuffledAll(old(a[..]), random)
  {
    if a.Length == 0 {
      return;
    }
    ghost var target := ShuffledAll(a[..], random);
    var i := a.Length - 1;
    while i > 0
      invariant 0 <= i < a.Length
      invariant Shuffled(a[..], i, random) == target
    {
      var j := random(i) % (i + 1);
      Swap(a, i, j);
      i := i - 1;
    }
  }

  /** The first room of each ID, in order. */
  function Deduped(rooms: seq<Room>): seq<Room> {
    if rooms == [] then []
    else
      var before, last := rooms[..|rooms| - 1], rooms[|rooms| - 1];
      Deduped(before) + if last.id in Ids(before) then [] else [last]
  }

  predicate FirstOfItsId(rooms: seq<Room>, i: int) {
    0 <= i < |rooms| && forall j :: 0 <= j < i ==> rooms[j].id != rooms[i].id
  }

  ghost predicate IsFirst(rooms: seq<Room>, r: Room) {
    exists i :: FirstOfItsId(rooms, i) && rooms[i] == r
  }

  lemma FirstInFront(rooms: seq<Room>, last: Room, i: nat)
    requires i < |rooms|
    ensures FirstOfItsId(rooms + [last], i) <==> FirstOfItsId(rooms, i)
  {
    var all := rooms + [last];
    assert forall j :: 0 <= j < |rooms| ==> all[j] == rooms[j];
  }

  lemma FirstSnoc(rooms: seq<Room>, last: Room, r: Room)
    ensures IsFirst(rooms + [last], r) <==> IsFirst(rooms, r) || (r == last && last.id !in Ids(rooms))
  {
    var all := rooms + [last];
    forall i | 0 <= i < |rooms| ensures FirstOfItsId(all, i) <==> FirstOfItsId(rooms, i) {
      FirstInFront(rooms, last, i);
    }
    assert FirstOfItsId(all, |rooms|) <==> last.id !in Ids(rooms) by {
      forall j | 0 <= j < |rooms| ensures all[j].id in Ids(rooms) {
        assert all[j] == rooms[j];
      }
      if last.id in Ids(rooms) {
        var q :| q in rooms && q.id == last.id;
        var j :| 0 <= j < |rooms| && rooms[j] == q;
        assert all[j].id == all[|rooms|].id;
      }
    }
    if IsFirst(rooms, r) {
      var i :| FirstOfItsId(rooms, i) && rooms[i] == r;
      assert FirstOfItsId(all, i) && all[i] == r;
    }
  }

  lemma IdsSnoc(rooms: seq<Room>, last: Room)
    ensures Ids(rooms + [last]) == Ids(rooms) + {last.id}
  {
  }

  /** Distinct IDs, none lost, and of each ID exactly the room that came first. */
  lemma {:induction false} DedupedExactly(rooms: seq<Room>)
    ensures DistinctIds(Deduped(rooms)) && Ids(Deduped(rooms)) == Ids(rooms)
    ensures forall r :: r in Deduped(rooms) <==> IsFirst(rooms, r)
  {
    if rooms != [] {
      var before, last := rooms[..|rooms| - 1], rooms[|rooms| - 1];
      DedupedExactly(before);
      assert rooms == before + [last];
      IdsSnoc(before, last);
      IdsSnoc(Deduped(before), last);
      forall r ensures IsFirst(rooms, r) <==> IsFirst(before, r) || (r == last && last.id !in Ids(before)) {
        FirstSnoc(before, last, r);
      }
      if last.id !in Ids(before) {
        DistinctSnoc(Deduped(before), last);
      }
    }
  }

  lemma FirstsAreRooms(rooms: seq<Room>)
    ensures forall r :: IsFirst(rooms, r) ==> r in rooms
  {
  }

  lemma DistinctSnoc(rooms: seq<Room>, last: Room)
    requires DistinctIds(rooms) && last.id !in Ids(rooms)
    ensures DistinctIds(rooms + [last])
  {
    forall i | 0 <= i < |rooms| ensures rooms[i].id != last.id {
      assert rooms[i] in rooms;
    }
  }

  /** The rest of dedupeAndShuffle: the first room of each ID stays. */
  method Dedupe(rooms: seq<Room>) returns (out: seq<Room>)
    ensures out == Deduped(rooms)
    ensures DistinctIds(out) && Ids(out) == Ids(rooms)
    ensures forall r :: r in out <==> IsFirst(rooms, r)
  {
    out := [];
    var have: set<string> := {};
    for i := 0 to |rooms|
      invariant out == Deduped(rooms[..i]) && have == Ids(rooms[..i])
    {
      assert rooms[..i + 1] == rooms[..i] + [rooms[i]] && rooms[..i + 1][..i] == rooms[..i];
      IdsSnoc(rooms[..i], rooms[i]);
      if rooms[i].id in have {
        continue;
      }
      have := have + {rooms[i].id};
      out := out + [rooms[i]];
    }
    assert rooms[..|rooms|] == rooms;
    DedupedExactly(rooms);
  }

  function Inserted(rooms: seq<Room>, p: nat, r: Room): seq<Room>
    requires p <= |rooms|
  {
    rooms[..p] + [r] + rooms[p..]
  }

  lemma InsertKeepsBigToSmall(rooms: seq<Room>, p: nat, r: Room)
    requires p <= |rooms| && BigToSmall(rooms)
    requires forall k :: p <= k < |rooms| ==> rooms[k].members < r.members
    requires p > 0 ==> rooms[p - 1].members >= r.members
    ensures BigToSmall(Inserted(rooms, p, r))
  {
    var out := Inserted(rooms, p, r);
    forall i, j | 0 <= i < j < |out| ensures out[i].members >= out[j].members {
    }
  }

  lemma InsertAddsOne(rooms: seq<Room>, p: nat, r: Room)
    requires p <= |rooms|
    ensures multiset(Inserted(rooms, p, r)) == multiset(rooms) + multiset{r}
  {
    assert rooms == rooms[..p] + rooms[p..];
  }

  /** The rooms of one size, in order. */
  function OfSize(rooms: seq<Room>, members: int): seq<Room> {
    if rooms == [] then []
    else
      var last := rooms[|rooms| - 1];
      OfSize(rooms[..|rooms| - 1], members) + if last.members == members then [last] else []
  }

  lemma {:induction false} OfSizeInParts(a: seq<Room>, b: seq<Room>, members: int)
    ensures OfSize(a + b, members) == OfSize(a, members) + OfSize(b, members)
  {
    if b == [] {
      assert a + b == a;
    } else {
      var init := b[..|b| - 1];
      OfSizeInParts(a, init, members);
      assert (a + b)[..|a + b| - 1] == a + init;
    }
  }

  lemma {:induction false} NoneOfSize(rooms: seq<Room>, members: int)
    requires forall k :: 0 <= k < |rooms| ==> rooms[k].members != members
    ensures OfSize(rooms, members) == []
  {
    if rooms != [] {
      NoneOfSize(rooms[..|rooms| - 1], members);
    }
  }

  /** A room inserted behind those of its size comes last among them. */
  lemma InsertIsStable(rooms: seq<Room>, p: nat, r: Room, members: int)
    requires p <= |rooms| && forall k :: p <= k < |rooms| ==> rooms[k].members < r.members
    ensures OfSize(Inserted(rooms, p, r), members) == OfSize(rooms, members) + if r.members == members then [r] else []
  {
    var front, back := rooms[..p], rooms[p..];
    OfSizeInParts(front, [r], members);
    OfSizeInParts(front + [r], back, members);
    OfSizeInParts(front, back, members);
    assert front + back == rooms && [r][..0] == [];
    if r.members == members {
      NoneOfSize(back, members);
    }
  }

  /** sort.SliceStable by member count, big to small: rooms of one size keep their order. */
  method SortByMembers(rooms: seq<Room>) returns (out: seq<Room>)
    ensures BigToSmall(out) && multiset(out) == multiset(rooms)
    ensures forall members :: OfSize(out, members) == OfSize(rooms, members)
  {
    out := [];
    for i := 0 to |rooms|
      invariant BigToSmall(out) && multiset(out) == multiset(rooms[..i])
      invariant forall members :: OfSize(out, members) == OfSize(rooms[..i], members)
    {
      var r := rooms[i];
      var p := |out|;
      while p > 0 && out[p - 1].members < r.members
        invariant 0 <= p <= |out|
        invariant forall k :: p <= k < |out| ==> out[k].members < r.members
      {
        p := p - 1;
      }
      InsertKeepsBigToSmall(out, p, r);
      InsertAddsOne(out, p, r);
      assert rooms[..i + 1] == rooms[..i] + [r] && rooms[..i + 1][..i] == rooms[..i];
      forall members
        ensures OfSize(Inserted(out, p, r), members) == OfSize(rooms[..i + 1], members)
      {
        InsertIsStable(out, p, r, members);
      }
      out := Inserted(out, p, r);
    }
    assert rooms[..|rooms|] == rooms;
  }

  lemma SameRoomsSameIds(a: seq<Room>, b: seq<Room>)
    requires multiset(a) == multiset(b)
    ensures Ids(a) == Ids(b) && (forall r :: r in a <==> r in b)
  {
    forall r ensures r in a <==> r in b {
      assert r in a <==> r in multiset(a);
      assert r in b <==> r in multiset(b);
    }
  }

  lemma {:induction false} DistinctCount(rooms: seq<Room>)
    requires DistinctIds(rooms)
    ensures forall r :: r in rooms ==> multiset(rooms)[r] == 1
  {
    if rooms != [] {
      var n := |rooms| - 1;
      DistinctCount(rooms[..n]);
      assert rooms == rooms[..n] + [rooms[n]];
      assert rooms[n] !in rooms[..n];
    }
  }

  /** Rearranging keeps IDs distinct. */
  lemma RearrangedIsDistinct(a: seq<Room>, b: seq<Room>)
    requires DistinctIds(a) && multiset(a) == multiset(b)
    ensures DistinctIds(b)
  {
    DistinctCount(a);
    SameRoomsSameIds(a, b);
    forall i, j | 0 <= i < j < |b| ensures b[i].id != b[j].id {
      if b[i].id == b[j].id {
        assert b[i] in a && b[j] in a;
        var p :| 0 <= p < |a| && a[p] == b[i];
        var q :| 0 <= q < |a| && a[q] == b[j];
        assert p == q;
        TwiceCounts(b, i, j);
      }
    }
  }

  // --- filtering ----------------------------------------------------------------------------------

  predicate SubAt(s: string, sub: string, k: int) {
    0 <= k <= |s| - |sub| && s[k..k + |sub|] == sub
  }

  /** strings.Contains */
  predicate Contains(s: string, sub: string) {
    exists k | 0 <= k <= |s| :: SubAt(s, sub, k)
  }

  /** `lower` is strings.ToLower; nothing depends on what it does. */
  predicate Matches(lower: string -> string, r: Room, term: string) {
    || term == ""
    || Contains(lower(r.name), lower(term)) || Contains(lower(r.topic), lower(term))
    || Contains(lower(r.alias), lower(term))
  }

  /** One string contains another exactly if that one stands somewhere in it. */
  lemma ContainsExactly(s: string, sub: string)
    ensures Contains(s, sub) <==> exists front, back :: s == front + sub + back
  {
    if Contains(s, sub) {
      var k :| 0 <= k <= |s| && SubAt(s, sub, k);
      assert s[k..k + |sub|] == sub;
      assert s == s[..k] + sub + s[k + |sub|..];
    }
    if front, back :| s == front + sub + back {
      assert s[|front|..|front| + |sub|] == sub;
      assert SubAt(s, sub, |front|);
    }
  }

  ghost predicate StandsIn(sub: string, s: string) {
    exists front, back :: s == front + sub + back
  }

  /** A room matches exactly if the search term stands in its name, its topic or its alias, up to case. */
  lemma MatchesExactly(lower: string -> string, r: Room, term: string)
    ensures Matches(lower, r, term) <==>
              || term == "" || StandsIn(lower(term), lower(r.name)) || StandsIn(lower(term), lower(r.topic))
              || StandsIn(lower(term), lower(r.alias))
  {
    ContainsExactly(lower(r.name), lower(term));
    ContainsExactly(lower(r.topic), lower(term));
    ContainsExactly(lower(r.alias), lower(term));
  }

  function Filtered(lower: string -> string, rooms: seq<Room>, term: string): seq<Room> {
    if rooms == [] then []
    else
      var before, last := rooms[..|rooms| - 1], rooms[|rooms| - 1];
      Filtered(lower, before, term) + if Matches(lower, last, term) then [last] else []
  }

  lemma {:induction false} EmptyTermKeepsAll(lower: string -> string, rooms: seq<Room>)
    ensures Filtered(lower, rooms, "") == rooms
  {
    if rooms != [] {
      EmptyTermKeepsAll(lower, rooms[..|rooms| - 1]);
    }
  }

  /** Filtering keeps exactly the matching rooms, as often as they occurred. */
  lemma {:induction false} FilteredExactly(lower: string -> string, rooms: seq<Room>, term: string)
    ensures forall r ::
              multiset(Filtered(lower, rooms, term))[r] == if Matches(lower, r, term) then multiset(rooms)[r] else 0
  {
    if rooms != [] {
      var before, last := rooms[..|rooms| - 1], rooms[|rooms| - 1];
      FilteredExactly(lower, before, term);
      assert rooms == before + [last];
    }
  }

  lemma {:induction false} FilteredInOrder(lower: string -> string, rooms: seq<Room>, term: string)
    requires BigToSmall(rooms)
    ensures BigToSmall(Filtered(lower, rooms, term))
    ensures forall r :: r in Filtered(lower, rooms, term) ==> r in rooms
  {
    if rooms != [] {
      var before := rooms[..|rooms| - 1];
      FilteredInOrder(lower, before, term);
      forall r | r in Filtered(lower, before, term) ensures r.members >= rooms[|rooms| - 1].members {
        var k :| 0 <= k < |before| && before[k] == r;
        assert rooms[k] == r;
      }
    }
  }

  /**
  Following the next tokens of a search through a valid cache shows every matching room exactly once, big
  rooms first, and nothing else.
  */
  lemma SearchShowsEachMatchOnce(lower: string -> string, ask: int -> Option<Shown<Room>>, cache: seq<Room>,
                                 term: string, limit: nat, fuel: nat)
    requires DistinctIds(cache) && BigToSmall(cache)
    requires |Filtered(lower, cache, term)| < TWO63 / 2 && 0 < limit < TWO63 && |Filtered(lower, cache, term)| < fuel
    requires forall o :: Int64(o) ==> ask(o) == Answer(Filtered(lower, cache, term), o, limit)
    ensures var shown := Flatten(Walk(ask, 0, fuel));
            && BigToSmall(shown)
            && forall r :: multiset(shown)[r] == if r in cache && Matches(lower, r, term) then 1 else 0
  {
    WalkVisitsEachRoomOnce(ask, Filtered(lower, cache, term), limit, fuel);
    FilteredExactly(lower, cache, term);
    FilteredInOrder(lower, cache, term);
    DistinctCount(cache);
  }

  lemma FilteredMembers(lower: string -> string, rooms: seq<Room>, term: string)
    ensures forall r :: r in Filtered(lower, rooms, term) <==>
              && r in rooms
              && (term == "" || StandsIn(lower(term), lower(r.name)) || StandsIn(lower(term), lower(r.topic))
                  || StandsIn(lower(term), lower(r.alias)))
  {
    FilteredExactly(lower, rooms, term);
    var kept := Filtered(lower, rooms, term);
    forall r ensures r in kept <==> r in rooms && Matches(lower, r, term) {
      assert r in kept <==> multiset(kept)[r] > 0;
      assert r in rooms <==> multiset(rooms)[r] > 0;
    }
    forall r ensures Matches(lower, r, term) <==>
        || term == "" || StandsIn(lower(term), lower(r.name)) || StandsIn(lower(term), lower(r.topic))
        || StandsIn(lower(term), lower(r.alias)) {
      MatchesExactly(lower, r, term);
    }
  }

  method FilterRooms(lower: string -> string, rooms: seq<Room>, term: string) returns (result: seq<Room>)
    ensures result == Filtered(lower, rooms, term)
    ensures forall r :: r in result <==>
              && r in rooms
              && (term == "" || StandsIn(lower(term), lower(r.name)) || StandsIn(lower(term), lower(r.topic))
                  || StandsIn(lower(term), lower(r.alias)))
  {
    FilteredMembers(lower, rooms, term);
    if term == "" {
      EmptyTermKeepsAll(lower, rooms);
      return rooms;
    }
    var normalized := lower(term);
    result := [];
    for i := 0 to |rooms|
      invariant result == Filtered(lower, rooms[..i], term)
    {
      assert rooms[..i + 1][..i] == rooms[..i];
      if Contains(lower(rooms[i].name), normalized) || Contains(lower(rooms[i].topic), normalized)
         || Contains(lower(rooms[i].alias), normalized) {
        result := result + [rooms[i]];
      }
    }
    assert rooms[..|rooms|] == rooms;
  }

  // --- the cache and a request ---------------------------------------------------------------------

  datatype Response = Response(chunk: seq<Room>, prevBatch: string, nextBatch: string, total: nat)

  datatype Failure = BadSince | OutOfRange

  class Directory {
    var cache: seq<Room>

    ghost predicate Valid()
      reads this
    {
      DistinctIds(cache) && BigToSmall(cache)
    }

    constructor ()
      ensures Valid() && cache == []
    {
      cache := [];
    }

    /**
    refreshPublicRoomCache; `published` is None when either roomserver query failed, which leaves the
    cache as it was. Otherwise it holds one of the given rooms for each ID, for any shuffle.
    */
    method Refresh(published: Option<seq<Room>>, extra: seq<Room>, random: nat -> nat) returns (rooms: seq<Room>)
      requires Valid()
      modifies this
      ensures Valid() && rooms == cache
      ensures published.None? ==> cache == old(cache)
      ensures published.Some? ==> Ids(cache) == Ids(published.value + extra)
      ensures published.Some? ==> forall r :: r in cache ==> r in published.value + extra
      ensures published.Some? ==>
                var shown := Deduped(ShuffledAll(published.value + extra, random));
                multiset(cache) == multiset(shown) && forall n :: OfSize(cache, n) == OfSize(shown, n)
    {
      if published.None? {
        return cache;
      }
      var all := published.value + extra;
      var slice := new Room[|all|](i requires 0 <= i < |all| => all[i]);
      assert slice[..] == all;
      ShuffleKeepsAll(all, random);
      Shuffle(slice, random);
      var deduped := Dedupe(slice[..]);
      SameRoomsSameIds(slice[..], all);
      var sorted := SortByMembers(deduped);
      SameRoomsSameIds(sorted, deduped);
      FirstsAreRooms(slice[..]);
      RearrangedIsDistinct(deduped, sorted);
      cache := sorted;
      return cache;
    }

    /** publicRooms; `since` has lost its "T" already. An empty `since` refreshes the cache. */
    method PublicRooms(lower: string -> string, since: string, limit: int, term: string,
                       published: Option<seq<Room>>, extra: seq<Room>, random: nat -> nat)
      returns (r: Result<Response, Failure>)
      requires Valid() && Int64(limit)
      modifies this
      ensures Valid()
      ensures since != "" ==> cache == old(cache)
      ensures since == "" && Offset(since).Some? && published.None? ==> cache == old(cache)
      ensures since == "" && published.Some? ==> Ids(cache) == Ids(published.value + extra)
      ensures since == "" && published.Some? ==> forall r :: r in cache ==> r in published.value + extra
      ensures var offset := if Offset(since).Some? then Offset(since).value else 0;
              var page := SliceInto(Filtered(lower, cache, term), offset, if limit == 0 then 50 else limit);
              && (r.Err? <==> Offset(since).None? || page.None?)
              && (r.Ok? ==>
                    r.value == Response(page.value.chunk, Token(page.value.prev), Token(page.value.next), |cache|))
    {
      var size := if limit == 0 then 50 else limit;
      var offset := Offset(since);
      if offset.None? {
        return Err(BadSince);
      }
      var rooms;
      if since == "" {
        rooms := Refresh(published, extra, random);
      } else {
        rooms := cache;
      }
      var total := |rooms|;
      rooms := FilterRooms(lower, rooms, term);
      var page := SliceInto(rooms, offset.value, size);
      if page.None? {
        return Err(OutOfRange);
      }
      var prevBatch, nextBatch := "", "";
      if page.value.prev >= 0 {
        prevBatch := "T" + Itoa(page.value.prev);
      }
      if page.value.next >= 0 {
        nextBatch := "T" + Itoa(page.value.next);
      }
      return Ok(Response(page.value.chunk, prevBatch, nextBatch, total));
    }
  }
}
