/**
Rewriting the `users` of a power level event from user IDs to sender IDs, in place, while ranging over
the same map. The order of the range is arbitrary, and a key inserted during it may or may not be visited.
*/
module PowerLevels {
  import opened Wrappers
  import opened Sequences

  datatype Lookup = Sender(id: string) | NotFound | Failed

  /** `isUser`: the key parses as a user ID; `sender`: what the roomserver answers for it. */
  datatype Directory = Directory(isUser: string -> bool, sender: string -> Lookup)

  /** Sender IDs do not look like user IDs. */
  ghost predicate SendersAreKeys(d: Directory) {
    forall u :: d.sender(u).Sender? ==> !d.isUser(d.sender(u).id)
  }

  /** The name under which a key's level must end up. */
  function Renamed(d: Directory, u: string): string {
    if d.isUser(u) && d.sender(u).Sender? then d.sender(u).id else u
  }

  predicate LookupFails(d: Directory, u: string) {
    d.isUser(u) && d.sender(u).Failed?
  }

  /** One round of the range, at a key that is there and whose lookup does not fail. */
  function Visited<V>(d: Directory, m: map<string, V>, k: string): map<string, V> {
    if k in m && d.isUser(k) && d.sender(k).Sender? then m[d.sender(k).id := m[k]] - {k} else m
  }

  /** The range over the map in a given order. */
  function InOrder<V>(d: Directory, m: map<string, V>, order: seq<string>): map<string, V> {
    if order == [] then m else Visited(d, InOrder(d, m, order[..|order| - 1]), order[|order| - 1])
  }

  /** Names that fall together carry the same level. */
  ghost predicate NoClash<V(!new)>(d: Directory, users: map<string, V>) {
    forall u, v :: u in users && v in users && Renamed(d, u) == Renamed(d, v) ==> users[u] == users[v]
  }

  ghost predicate ComesFrom<V(!new)>(d: Directory, users: map<string, V>, k: string, level: V) {
    exists u :: u in users && Renamed(d, u) == k && users[u] == level
  }

  /** Exactly the new names are there, and every level belongs to a key that now has that name. */
  ghost predicate Translates<V(!new)>(d: Directory, users: map<string, V>, result: map<string, V>) {
    && (forall u :: u in users ==> Renamed(d, u) in result)
    && (forall k :: k in result ==> ComesFrom(d, users, k, result[k]))
  }

  /** Every level is found under the old or the new name. */
  ghost predicate NothingDropped<V(!new)>(d: Directory, users: map<string, V>, result: map<string, V>) {
    forall u :: u in users ==>
      || (u in result && result[u] == users[u])
      || (Renamed(d, u) in result && result[Renamed(d, u)] == users[u])
  }

  /** The name of a key once the keys in `done` have been visited. */
  function NameNow(d: Directory, done: set<string>, u: string): string {
    if u in done then Renamed(d, u) else u
  }

  /**
  Half-way through the range. `origin` names the key that each level came from, `pending` the keys still to
  come.
  */
  ghost predicate Halfway<V(!new)>(d: Directory, users: map<string, V>, m: map<string, V>, done: set<string>,
                                   pending: set<string>, origin: map<string, string>) {
    && (forall u :: u in done ==> u in users)
    && (forall u :: u in users && u !in done ==> u in pending)
    && (forall k :: k in pending ==> k in m && (d.isUser(k) ==> k in users && k !in done))
    && (forall u :: u in done ==> !LookupFails(d, u))
    && (forall u {:trigger NameNow(d, done, u)} :: u in users ==> NameNow(d, done, u) in m)
    && (forall k :: k in m ==> k in origin)
    && (forall k {:trigger origin[k]} :: k in m ==>
          && origin[k] in users && m[k] == users[origin[k]] && k == NameNow(d, done, origin[k]))
  }

  /** A key that keeps its name: not a user ID, or no sender ID found. */
  lemma StepOver<V(!new)>(d: Directory, users: map<string, V>, m: map<string, V>, done: set<string>,
                          pending: set<string>, origin: map<string, string>, k: string)
    requires Halfway(d, users, m, done, pending, origin) && k in pending
    requires Renamed(d, k) == k && !LookupFails(d, k)
    ensures Halfway(d, users, m, if k in users && k !in done then done + {k} else done, pending - {k}, origin)
  {
    var later := if k in users && k !in done then done + {k} else done;
    assert forall u :: u in users ==> NameNow(d, later, u) == NameNow(d, done, u);
  }

  /** A key whose level moves to its sender ID. */
  lemma StepMove<V(!new)>(d: Directory, users: map<string, V>, m: map<string, V>, done: set<string>,
                          pending: set<string>, origin: map<string, string>, k: string, more: set<string>)
    requires Halfway(d, users, m, done, pending, origin) && SendersAreKeys(d)
    requires k in pending && d.isUser(k) && d.sender(k).Sender? && more <= {d.sender(k).id}
    ensures var id := d.sender(k).id;
            Halfway(d, users, m[id := m[k]] - {k}, done + {k}, pending - {k} + more, origin[id := k] - {k})
  {
    var id := d.sender(k).id;
    var m' := m[id := m[k]] - {k};
    assert Renamed(d, k) == id != k;
    assert k in users && k !in done;
    if origin[k] != k {
      OnlyItself(d, done, origin[k], k);
      assert false;
    }
    forall u | u in users ensures NameNow(d, done + {k}, u) in m' {
      if u != k {
        assert NameNow(d, done + {k}, u) == NameNow(d, done, u);
        OnlyItself(d, done, u, k);
      }
    }
  }

  lemma OnlyItself(d: Directory, done: set<string>, u: string, k: string)
    requires SendersAreKeys(d) && d.isUser(k) && k !in done && u != k
    ensures NameNow(d, done, u) != k
  {
  }

  /** Keys with the same name now are keys that will have the same name. */
  lemma SameNameNow(d: Directory, done: set<string>, u: string, v: string)
    requires SendersAreKeys(d) && NameNow(d, done, u) == NameNow(d, done, v)
    ensures Renamed(d, u) == Renamed(d, v)
  {
  }

  lemma HalfwayDropsNothing<V(!new)>(d: Directory, users: map<string, V>, m: map<string, V>, done: set<string>,
                                     pending: set<string>, origin: map<string, string>)
    requires Halfway(d, users, m, done, pending, origin) && SendersAreKeys(d)
    ensures NoClash(d, users) ==> NothingDropped(d, users, m)
  {
    if NoClash(d, users) {
      forall u | u in users ensures (u in m && m[u] == users[u])
          || (Renamed(d, u) in m && m[Renamed(d, u)] == users[u]) {
        var n := NameNow(d, done, u);
        SameNameNow(d, done, u, origin[n]);
      }
    }
  }

  lemma LessToDo(all: set<string>, was: set<string>, done: set<string>)
    requires was <= done
    ensures all - done <= all - was
    ensures was < done <= all ==> all - done < all - was
  {
    if was < done <= all {
      var k :| k in done && k !in was;
      assert k in all - was && k !in all - done;
    }
  }

  /** The range starts with every key pending under its own name. */
  lemma Start<V(!new)>(d: Directory, users: map<string, V>) returns (origin: map<string, string>)
    ensures Halfway(d, users, users, {}, users.Keys, origin)
  {
    origin := map k | k in users :: k;
  }

  lemma FinishedTranslates<V(!new)>(d: Directory, users: map<string, V>, m: map<string, V>, done: set<string>,
                                    origin: map<string, string>)
    requires Halfway(d, users, m, done, {}, origin)
    ensures Translates(d, users, m) && forall u :: u in users ==> !LookupFails(d, u)
  {
    forall u | u in users ensures Renamed(d, u) in m && !LookupFails(d, u) {
      assert NameNow(d, done, u) in m;
    }
    forall k | k in m ensures ComesFrom(d, users, k, m[k]) {
      assert origin[k] in done;
    }
  }

  /** The map is what the keys visited so far make of it, and all keys that are done were visited. */
  ghost predicate Passed<V(!new)>(d: Directory, users: map<string, V>, m: map<string, V>, done: set<string>,
                                  order: seq<string>) {
    m == InOrder(d, users, order) && done <= Elements(order)
  }

  lemma PassedOn<V(!new)>(d: Directory, users: map<string, V>, m: map<string, V>, done: set<string>,
                          order: seq<string>, k: string, later: set<string>)
    requires Passed(d, users, m, done, order) && later <= done + {k}
    ensures Passed(d, users, Visited(d, m, k), later, order + [k])
  {
    assert (order + [k])[..|order|] == order;
    assert Elements(order + [k]) == Elements(order) + {k};
  }

  /** At the end every key was visited. */
  lemma AllVisited<V(!new)>(d: Directory, users: map<string, V>, m: map<string, V>, done: set<string>,
                            origin: map<string, string>, order: seq<string>)
    requires Halfway(d, users, m, done, {}, origin) && Passed(d, users, m, done, order)
    ensures m == InOrder(d, users, order) && users.Keys <= Elements(order)
  {
    forall u | u in users ensures u in Elements(order) {
      assert u in done;
    }
  }

  class PowerLevelContent<V(!new)> {
    /** The `users` member of the event content, if there is one. */
    var users: Option<map<string, V>>

    constructor (users: Option<map<string, V>>)
      ensures this.users == users
    {
      this.users := users;
    }

    /** updatePowerLevels; `revisit` says which inserted keys the range comes across. */
    method Update(roomIsValid: bool, d: Directory, revisit: string -> bool) returns (ok: bool)
      requires SendersAreKeys(d)
      modifies this
      ensures old(users).None? ==> ok && users == None
      ensures old(users).Some? && !roomIsValid ==> !ok && users == old(users)
      ensures old(users).Some? ==> users.Some?
      ensures old(users).Some? && roomIsValid ==>
                (ok <==> forall u :: u in old(users).value ==> !(d.isUser(u) && d.sender(u) == Failed))
      ensures old(users).Some? && ok ==> Translates(d, old(users).value, users.value)
      ensures old(users).Some? && ok ==> forall u :: u in old(users).value ==>
                if d.isUser(u) && d.sender(u).Sender? then d.sender(u).id in users.value && u !in users.value
                else u in users.value
      ensures old(users).Some? && roomIsValid && NoClash(d, old(users).value) ==>
                NothingDropped(d, old(users).value, users.value)
    {
      if users.None? {
        return true;
      }
      if !roomIsValid {
        return false;
      }
      ghost var order;
      ok, order := Rename(d, revisit);
    }

    /** One round of the range, at key k. */
    method Visit(d: Directory, revisit: string -> bool, k: string, pending: set<string>, ghost before: map<string, V>,
                 ghost done: set<string>, ghost origin: map<string, string>, ghost order: seq<string>)
      returns (ok: bool, rest: set<string>, ghost later: set<string>, ghost from: map<string, string>)
      requires SendersAreKeys(d) && users.Some? && k in pending
      requires Halfway(d, before, users.value, done, pending, origin) && Passed(d, before, users.value, done, order)
      modifies this
      ensures users.Some? && Halfway(d, before, users.value, later, rest, from)
      ensures ok <==> !LookupFails(d, k)
      ensures !ok ==> k in before
      ensures ok ==> Passed(d, before, users.value, later, order + [k])
      ensures ok ==> done < later || (done == later && rest < pending)
    {
      ok, rest, later, from := true, pending - {k}, done, origin;
      if !d.isUser(k) || d.sender(k).NotFound? {
        StepOver(d, before, users.value, done, pending, origin, k);
        if k in before && k !in done {
          later := done + {k};
        }
        PassedOn(d, before, users.value, done, order, k, later);
        return;
      }
      if d.sender(k).Failed? {
        return false, pending, done, origin;
      }
      var id := d.sender(k).id;
      var more := if id !in users.value && revisit(id) then {id} else {};
      StepMove(d, before, users.value, done, pending, origin, k, more);
      PassedOn(d, before, users.value, done, order, k, done + {k});
      users := Some(users.value[id := users.value[k]]);
      users := Some(users.value - {k});
      rest, later, from := rest + more, done + {k}, origin[id := k] - {k};
    }

    /** The range over the map. */
    method Rename(d: Directory, revisit: string -> bool) returns (ok: bool, ghost order: seq<string>)
      requires SendersAreKeys(d) && users.Some?
      modifies this
      ensures users.Some?
      ensures ok ==> users.value == InOrder(d, old(users).value, order)
      ensures ok ==> old(users).value.Keys <= Elements(order)
      ensures ok <==> forall u :: u in old(users).value ==> !LookupFails(d, u)
      ensures ok ==> Translates(d, old(users).value, users.value)
      ensures NoClash(d, old(users).value) ==> NothingDropped(d, old(users).value, users.value)
    {
      ghost var before := users.value;
      ghost var done: set<string> := {};
      ghost var origin := Start(d, before);
      var pending := users.value.Keys;
      ok, order := true, [];
      while pending != {}
        invariant users.Some? && Passed(d, before, users.value, done, order)
        invariant Halfway(d, before, users.value, done, pending, origin)
        decreases before.Keys - done, pending
      {
        var k :| k in pending;
        ghost var was := done;
        ok, pending, done, origin := Visit(d, revisit, k, pending, before, done, origin, order);
        if !ok {
          HalfwayDropsNothing(d, before, users.value, done, pending, origin);
          return;
        }
        LessToDo(before.Keys, was, done);
        order := order + [k];
      }
      HalfwayDropsNothing(d, before, users.value, done, {}, origin);
      FinishedTranslates(d, before, users.value, done, origin);
      AllVisited(d, before, users.value, done, origin, order);
      ok := true;
    }
  }

  // --- what the outcome amounts to -------------------------------------------------------------------

  /** Every level is kept under its new name exactly when names that fall together carry the same level. */
  lemma LevelsKeptExactlyWhen<V(!new)>(d: Directory, users: map<string, V>, result: map<string, V>)
    requires Translates(d, users, result)
    ensures (forall u :: u in users ==> result[Renamed(d, u)] == users[u]) <==> NoClash(d, users)
  {
    if NoClash(d, users) {
      forall u | u in users ensures result[Renamed(d, u)] == users[u] {
        assert ComesFrom(d, users, Renamed(d, u), result[Renamed(d, u)]);
      }
    }
  }

  /** Without a clash neither the order of the range nor the visits to inserted keys change the outcome. */
  lemma OrderDoesNotMatter<V(!new)>(d: Directory, users: map<string, V>, a: map<string, V>, b: map<string, V>)
    requires NoClash(d, users) && Translates(d, users, a) && Translates(d, users, b)
    ensures a == b
  {
    forall k ensures (k in a ==> k in b && a[k] == b[k]) && (k in b ==> k in a) {
      if k in a {
        assert ComesFrom(d, users, k, a[k]);
        assert k in b ==> ComesFrom(d, users, k, b[k]);
      }
      if k in b {
        assert ComesFrom(d, users, k, b[k]);
      }
    }
  }

  /** With a clash the order decides: two users with one sender ID, and the later one's level stays. */
  lemma OrderCanMatter<V(!new)>(first: V, second: V) returns (d: Directory, users: map<string, V>, a: string, b: string)
    requires first != second
    ensures SendersAreKeys(d) && users.Keys == {a, b}
    ensures InOrder(d, users, [a, b]) == map["key" := second] && InOrder(d, users, [b, a]) == map["key" := first]
  {
    a, b := "@a:server", "@b:server";
    assert a[1] != b[1];
    d := Directory(u => u == "@a:server" || u == "@b:server", u => Sender("key"));
    users := map[a := first, b := second];
    assert [a, b][..1] == [a] && [b, a][..1] == [b];
    assert [a][..0] == [] && [b][..0] == [];
    assert "key" != a && "key" != b by { assert |"key"| != |a|; }
    assert InOrder(d, users, [a]) == map["key" := first, b := second];
    assert InOrder(d, users, [b]) == map["key" := second, a := first];
  }

  ghost predicate DistinctNames(d: Directory, keys: set<string>) {
    forall u, v :: u in keys && v in keys && Renamed(d, u) == Renamed(d, v) ==> u == v
  }

  ghost function Names(d: Directory, keys: set<string>): set<string> {
    set u | u in keys :: Renamed(d, u)
  }

  lemma {:induction false} NamesCount(d: Directory, keys: set<string>)
    ensures |Names(d, keys)| <= |keys|
    ensures DistinctNames(d, keys) <==> |Names(d, keys)| == |keys|
  {
    if keys != {} {
      var u :| u in keys;
      var rest := keys - {u};
      NamesCount(d, rest);
      assert Names(d, keys) == Names(d, rest) + {Renamed(d, u)};
      if Renamed(d, u) in Names(d, rest) {
        var v :| v in rest && Renamed(d, v) == Renamed(d, u);
        assert Names(d, keys) == Names(d, rest);
        assert !DistinctNames(d, keys);
      } else {
        assert DistinctNames(d, keys) <==> DistinctNames(d, rest);
      }
    }
  }

  /** The event keeps as many entries as it had exactly when no two keys get the same name. */
  lemma EntriesKeptExactlyWhen<V(!new)>(d: Directory, users: map<string, V>, result: map<string, V>)
    requires Translates(d, users, result)
    ensures |result| == |users| <==> DistinctNames(d, users.Keys)
  {
    NamesCount(d, users.Keys);
    forall k ensures k in result <==> k in Names(d, users.Keys) {
      assert k in result ==> ComesFrom(d, users, k, result[k]);
    }
    assert result.Keys == Names(d, users.Keys);
    assert |result| == |result.Keys| && |users| == |users.Keys|;
  }
}
