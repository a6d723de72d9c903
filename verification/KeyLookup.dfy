/**
The signing-key lookup pipeline: our own keys, then the cached key database, then each key fetcher,
over a shrinking map of requests and a growing map of results. A fetcher may reply more than it was asked.
*/
module KeyLookup {
  import opened Wrappers

  // Milliseconds; 0 stands for "not expired" and for "no validity period".
  type Timestamp = nat

  const SEVEN_DAYS: Timestamp := 7 * 24 * 3600 * 1000

  datatype Request = Request(server: string, keyID: string)

  datatype Key = Key(key: string, expiredTS: Timestamp, validUntilTS: Timestamp)

  type Keys = map<Request, Key>

  type Requests = map<Request, Timestamp>

  /** WasValidAt with the strict check: at most seven days into the future are believed. */
  predicate WasValidAt(k: Key, at: Timestamp, now: Timestamp) {
    if k.expiredTS != 0 then at < k.expiredTS
    else k.validUntilTS != 0 && at <= k.validUntilTS && at <= now + SEVEN_DAYS
  }

  /** Until when a key is believed: before its expiry, or to its validity, but at most seven days from now. */
  lemma ValidityEnds(k: Key, at: Timestamp, now: Timestamp)
    ensures k.expiredTS > 0 ==> (WasValidAt(k, at, now) <==> at < k.expiredTS)
    ensures k.expiredTS == 0 && k.validUntilTS == 0 ==> !WasValidAt(k, at, now)
    ensures k.expiredTS == 0 && k.validUntilTS > 0 ==>
              (WasValidAt(k, at, now) <==> at <= k.validUntilTS && at <= now + 604_800_000)
  {
  }

  datatype OldKey = OldKey(keyID: string, key: string, expiredAt: Timestamp)

  datatype Config = Config(
    localServers: set<string>, keyID: string, key: string, validUntil: Timestamp, oldKeys: seq<OldKey>)

  function FindOld(olds: seq<OldKey>, keyID: string): Option<Key> {
    if olds == [] then None
    else if olds[0].keyID == keyID then Some(Key(olds[0].key, olds[0].expiredAt, 0))
    else FindOld(olds[1..], keyID)
  }

  /** Our own answer to a request, if it is for one of our keys. */
  function LocalKey(cfg: Config, r: Request): Option<Key> {
    if r.server !in cfg.localServers then None
    else if r.keyID == cfg.keyID then Some(Key(cfg.key, 0, cfg.validUntil))
    else FindOld(cfg.oldKeys, r.keyID)
  }

  predicate FirstOldAt(olds: seq<OldKey>, i: int, keyID: string) {
    0 <= i < |olds| && olds[i].keyID == keyID && forall j :: 0 <= j < i ==> olds[j].keyID != keyID
  }

  lemma {:induction false} FindOldExactly(olds: seq<OldKey>, keyID: string, k: Key)
    ensures FindOld(olds, keyID) == Some(k) <==>
              exists i :: FirstOldAt(olds, i, keyID) && k.key == olds[i].key && k.expiredTS == olds[i].expiredAt
                          && k.validUntilTS == 0
  {
    if olds == [] {
    } else if olds[0].keyID == keyID {
      assert FirstOldAt(olds, 0, keyID);
    } else {
      FindOldExactly(olds[1..], keyID, k);
      forall i ensures FirstOldAt(olds[1..], i, keyID) <==> i >= 0 && FirstOldAt(olds, i + 1, keyID) {
        OldBehind(olds, i, keyID);
      }
      if i :| FirstOldAt(olds[1..], i, keyID) && k.key == olds[1..][i].key && k.expiredTS == olds[1..][i].expiredAt
              && k.validUntilTS == 0 {
        assert FirstOldAt(olds, i + 1, keyID) && olds[1..][i] == olds[i + 1];
      }
      if i :| FirstOldAt(olds, i, keyID) && k.key == olds[i].key && k.expiredTS == olds[i].expiredAt
              && k.validUntilTS == 0 {
        assert FirstOldAt(olds[1..], i - 1, keyID) && olds[1..][i - 1] == olds[i];
      }
    }
  }

  lemma OldBehind(olds: seq<OldKey>, i: int, keyID: string)
    requires olds != [] && olds[0].keyID != keyID
    ensures FirstOldAt(olds[1..], i, keyID) <==> i >= 0 && FirstOldAt(olds, i + 1, keyID)
  {
    if i >= 0 && FirstOldAt(olds[1..], i, keyID) {
      forall j | 0 <= j < i + 1 ensures olds[j].keyID != keyID {
        if j > 0 { assert olds[1..][j - 1] == olds[j]; }
      }
    }
    if i >= 0 && FirstOldAt(olds, i + 1, keyID) {
      forall j | 0 <= j < i ensures olds[1..][j].keyID != keyID {
        assert olds[1..][j] == olds[j + 1];
      }
    }
  }

  /**
  Our own answers: for one of our names, the current key with its validity and no expiry, or the first old key with the
  ID, with its expiry and no validity.
  */
  lemma LocalKeyExactly(cfg: Config, r: Request, k: Key)
    ensures LocalKey(cfg, r) == Some(k) <==>
              && r.server in cfg.localServers
              && (if r.keyID == cfg.keyID
                  then k.key == cfg.key && k.expiredTS == 0 && k.validUntilTS == cfg.validUntil
                  else exists i :: FirstOldAt(cfg.oldKeys, i, r.keyID) && k.key == cfg.oldKeys[i].key
                                   && k.expiredTS == cfg.oldKeys[i].expiredAt && k.validUntilTS == 0)
  {
    FindOldExactly(cfg.oldKeys, r.keyID, k);
  }

  function LocalAnswers(cfg: Config, asked: set<Request>): Keys {
    map r | r in asked && LocalKey(cfg, r).Some? :: LocalKey(cfg, r).value
  }

  /**
  A fetcher: its reply to the open requests, or that it fails as a whole, and the keys whose upsert
  would fail.
  */
  datatype Fetcher = Fetcher(reply: Requests -> Keys, fails: bool, unstorable: set<Request>)

  /** A lookup in progress: the two maps of the call, the key cache and the key table. */
  datatype State = State(requests: Requests, results: Keys, cache: Keys, rows: Keys)

  // --- the three stages -------------------------------------------------------------------------------

  function LocalStage(cfg: Config, s: State): State {
    var ours := LocalAnswers(cfg, s.requests.Keys);
    s.(requests := s.requests - ours.Keys, results := s.results + ours)
  }

  /** Cache entries that are valid at the time each request is about. */
  function Hits(cache: Keys, asked: Requests, now: Timestamp): Keys {
    map r | r in asked && r in cache && WasValidAt(cache[r], asked[r], now) :: cache[r]
  }

  function FromTable(rows: Keys, asked: Requests): Keys {
    map r | r in asked && r in rows :: rows[r]
  }

  /** The cache part of the database stage: hits leave the requests, invalid entries leave the cache. */
  function Missed(s: State, now: Timestamp): Requests {
    s.requests - Hits(s.cache, s.requests, now).Keys
  }

  function Pruned(s: State, now: Timestamp): Keys {
    s.cache - Missed(s, now).Keys
  }

  /** A failing database matters only if the cache leaves something to ask. */
  predicate DatabaseFails(s: State, now: Timestamp, dbFails: bool) {
    dbFails && Missed(s, now) != map[]
  }

  function DatabaseStage(s: State, now: Timestamp): State {
    var found := FromTable(s.rows, Missed(s, now));
    var settled := set r | r in found && WasValidAt(found[r], now, now);
    State(Missed(s, now) - settled, s.results + Hits(s.cache, s.requests, now) + found, Pruned(s, now) + found, s.rows)
  }

  /** What a fetcher's reply adds to the database: whatever looks newer than the result so far, or has none. */
  function ToStore(results: Keys, reply: Keys): Keys {
    map r | r in reply && (r !in results || reply[r].validUntilTS > results[r].validUntilTS) :: reply[r]
  }

  function FetcherStage(s: State, f: Fetcher): State {
    if f.fails then s
    else
      var reply := f.reply(s.requests);
      var stored := ToStore(s.results, reply);
      State(s.requests - reply.Keys, s.results + reply, s.cache + stored, s.rows + (stored - f.unstorable))
  }

  /** The fetchers in turn, until nothing is left to ask for. */
  function FetcherTurns(s: State, fetchers: seq<Fetcher>): State
    decreases |fetchers|
  {
    if fetchers == [] || s.requests == map[] then s
    else FetcherTurns(FetcherStage(s, fetchers[0]), fetchers[1..])
  }

  datatype Store = Store(cache: Keys, rows: Keys)

  datatype Call = Call(asked: Requests, now: Timestamp, dbFails: bool, fetchers: seq<Fetcher>)

  function AtDatabase(cfg: Config, store: Store, c: Call): State {
    LocalStage(cfg, State(c.asked, map[], store.cache, store.rows))
  }

  function AtFetchers(cfg: Config, store: Store, c: Call): State {
    DatabaseStage(AtDatabase(cfg, store, c), c.now)
  }

  predicate CallFails(cfg: Config, store: Store, c: Call) {
    DatabaseFails(AtDatabase(cfg, store, c), c.now, c.dbFails)
  }

  /** The end of a call that does not fail. */
  function AtEnd(cfg: Config, store: Store, c: Call): State {
    FetcherTurns(AtFetchers(cfg, store, c), c.fetchers)
  }

  function AfterCall(cfg: Config, store: Store, c: Call): Store {
    if CallFails(cfg, store, c) then Store(Pruned(AtDatabase(cfg, store, c), c.now), store.rows)
    else Store(AtEnd(cfg, store, c).cache, AtEnd(cfg, store, c).rows)
  }

  // --- what each request is answered with ------------------------------------------------------------------

  /** Whether every request is still open or has a result. */
  ghost predicate Accounted(asked: Requests, s: State) {
    forall r :: r in asked ==> r in s.requests || r in s.results
  }

  /** No stage lets a request disappear, or takes a result back. */
  lemma StagesAccount(cfg: Config, asked: Requests, s: State, now: Timestamp, f: Fetcher)
    requires Accounted(asked, s)
    ensures Accounted(asked, LocalStage(cfg, s)) && s.results.Keys <= LocalStage(cfg, s).results.Keys
    ensures Accounted(asked, DatabaseStage(s, now)) && s.results.Keys <= DatabaseStage(s, now).results.Keys
    ensures Accounted(asked, FetcherStage(s, f)) && s.results.Keys <= FetcherStage(s, f).results.Keys
  {
    DatabaseAccounts(asked, s, now);
  }

  lemma DatabaseAccounts(asked: Requests, s: State, now: Timestamp)
    requires Accounted(asked, s)
    ensures Accounted(asked, DatabaseStage(s, now)) && s.results.Keys <= DatabaseStage(s, now).results.Keys
  {
  }

  /** The last reply to a request among the fetchers that got their turn. */
  function LastReply(s: State, fetchers: seq<Fetcher>, r: Request): Option<Key>
    decreases |fetchers|
  {
    if fetchers == [] || s.requests == map[] then None
    else
      var f := fetchers[0];
      var later := LastReply(FetcherStage(s, f), fetchers[1..], r);
      if later.Some? then later
      else if !f.fails && r in f.reply(s.requests) then Some(f.reply(s.requests)[r])
      else None
  }

  function Found(keys: Keys, r: Request): Option<Key> {
    if r in keys then Some(keys[r]) else None
  }

  function OrElse(a: Option<Key>, b: Option<Key>): Option<Key> {
    if a.Some? then a else b
  }

  lemma {:induction false} TurnsAnswer(s: State, fetchers: seq<Fetcher>, r: Request)
    ensures Found(FetcherTurns(s, fetchers).results, r) == OrElse(LastReply(s, fetchers, r), Found(s.results, r))
    decreases |fetchers|
  {
    if fetchers != [] && s.requests != map[] {
      TurnsAnswer(FetcherStage(s, fetchers[0]), fetchers[1..], r);
    }
  }

  /** What the cached database has for a request asked about time `ts`. */
  function StoredKey(store: Store, r: Request, ts: Timestamp, now: Timestamp): Option<Key> {
    if r in store.cache && WasValidAt(store.cache[r], ts, now) then Some(store.cache[r])
    else Found(store.rows, r)
  }

  /**
  The answer to each request: the last reply of a fetcher, whatever its validity; without one our own key;
  for other requests a cache entry that is valid at the time asked about, or the row of the table.
  */
  lemma AnswersExactly(cfg: Config, store: Store, c: Call, r: Request)
    requires r in c.asked
    ensures Found(AtEnd(cfg, store, c).results, r) ==
              OrElse(LastReply(AtFetchers(cfg, store, c), c.fetchers, r),
                     OrElse(LocalKey(cfg, r), StoredKey(store, r, c.asked[r], c.now)))
  {
    TurnsAnswer(AtFetchers(cfg, store, c), c.fetchers, r);
    BeforeFetchers(cfg, store, c, r);
  }

  lemma BeforeFetchers(cfg: Config, store: Store, c: Call, r: Request)
    requires r in c.asked
    ensures Found(AtFetchers(cfg, store, c).results, r) ==
              OrElse(LocalKey(cfg, r), StoredKey(store, r, c.asked[r], c.now))
  {
    var s := AtDatabase(cfg, store, c);
    assert r in s.requests <==> LocalKey(cfg, r).None?;
    assert Found(s.results, r) == LocalKey(cfg, r);
    DatabaseAnswers(s, c.now, r);
  }

  lemma DatabaseAnswers(s: State, now: Timestamp, r: Request)
    ensures Found(DatabaseStage(s, now).results, r) ==
              if r !in s.requests then Found(s.results, r)
              else OrElse(StoredKey(Store(s.cache, s.rows), r, s.requests[r], now), Found(s.results, r))
  {
  }

  /**
  What the fetchers are asked: the requests that are not for our own keys, and for which there is neither a cache entry
  valid at the time asked about nor a row that is valid now. An outdated row does not keep a key from being fetched.
  */
  lemma FetchersAreAskedExactly(cfg: Config, store: Store, c: Call, r: Request)
    ensures r in AtFetchers(cfg, store, c).requests <==>
              && r in c.asked && LocalKey(cfg, r).None?
              && !(r in store.cache && WasValidAt(store.cache[r], c.asked[r], c.now))
              && !(r in store.rows && WasValidAt(store.rows[r], c.now, c.now))
    ensures r in AtFetchers(cfg, store, c).requests ==> AtFetchers(cfg, store, c).requests[r] == c.asked[r]
  {
    var s := AtDatabase(cfg, store, c);
    assert r in s.requests <==> r in c.asked && LocalKey(cfg, r).None?;
    assert r in s.requests ==> s.requests[r] == c.asked[r];
    OpenAfterDatabase(s, c.now, r);
  }

  lemma OpenAfterDatabase(s: State, now: Timestamp, r: Request)
    ensures r in DatabaseStage(s, now).requests <==>
              && r in s.requests
              && !(r in s.cache && WasValidAt(s.cache[r], s.requests[r], now))
              && !(r in s.rows && WasValidAt(s.rows[r], now, now))
    ensures r in DatabaseStage(s, now).requests ==> DatabaseStage(s, now).requests[r] == s.requests[r]
  {
  }

  /** A call fails exactly if the database does and the cache leaves a request that is not for our own keys. */
  lemma CallFailsExactly(cfg: Config, store: Store, c: Call)
    ensures CallFails(cfg, store, c) <==>
              c.dbFails && exists r :: r in c.asked && LocalKey(cfg, r).None?
                                       && !(r in store.cache && WasValidAt(store.cache[r], c.asked[r], c.now))
  {
    var s := AtDatabase(cfg, store, c);
    forall r ensures r in Missed(s, c.now) <==>
        && r in c.asked && LocalKey(cfg, r).None?
        && !(r in store.cache && WasValidAt(store.cache[r], c.asked[r], c.now)) {
      assert r in s.requests <==> r in c.asked && LocalKey(cfg, r).None?;
    }
    if Missed(s, c.now) != map[] {
      var r :| r in Missed(s, c.now);
    }
  }

  /**
  What the cache holds when the fetchers begin: rows asked for come in, entries that did not answer go, and nothing
  else changes; the table is untouched.
  */
  lemma CacheAtFetchers(cfg: Config, store: Store, c: Call, r: Request)
    ensures AtFetchers(cfg, store, c).rows == store.rows
    ensures var asked := r in c.asked && LocalKey(cfg, r).None?;
            Found(AtFetchers(cfg, store, c).cache, r) ==
              if !asked || (r in store.cache && WasValidAt(store.cache[r], c.asked[r], c.now))
              then Found(store.cache, r) else Found(store.rows, r)
  {
    var s := AtDatabase(cfg, store, c);
    assert r in s.requests <==> r in c.asked && LocalKey(cfg, r).None?;
    assert r in s.requests ==> s.requests[r] == c.asked[r];
    CacheAfterDatabase(s, c.now, r);
  }

  /** A call that fails has only dropped the cache entries that did not answer. */
  lemma FailedCallExactly(cfg: Config, store: Store, c: Call, r: Request)
    requires CallFails(cfg, store, c)
    ensures AfterCall(cfg, store, c).rows == store.rows
    ensures var asked := r in c.asked && LocalKey(cfg, r).None?;
            Found(AfterCall(cfg, store, c).cache, r) ==
              if asked && r in store.cache && !WasValidAt(store.cache[r], c.asked[r], c.now)
              then None else Found(store.cache, r)
  {
    var s := AtDatabase(cfg, store, c);
    assert r in s.requests <==> r in c.asked && LocalKey(cfg, r).None?;
    assert r in s.requests ==> s.requests[r] == c.asked[r];
  }

  lemma CacheAfterDatabase(s: State, now: Timestamp, r: Request)
    ensures Found(DatabaseStage(s, now).cache, r) ==
              if r !in s.requests || (r in s.cache && WasValidAt(s.cache[r], s.requests[r], now))
              then Found(s.cache, r) else Found(s.rows, r)
  {
  }

  /**
  A fetcher's turn, key by key: a reply settles its request and becomes the result; it reaches the cache, and the table
  unless its upsert fails, exactly if there was no result or one of shorter validity.
  */
  lemma TurnIsExact(s: State, f: Fetcher, r: Request)
    ensures f.fails ==> FetcherStage(s, f) == s
    ensures !f.fails ==>
              var s', reply := FetcherStage(s, f), f.reply(s.requests);
              var newer := r in reply && (r !in s.results || s.results[r].validUntilTS < reply[r].validUntilTS);
              && (r in s'.requests <==> r in s.requests && r !in reply)
              && (r in s'.requests ==> s'.requests[r] == s.requests[r])
              && Found(s'.results, r) == OrElse(Found(reply, r), Found(s.results, r))
              && Found(s'.cache, r) == Found(if newer then reply else s.cache, r)
              && Found(s'.rows, r) == Found(if newer && r !in f.unstorable then reply else s.rows, r)
  {
  }

  /** The fetcher at position `i` gets its turn and replies to the request. */
  predicate RepliesInTurn(s: State, fetchers: seq<Fetcher>, i: int, r: Request) {
    && 0 <= i < |fetchers|
    && var before := FetcherTurns(s, fetchers[..i]);
       before.requests != map[] && !fetchers[i].fails && r in fetchers[i].reply(before.requests)
  }

  lemma TurnsUpTo(s: State, fetchers: seq<Fetcher>, i: nat)
    requires fetchers != [] && s.requests != map[] && i < |fetchers|
    ensures FetcherTurns(s, fetchers[..i + 1]) == FetcherTurns(FetcherStage(s, fetchers[0]), fetchers[1..][..i])
  {
    assert fetchers[..i + 1][1..] == fetchers[1..][..i];
  }

  lemma {:induction false} LastReplyExactly(s: State, fetchers: seq<Fetcher>, r: Request)
    ensures LastReply(s, fetchers, r).Some? <==> exists i :: RepliesInTurn(s, fetchers, i, r)
    decreases |fetchers|
  {
    if s.requests == map[] {
      NoTurnLeft(s, fetchers);
    } else if fetchers != [] {
      var s', rest := FetcherStage(s, fetchers[0]), fetchers[1..];
      LastReplyExactly(s', rest, r);
      assert fetchers[..0] == [];
      forall i | 0 <= i < |rest| ensures RepliesInTurn(s', rest, i, r) <==> RepliesInTurn(s, fetchers, i + 1, r) {
        TurnsUpTo(s, fetchers, i);
      }
      if i :| RepliesInTurn(s, fetchers, i, r) && i > 0 {
        assert RepliesInTurn(s', rest, i - 1, r);
      }
      if i :| RepliesInTurn(s', rest, i, r) {
        assert RepliesInTurn(s, fetchers, i + 1, r);
      }
      assert RepliesInTurn(s, fetchers, 0, r) <==> !fetchers[0].fails && r in fetchers[0].reply(s.requests);
    }
  }

  lemma NoTurnLeft(s: State, fetchers: seq<Fetcher>)
    requires s.requests == map[]
    ensures forall i :: 0 <= i <= |fetchers| ==> FetcherTurns(s, fetchers[..i]) == s
  {
  }

  /** A request is answered exactly when we own the key, it is stored, or a fetcher replies to it in its turn. */
  lemma EveryKnownKeyIsFound(cfg: Config, store: Store, c: Call, r: Request)
    requires r in c.asked
    ensures r in AtEnd(cfg, store, c).results <==>
              || LocalKey(cfg, r).Some? || r in store.rows
              || (r in store.cache && WasValidAt(store.cache[r], c.asked[r], c.now))
              || exists i :: RepliesInTurn(AtFetchers(cfg, store, c), c.fetchers, i, r)
  {
    AnswersExactly(cfg, store, c, r);
    LastReplyExactly(AtFetchers(cfg, store, c), c.fetchers, r);
  }

  // --- does the table ever go down? ------------------------------------------------------------------------

  /** Nothing stored becomes less valid. */
  ghost predicate NoOlder(before: Keys, after: Keys) {
    forall r :: r in before ==> r in after && before[r].validUntilTS <= after[r].validUntilTS
  }

  /** Every stored key that is still being asked for is among the results, and no newer than there. */
  ghost predicate Covered(s: State) {
    forall r :: r in s.requests && r in s.rows ==>
      r in s.results && s.rows[r].validUntilTS <= s.results[r].validUntilTS
  }

  lemma DatabaseCovers(s: State, now: Timestamp)
    ensures Covered(DatabaseStage(s, now)) && DatabaseStage(s, now).rows == s.rows
  {
  }

  /** A reply for a key that was not asked for, stored although the table has a longer validity. */
  predicate Lowers(s: State, f: Fetcher, r: Request) {
    && !f.fails && r in f.reply(s.requests) && r in s.rows && r !in s.requests
    && (r !in s.results || f.reply(s.requests)[r].validUntilTS > s.results[r].validUntilTS)
    && f.reply(s.requests)[r].validUntilTS < s.rows[r].validUntilTS
  }

  /** No such reply that the database accepts. */
  ghost predicate Harmless(s: State, f: Fetcher) {
    forall r :: r !in f.unstorable ==> !Lowers(s, f, r)
  }

  /** A fetcher's turn keeps every stored validity exactly when it is harmless; keys asked for are always safe. */
  lemma TurnLowersExactlyWhen(s: State, f: Fetcher)
    requires Covered(s)
    ensures NoOlder(s.rows, FetcherStage(s, f).rows) <==> Harmless(s, f)
    ensures forall r :: r in s.requests && r in s.rows ==>
              s.rows[r].validUntilTS <= FetcherStage(s, f).rows[r].validUntilTS
    ensures Covered(FetcherStage(s, f))
  {
    var s' := FetcherStage(s, f);
    forall r | r in s.rows
      ensures r in s'.rows
      ensures s.rows[r].validUntilTS <= s'.rows[r].validUntilTS <==> r in f.unstorable || !Lowers(s, f, r)
    {
      RowAfterTurn(s, f, r);
    }
    TurnCovers(s, f);
  }

  lemma RowAfterTurn(s: State, f: Fetcher, r: Request)
    requires Covered(s) && r in s.rows
    ensures r in FetcherStage(s, f).rows
    ensures s.rows[r].validUntilTS <= FetcherStage(s, f).rows[r].validUntilTS <==> r in f.unstorable || !Lowers(s, f, r)
  {
  }

  lemma TurnCovers(s: State, f: Fetcher)
    requires Covered(s)
    ensures Covered(FetcherStage(s, f))
  {
  }

  /** The cache is never behind the table. */
  ghost predicate CacheAhead(cache: Keys, rows: Keys) {
    forall r :: r in cache && r in rows ==> rows[r].validUntilTS <= cache[r].validUntilTS
  }

  /** The cache falls behind the table exactly when such a reply reaches the cache and not the table. */
  lemma CacheFallsBehindExactlyWhen(s: State, f: Fetcher)
    requires Covered(s) && CacheAhead(s.cache, s.rows)
    ensures CacheAhead(FetcherStage(s, f).cache, FetcherStage(s, f).rows) <==>
              forall r :: r in f.unstorable ==> !Lowers(s, f, r)
  {
    var s' := FetcherStage(s, f);
    forall r | r in s'.cache && r in s'.rows
      ensures s'.rows[r].validUntilTS <= s'.cache[r].validUntilTS <==> r !in f.unstorable || !Lowers(s, f, r)
    {
      CacheAfterTurn(s, f, r);
    }
    forall r | r in f.unstorable && Lowers(s, f, r) ensures r in s'.cache && r in s'.rows {
      CacheAfterTurn(s, f, r);
    }
  }

  lemma CacheAfterTurn(s: State, f: Fetcher, r: Request)
    requires Covered(s) && CacheAhead(s.cache, s.rows)
    ensures var s' := FetcherStage(s, f);
            && (Lowers(s, f, r) ==> r in s'.cache && r in s'.rows)
            && (r in s'.cache && r in s'.rows ==>
                  (s'.rows[r].validUntilTS <= s'.cache[r].validUntilTS <==> r !in f.unstorable || !Lowers(s, f, r)))
  {
  }

  // --- runs of lookups and evictions -------------------------------------------------------------------------

  /** No fetcher's turn lowers the table. */
  ghost predicate SteadyTurns(s: State, fetchers: seq<Fetcher>)
    decreases |fetchers|
  {
    fetchers == [] || s.requests == map[] ||
    (NoOlder(s.rows, FetcherStage(s, fetchers[0]).rows) && SteadyTurns(FetcherStage(s, fetchers[0]), fetchers[1..]))
  }

  ghost predicate HarmlessTurns(s: State, fetchers: seq<Fetcher>)
    decreases |fetchers|
  {
    fetchers == [] || s.requests == map[] ||
    (Harmless(s, fetchers[0]) && HarmlessTurns(FetcherStage(s, fetchers[0]), fetchers[1..]))
  }

  lemma {:induction false} TurnsSteadyExactlyWhen(s: State, fetchers: seq<Fetcher>)
    requires Covered(s)
    ensures SteadyTurns(s, fetchers) <==> HarmlessTurns(s, fetchers)
    ensures HarmlessTurns(s, fetchers) ==> NoOlder(s.rows, FetcherTurns(s, fetchers).rows)
    decreases |fetchers|
  {
    if fetchers != [] && s.requests != map[] {
      TurnLowersExactlyWhen(s, fetchers[0]);
      TurnsSteadyExactlyWhen(FetcherStage(s, fetchers[0]), fetchers[1..]);
    }
  }

  datatype Event = Lookup(call: Call) | Evict(lost: set<Request>)

  function After(cfg: Config, store: Store, e: Event): Store {
    match e
    case Lookup(c) => AfterCall(cfg, store, c)
    case Evict(lost) => store.(cache := store.cache - lost)
  }

  /** Whether an event never lowers the table, at any moment. */
  ghost predicate Steady(cfg: Config, store: Store, e: Event) {
    match e
    case Lookup(c) => CallFails(cfg, store, c) || SteadyTurns(AtFetchers(cfg, store, c), c.fetchers)
    case Evict(_) => NoOlder(store.rows, After(cfg, store, e).rows)
  }

  ghost predicate HarmlessEvent(cfg: Config, store: Store, e: Event) {
    e.Lookup? && !CallFails(cfg, store, e.call) ==> HarmlessTurns(AtFetchers(cfg, store, e.call), e.call.fetchers)
  }

  lemma EventSteadyExactlyWhen(cfg: Config, store: Store, e: Event)
    ensures Steady(cfg, store, e) <==> HarmlessEvent(cfg, store, e)
    ensures HarmlessEvent(cfg, store, e) ==> NoOlder(store.rows, After(cfg, store, e).rows)
  {
    if e.Lookup? && !CallFails(cfg, store, e.call) {
      DatabaseCovers(AtDatabase(cfg, store, e.call), e.call.now);
      TurnsSteadyExactlyWhen(AtFetchers(cfg, store, e.call), e.call.fetchers);
    }
  }

  function AfterRun(cfg: Config, store: Store, run: seq<Event>): Store
    decreases |run|
  {
    if run == [] then store else AfterRun(cfg, After(cfg, store, run[0]), run[1..])
  }

  /** A run takes the store through its events one after the other. */
  lemma {:induction false} RunInParts(cfg: Config, store: Store, first: seq<Event>, second: seq<Event>)
    ensures AfterRun(cfg, store, first + second) == AfterRun(cfg, AfterRun(cfg, store, first), second)
    ensures |first| == 1 ==> AfterRun(cfg, store, first) == After(cfg, store, first[0])
    ensures first == [] ==> AfterRun(cfg, store, first) == store
    decreases |first|
  {
    if first == [] {
      assert first + second == second;
    } else {
      assert (first + second)[1..] == first[1..] + second;
      RunInParts(cfg, After(cfg, store, first[0]), first[1..], second);
    }
  }

  ghost predicate SteadyRun(cfg: Config, store: Store, run: seq<Event>)
    decreases |run|
  {
    run == [] || (Steady(cfg, store, run[0]) && SteadyRun(cfg, After(cfg, store, run[0]), run[1..]))
  }

  ghost predicate HarmlessRun(cfg: Config, store: Store, run: seq<Event>)
    decreases |run|
  {
    run == [] || (HarmlessEvent(cfg, store, run[0]) && HarmlessRun(cfg, After(cfg, store, run[0]), run[1..]))
  }

  /**
  Over any run of lookups, failing databases, failing fetchers and evictions: the table never goes down at any
  moment exactly when every fetcher is harmless in its turn, and then no stored validity is lower at the end.
  */
  lemma {:induction false} RunSteadyExactlyWhen(cfg: Config, store: Store, run: seq<Event>)
    ensures SteadyRun(cfg, store, run) <==> HarmlessRun(cfg, store, run)
    ensures HarmlessRun(cfg, store, run) ==> NoOlder(store.rows, AfterRun(cfg, store, run).rows)
    decreases |run|
  {
    if run != [] {
      EventSteadyExactlyWhen(cfg, store, run[0]);
      RunSteadyExactlyWhen(cfg, After(cfg, store, run[0]), run[1..]);
    }
  }

  /** A fetcher that replies only what it was asked. */
  ghost predicate Modest(f: Fetcher) {
    forall asked: Requests :: f.reply(asked).Keys <= asked.Keys
  }

  lemma {:induction false} ModestTurns(s: State, fetchers: seq<Fetcher>)
    requires forall i :: 0 <= i < |fetchers| ==> Modest(fetchers[i])
    ensures HarmlessTurns(s, fetchers)
    decreases |fetchers|
  {
    if fetchers != [] && s.requests != map[] {
      assert fetchers[0].reply(s.requests).Keys <= s.requests.Keys;
      ModestTurns(FetcherStage(s, fetchers[0]), fetchers[1..]);
    }
  }

  /** Fetchers that reply only what they are asked never lower the table, in any call from any store. */
  lemma ModestCallsAreSteady(cfg: Config, store: Store, c: Call)
    requires forall i :: 0 <= i < |c.fetchers| ==> Modest(c.fetchers[i])
    ensures Steady(cfg, store, Lookup(c)) && NoOlder(store.rows, AfterCall(cfg, store, c).rows)
  {
    ModestTurns(AtFetchers(cfg, store, c), c.fetchers);
    EventSteadyExactlyWhen(cfg, store, Lookup(c));
  }

  /** The reply of a fetcher that asks each server for its keys: all keys that the servers asked about publish. */
  function Published(keys: Keys, asked: Requests): Keys {
    var servers := set q | q in asked :: q.server;
    map r | r in keys && r.server in servers :: keys[r]
  }

  lemma UnknownKeysReachFetchers(cfg: Config, store: Store, c: Call)
    requires cfg.localServers == {} && store.cache == map[] && forall r :: r in c.asked ==> r !in store.rows
    ensures AtFetchers(cfg, store, c) == State(c.asked, map[], map[], store.rows)
  {
    assert AtDatabase(cfg, store, c) == State(c.asked, map[], map[], store.rows);
  }

  lemma OneTurn(s: State, f: Fetcher)
    requires s.requests != map[]
    ensures FetcherTurns(s, [f]) == FetcherStage(s, f)
  {
    assert [f][1..] == [];
  }

  /**
  A call that lowers the table. The row of an old key is valid until 2000; only the new key of the same server
  is asked for; the server publishes both, the old one as expired, with no validity.
  */
  lemma DirectReplyCanLower(server: string) returns (cfg: Config, store: Store, c: Call, expired: Request)
    ensures c.asked != map[] && !CallFails(cfg, store, c)
    ensures expired in store.rows && expired in AfterCall(cfg, store, c).rows
    ensures AfterCall(cfg, store, c).rows[expired].validUntilTS < store.rows[expired].validUntilTS
  {
    expired := Request(server, "ed25519:old");
    var current := Request(server, "ed25519:new");
    var keys := map[current := Key("new", 0, 3000), expired := Key("old", 1500, 0)];
    var fetcher := Fetcher(open => Published(keys, open), false, {});
    cfg := Config({}, "ed25519:ours", "ours", 9000, []);
    store := Store(map[], map[expired := Key("old", 0, 2000)]);
    c := Call(map[current := 1000], 1000, false, [fetcher]);
    UnknownKeysReachFetchers(cfg, store, c);
    var s := State(c.asked, map[], map[], store.rows);
    assert current in s.requests && s.requests != map[];
    OneTurn(s, fetcher);
    ExpiredReplyIsStored(s, fetcher, keys, current, expired);
  }

  lemma ExpiredReplyIsStored(s: State, f: Fetcher, keys: Keys, asked: Request, expired: Request)
    requires !f.fails && f.unstorable == {} && f.reply(s.requests) == Published(keys, s.requests)
    requires asked in s.requests && asked.server == expired.server && expired in keys && s.results == map[]
    ensures expired in FetcherStage(s, f).rows && FetcherStage(s, f).rows[expired] == keys[expired]
  {
  }

  /**
  Also a key that was asked for can go down, within one call and over two fetchers. The first one's reply is too
  old to be stored, but becomes the result; then the second one's, for a key no longer asked for, looks newer.
  */
  lemma AskedKeyCanGoDown(s: State, f: Fetcher, g: Fetcher, r: Request)
    requires Covered(s) && r in s.requests && r in s.rows && !f.fails && !g.fails && r !in g.unstorable
    requires FetcherStage(s, f).requests != map[]
    requires var first, second := f.reply(s.requests), g.reply(FetcherStage(s, f).requests);
             && r in first && r in second
             && first[r].validUntilTS < second[r].validUntilTS < s.rows[r].validUntilTS
    ensures var end := FetcherTurns(s, [f, g]);
            r in end.rows && end.rows[r].validUntilTS < s.rows[r].validUntilTS
  {
    var s' := FetcherStage(s, f);
    assert s.requests != map[];
    assert [f, g][1..] == [g];
    OneTurn(s', g);
    assert Lowers(s', g, r);
  }

  // --- the code ----------------------------------------------------------------------------------------------

  /** The two maps that every stage changes in place. */
  class Lookups {
    var requests: Requests
    var results: Keys

    constructor (requests: Requests)
      ensures this.requests == requests && results == map[]
    {
      this.requests, results := requests, map[];
    }
  }

  class KeyRing {
    const cfg: Config
    var cache: Keys
    var rows: Keys

    constructor (cfg: Config)
      ensures this.cfg == cfg && cache == map[] && rows == map[]
    {
      this.cfg, cache, rows := cfg, map[], map[];
    }

    ghost function Progress(l: Lookups): State
      reads this, l
    {
      State(l.requests, l.results, cache, rows)
    }

    /** The cache may drop entries at any time. */
    method Discard(lost: set<Request>)
      modifies this`cache
      ensures Store(cache, rows) == After(cfg, old(Store(cache, rows)), Evict(lost))
    {
      cache := cache - lost;
    }

    /**
    StoreKeys: all keys reach the cache, all but `unstorable` the table. As the upserts are one database transaction,
    a single failure makes that the whole batch; nothing here depends on it.
    */
    method StoreKeys(keys: Keys, unstorable: set<Request>) returns (ok: bool)
      modifies this`cache, this`rows
      ensures cache == old(cache) + keys && rows == old(rows) + (keys - unstorable)
      ensures ok <==> keys.Keys !! unstorable
    {
      cache := cache + keys;
      rows := rows + (keys - unstorable);
      ok := keys.Keys !! unstorable;
    }

    method HandleLocalKeys(l: Lookups)
      modifies l
      ensures Progress(l) == LocalStage(cfg, old(Progress(l)))
    {
      var todo := l.requests.Keys;
      ghost var asked, before, done: set<Request> := l.requests, l.results, {};
      assert LocalAnswers(cfg, done) == map[];
      while todo != {}
        invariant todo !! done && todo + done == asked.Keys
        invariant l.requests == asked - LocalAnswers(cfg, done).Keys
        invariant l.results == before + LocalAnswers(cfg, done)
        decreases todo
      {
        var req :| req in todo;
        LocalRound(cfg, asked, before, done, req);
        todo, done := todo - {req}, done + {req};
        var ours := FindLocalKey(req);
        if ours.Some? {
          l.requests := l.requests - {req};
          l.results := l.results[req := ours.value];
        }
      }
      assert done == asked.Keys;
    }

    /** The body of that loop: our current key, or the first old key with the ID. */
    method FindLocalKey(req: Request) returns (ours: Option<Key>)
      ensures ours == LocalKey(cfg, req)
    {
      if req.server !in cfg.localServers {
        return None;
      }
      if req.keyID == cfg.keyID {
        return Some(Key(cfg.key, 0, cfg.validUntil));
      }
      ours := FindOldKey(req.keyID);
    }

    /** The loop over our old verify keys. */
    method FindOldKey(keyID: string) returns (found: Option<Key>)
      ensures found == FindOld(cfg.oldKeys, keyID)
    {
      for i := 0 to |cfg.oldKeys|
        invariant FindOld(cfg.oldKeys, keyID) == FindOld(cfg.oldKeys[i..], keyID)
      {
        if cfg.oldKeys[i].keyID == keyID {
          return Some(Key(cfg.oldKeys[i].key, cfg.oldKeys[i].expiredAt, 0));
        }
      }
      return None;
    }

    /** FetchKeys of the caching database: cache hits leave `requests`, invalid entries leave the cache. */
    method FetchStored(l: Lookups, now: Timestamp, dbFails: bool) returns (r: Result<Keys, ()>)
      modifies l`requests, this`cache
      ensures l.requests == Missed(old(Progress(l)), now)
      ensures r.Err? <==> DatabaseFails(old(Progress(l)), now, dbFails)
      ensures r.Err? ==> cache == Pruned(old(Progress(l)), now)
      ensures r.Ok? ==> cache == Pruned(old(Progress(l)), now) + FromTable(rows, l.requests)
      ensures r.Ok? ==> r.value == Hits(old(cache), old(l.requests), now) + FromTable(rows, l.requests)
    {
      var hits := Hits(cache, l.requests, now);
      l.requests := l.requests - hits.Keys;
      cache := cache - l.requests.Keys;
      if l.requests == map[] {
        assert FromTable(rows, l.requests) == map[];
        return Ok(hits);
      }
      if dbFails {
        return Err(());
      }
      var fromDB := FromTable(rows, l.requests);
      cache := cache + fromDB;
      return Ok(hits + fromDB);
    }

    method HandleDatabaseKeys(l: Lookups, now: Timestamp, dbFails: bool) returns (ok: bool)
      modifies l, this`cache
      ensures ok <==> !DatabaseFails(old(Progress(l)), now, dbFails)
      ensures ok ==> Progress(l) == DatabaseStage(old(Progress(l)), now)
      ensures !ok ==> cache == Pruned(old(Progress(l)), now)
    {
      var stored := FetchStored(l, now, dbFails);
      if stored.Err? {
        return false;
      }
      ghost var hits, found := Hits(old(cache), old(l.requests), now), FromTable(rows, l.requests);
      InTwoParts(l.results, hits, found);
      l.results := l.results + stored.value;
      ValidHitsAreGone(l.requests, hits, found, now);
      var valid := set q | q in stored.value && WasValidAt(stored.value[q], now, now);
      l.requests := l.requests - valid;
      return true;
    }

    /**
    handleFetcherKeys. No stored validity of a key that was asked for is lowered; another one is lowered exactly
    by a reply that is stored although the table has a longer validity.
    */
    method HandleFetcherKeys(l: Lookups, f: Fetcher) returns (ok: bool)
      requires Covered(Progress(l))
      modifies l, this`cache, this`rows
      ensures Progress(l) == FetcherStage(old(Progress(l)), f) && Covered(Progress(l))
      ensures NoOlder(old(rows), rows) <==> Harmless(old(Progress(l)), f)
      ensures forall r :: r in old(l.requests) && r in old(rows) ==>
                r in rows && old(rows)[r].validUntilTS <= rows[r].validUntilTS
    {
      TurnLowersExactlyWhen(Progress(l), f);
      if f.fails {
        return false;
      }
      var reply := f.reply(l.requests);
      var storeResults := ToStore(l.results, reply);
      l.results := l.results + reply;
      l.requests := l.requests - reply.Keys;
      ok := StoreKeys(storeResults, f.unstorable);
    }

    /** FetchKeys: the three stages; it fails only with the database. `open` is what the first fetcher is asked. */
    method FetchKeys(l: Lookups, now: Timestamp, dbFails: bool, fetchers: seq<Fetcher>)
      returns (ok: bool, ghost open: Requests)
      requires l.results == map[]
      modifies l, this`cache, this`rows
      ensures var store, c := old(Store(cache, rows)), Call(old(l.requests), now, dbFails, fetchers);
              && (ok <==> !CallFails(cfg, store, c))
              && (ok ==> Progress(l) == AtEnd(cfg, store, c) && open == AtFetchers(cfg, store, c).requests)
              && Store(cache, rows) == AfterCall(cfg, store, c)
              && (HarmlessEvent(cfg, store, Lookup(c)) ==> NoOlder(old(rows), rows))
      ensures ok ==> forall r :: r in open <==>
                && r in old(l.requests) && LocalKey(cfg, r).None?
                && !(r in old(cache) && WasValidAt(old(cache)[r], old(l.requests)[r], now))
                && !(r in old(rows) && WasValidAt(old(rows)[r], now, now))
    {
      EventSteadyExactlyWhen(cfg, Store(cache, rows), Lookup(Call(l.requests, now, dbFails, fetchers)));
      ghost var store, c := Store(cache, rows), Call(l.requests, now, dbFails, fetchers);
      forall r ensures r in AtFetchers(cfg, store, c).requests <==>
          && r in c.asked && LocalKey(cfg, r).None?
          && !(r in store.cache && WasValidAt(store.cache[r], c.asked[r], now))
          && !(r in store.rows && WasValidAt(store.rows[r], now, now)) {
        FetchersAreAskedExactly(cfg, store, c, r);
      }
      HandleLocalKeys(l);
      ok := HandleDatabaseKeys(l, now, dbFails);
      open := l.requests;
      if !ok {
        return;
      }
      DatabaseCovers(old(AtDatabase(cfg, Store(cache, rows), Call(l.requests, now, dbFails, fetchers))), now);
      AskFetchers(l, fetchers);
    }

    /** The loop over the fetchers; it stops when nothing is left to ask for. */
    method AskFetchers(l: Lookups, fetchers: seq<Fetcher>)
      requires Covered(Progress(l))
      modifies l, this`cache, this`rows
      ensures Progress(l) == FetcherTurns(old(Progress(l)), fetchers)
    {
      for i := 0 to |fetchers|
        invariant Covered(Progress(l))
        invariant FetcherTurns(old(Progress(l)), fetchers) == FetcherTurns(Progress(l), fetchers[i..])
      {
        if |l.requests| == 0 {
          assert l.requests == map[];
          return;
        }
        assert fetchers[i..][1..] == fetchers[i + 1..];
        var stored := HandleFetcherKeys(l, fetchers[i]);
      }
    }
  }

  /** One round of the loop over our own keys. */
  lemma LocalRound(cfg: Config, asked: Requests, before: Keys, done: set<Request>, req: Request)
    ensures asked - LocalAnswers(cfg, done + {req}).Keys ==
              if LocalKey(cfg, req).Some? then asked - LocalAnswers(cfg, done).Keys - {req}
              else asked - LocalAnswers(cfg, done).Keys
    ensures before + LocalAnswers(cfg, done + {req}) ==
              if LocalKey(cfg, req).Some? then (before + LocalAnswers(cfg, done))[req := LocalKey(cfg, req).value]
              else before + LocalAnswers(cfg, done)
  {
    LocalAnswersPlus(cfg, done, req);
  }

  lemma LocalAnswersPlus(cfg: Config, asked: set<Request>, r: Request)
    ensures LocalAnswers(cfg, asked + {r}) ==
              if LocalKey(cfg, r).Some? then LocalAnswers(cfg, asked)[r := LocalKey(cfg, r).value]
              else LocalAnswers(cfg, asked)
  {
  }

  /** Cache hits have left the requests already, so only rows of the table can settle a request here. */
  lemma ValidHitsAreGone(open: Requests, hits: Keys, found: Keys, now: Timestamp)
    requires open.Keys !! hits.Keys && found.Keys <= open.Keys
    ensures open - (set q | q in hits + found && WasValidAt((hits + found)[q], now, now)) ==
              open - set r | r in found && WasValidAt(found[r], now, now)
  {
  }

  lemma InTwoParts(results: Keys, hits: Keys, found: Keys)
    ensures results + (hits + found) == results + hits + found
  {
  }
}
