/**
The lock per room: one mutex for the map and, found through the map, one mutex for each room. Goroutines
take single steps in any order.
*/
module RoomMutex {

  type Thread = nat
  type Room = string
  type Mutex = nat

  datatype Op = Locking | Unlocking

  datatype PC =
    | Idle                             // in client code
    | AtMap(op: Op, room: Room)        // at m.mu.Lock()
    | InMap(op: Op, room: Room)        // has the map mutex, has not looked yet
    | Looked(op: Op, room: Room, m: Mutex)   // has the map mutex, at m.mu.Unlock()
    | AtRoom(op: Op, room: Room, m: Mutex)   // at roomMu.Lock() or roomMu.Unlock()
    | Panicked                         // "Unlock before Lock", with the map mutex still locked

  /**
  `mapLocked` and `locked` are the states of the mutexes, which know no owner. `has` is the callers' view:
  the rooms a goroutine has locked and has not begun to unlock. Unlocking an unlocked mutex aborts the program.
  */
  datatype State = State(mapLocked: bool, rooms: map<Room, Mutex>, made: nat, locked: set<Mutex>,
                         threads: map<Thread, PC>, has: map<Thread, set<Room>>, aborted: bool)

  const FRESH := State(false, map[], 0, {}, map[], map[], false)

  function At(s: State, t: Thread): PC {
    if t in s.threads then s.threads[t] else Idle
  }

  function Has(s: State, t: Thread): set<Room> {
    if t in s.has then s.has[t] else {}
  }

  datatype Action = Lock(t: Thread, room: Room) | Unlock(t: Thread, room: Room) | Step(t: Thread)

  /** A blocked mutex is the only thing that stops a goroutine inside Lock or Unlock. */
  predicate Possible(s: State, a: Action) {
    !s.aborted &&
    match a
    case Lock(t, _) => At(s, t).Idle?
    case Unlock(t, _) => At(s, t).Idle?
    case Step(t) =>
      match At(s, t)
      case Idle => false
      case AtMap(_, _) => !s.mapLocked
      case InMap(_, _) => true
      case Looked(_, _, _) => true
      case AtRoom(op, _, m) => op.Locking? ==> m !in s.locked
      case Panicked => false
  }

  function Goto(s: State, t: Thread, pc: PC): State {
    s.(threads := s.threads[t := pc])
  }

  function Apply(s: State, a: Action): State
    requires Possible(s, a)
  {
    match a
    case Lock(t, room) => Goto(s, t, AtMap(Locking, room))
    case Unlock(t, room) => Goto(s, t, AtMap(Unlocking, room)).(has := s.has[t := Has(s, t) - {room}])
    case Step(t) =>
      match At(s, t)
      case AtMap(op, room) => Goto(s, t, InMap(op, room)).(mapLocked := true)
      case InMap(op, room) =>
        if room in s.rooms then Goto(s, t, Looked(op, room, s.rooms[room]))
        else if op.Unlocking? then Goto(s, t, Panicked)
        else Goto(s, t, Looked(op, room, s.made)).(rooms := s.rooms[room := s.made], made := s.made + 1)
      case Looked(op, room, m) => Goto(s, t, AtRoom(op, room, m)).(mapLocked := false)
      case AtRoom(op, room, m) =>
        if op.Locking? then Goto(s, t, Idle).(locked := s.locked + {m}, has := s.has[t := Has(s, t) + {room}])
        else if m in s.locked then Goto(s, t, Idle).(locked := s.locked - {m})
        else s.(aborted := true)
  }

  /** Whoever is in client code may call Lock or Unlock of any room at any time, in any state of the lock. */
  lemma TheWorldIsFree(s: State)
    ensures forall t, room :: Possible(s, Lock(t, room)) <==> At(s, t) == Idle && !s.aborted
    ensures forall t, room :: Possible(s, Unlock(t, room)) <==> At(s, t) == Idle && !s.aborted
  {
  }

  /** Callers unlock only what they have locked. */
  predicate Disciplined(s: State, a: Action) {
    a.Unlock? ==> a.room in Has(s, a.t)
  }

  // --- the map ------------------------------------------------------------------------------------------

  predicate OwnsMap(pc: PC) {
    pc.InMap? || pc.Looked? || pc.Panicked?
  }

  /** A goroutine behind the map lookup carries the mutex that the map has for its room. */
  predicate Carries(s: State, pc: PC) {
    pc.Looked? || pc.AtRoom? ==> pc.room in s.rooms && s.rooms[pc.room] == pc.m
  }

  /** The map mutex is locked by exactly one goroutine, or by none; rooms have mutexes of their own. */
  ghost predicate MapInv(s: State) {
    && (forall t, u :: OwnsMap(At(s, t)) && OwnsMap(At(s, u)) ==> t == u)
    && (s.mapLocked <==> exists t :: OwnsMap(At(s, t)))
    && (forall t :: Carries(s, At(s, t)))
    && (forall r :: r in s.rooms ==> s.rooms[r] < s.made)
    && (forall m :: m in s.locked ==> m < s.made)
    && (forall r, q :: r in s.rooms && q in s.rooms && s.rooms[r] == s.rooms[q] ==> r == q)
  }

  lemma OthersStay(s: State, a: Action, u: Thread)
    requires Possible(s, a) && u != a.t
    ensures At(Apply(s, a), u) == At(s, u) && Has(Apply(s, a), u) == Has(s, u)
  {
  }

  /** A room's mutex never changes once it is there. */
  lemma StepKeepsMutexes(s: State, a: Action, room: Room)
    requires Possible(s, a) && room in s.rooms
    ensures room in Apply(s, a).rooms && Apply(s, a).rooms[room] == s.rooms[room]
  {
  }

  lemma OwnerStaysAlone(s: State, a: Action, t: Thread, u: Thread)
    requires Possible(s, a) && MapInv(s)
    requires OwnsMap(At(Apply(s, a), t)) && OwnsMap(At(Apply(s, a), u))
    ensures t == u
  {
    if t != a.t { OthersStay(s, a, t); }
    if u != a.t { OthersStay(s, a, u); }
  }

  lemma CarriedStays(s: State, a: Action, t: Thread)
    requires Possible(s, a) && MapInv(s)
    ensures Carries(Apply(s, a), At(Apply(s, a), t))
  {
    assert Carries(s, At(s, t));
    if t != a.t { OthersStay(s, a, t); }
  }

  lemma LockedMeansOwned(s: State, a: Action)
    requires Possible(s, a) && MapInv(s)
    ensures Apply(s, a).mapLocked <==> exists t :: OwnsMap(At(Apply(s, a), t))
  {
    var s' := Apply(s, a);
    forall u | u != a.t ensures At(s', u) == At(s, u) {
      OthersStay(s, a, u);
    }
    if s.mapLocked {
      var owner :| OwnsMap(At(s, owner));
      assert s'.mapLocked ==> OwnsMap(At(s', owner));
    } else {
      assert s'.mapLocked ==> OwnsMap(At(s', a.t));
    }
  }

  lemma StepKeepsMapInv(s: State, a: Action)
    requires Possible(s, a) && MapInv(s)
    ensures MapInv(Apply(s, a))
  {
    var s' := Apply(s, a);
    LockedMeansOwned(s, a);
    forall t, u | OwnsMap(At(s', t)) && OwnsMap(At(s', u)) ensures t == u {
      OwnerStaysAlone(s, a, t, u);
    }
    forall t ensures Carries(s', At(s', t)) {
      CarriedStays(s, a, t);
    }
  }

  // --- the rooms ------------------------------------------------------------------------------------------

  predicate IsUnlocking(pc: PC, room: Room) {
    (pc.AtMap? || pc.InMap? || pc.Looked? || pc.AtRoom?) && pc.op.Unlocking? && pc.room == room
  }

  /** A goroutine is between the end of Lock and the end of Unlock. */
  predicate Claims(s: State, t: Thread, room: Room) {
    room in Has(s, t) || IsUnlocking(At(s, t), room)
  }

  ghost predicate ClaimedBySomeone(s: State, m: Mutex) {
    exists t, room :: Claims(s, t, room) && room in s.rooms && s.rooms[room] == m
  }

  /** The locked mutexes are exactly those of claimed rooms, and a claim is nobody else's. */
  ghost predicate RoomInv(s: State) {
    && (forall t, room :: Claims(s, t, room) ==> room in s.rooms && s.rooms[room] in s.locked)
    && (forall t, u, room :: Claims(s, t, room) && Claims(s, u, room) ==> t == u)
    && (forall t, room :: IsUnlocking(At(s, t), room) ==> room !in Has(s, t))
    && (forall m :: m in s.locked ==> ClaimedBySomeone(s, m))
    && (forall t :: !At(s, t).Panicked?)
    && !s.aborted
  }

  ghost predicate Inv(s: State) {
    MapInv(s) && RoomInv(s)
  }

  /** The step that locks or unlocks the room's mutex itself. */
  predicate Finishes(s: State, a: Action, op: Op) {
    a.Step? && At(s, a.t).AtRoom? && At(s, a.t).op == op
  }

  /** Claims change only there. */
  lemma ClaimsAfter(s: State, a: Action, u: Thread, room: Room)
    requires Possible(s, a) && Disciplined(s, a) && Inv(s)
    ensures Claims(Apply(s, a), u, room) <==>
              if u == a.t && Finishes(s, a, Locking) && At(s, u).room == room then true
              else if u == a.t && Finishes(s, a, Unlocking) && At(s, u).room == room then false
              else Claims(s, u, room)
  {
    if u != a.t {
      OthersStay(s, a, u);
    } else if a.Step? && At(s, u).InMap? && At(s, u).op.Unlocking? {
      assert Claims(s, u, At(s, u).room);
    } else if Finishes(s, a, Unlocking) {
      assert Carries(s, At(s, u)) && Claims(s, u, At(s, u).room);
    }
  }

  /** A finished Lock found the mutex free, a finished Unlock found it locked. */
  lemma FinishFindsIt(s: State, a: Action, op: Op)
    requires Possible(s, a) && Inv(s) && Finishes(s, a, op)
    ensures var room := At(s, a.t).room;
            && room in s.rooms && At(s, a.t).m == s.rooms[room]
            && (op.Locking? ==> forall u :: !Claims(s, u, room))
            && (op.Unlocking? ==> Claims(s, a.t, room) && s.rooms[room] in s.locked)
  {
    assert Carries(s, At(s, a.t));
    if op.Unlocking? {
      assert Claims(s, a.t, At(s, a.t).room);
    }
  }

  lemma ClaimsStayLocked(s: State, a: Action, u: Thread, room: Room)
    requires Possible(s, a) && Disciplined(s, a) && Inv(s) && Claims(Apply(s, a), u, room)
    ensures room in Apply(s, a).rooms && Apply(s, a).rooms[room] in Apply(s, a).locked
  {
    ClaimsAfter(s, a, u, room);
    if Finishes(s, a, Locking) {
      FinishFindsIt(s, a, Locking);
    } else if Finishes(s, a, Unlocking) {
      FinishFindsIt(s, a, Unlocking);
    } else {
      StepKeepsMutexes(s, a, room);
    }
  }

  lemma ClaimsStayExclusive(s: State, a: Action, t: Thread, u: Thread, room: Room)
    requires Possible(s, a) && Disciplined(s, a) && Inv(s)
    requires Claims(Apply(s, a), t, room) && Claims(Apply(s, a), u, room)
    ensures t == u
  {
    ClaimsAfter(s, a, t, room);
    ClaimsAfter(s, a, u, room);
    if Finishes(s, a, Locking) {
      FinishFindsIt(s, a, Locking);
    }
  }

  lemma LockedStaysClaimed(s: State, a: Action, m: Mutex)
    requires Possible(s, a) && Disciplined(s, a) && Inv(s) && m in Apply(s, a).locked
    ensures ClaimedBySomeone(Apply(s, a), m)
  {
    if Finishes(s, a, Locking) && m == At(s, a.t).m {
      FinishFindsIt(s, a, Locking);
      ClaimsAfter(s, a, a.t, At(s, a.t).room);
    } else {
      var t, room :| Claims(s, t, room) && room in s.rooms && s.rooms[room] == m;
      ClaimsAfter(s, a, t, room);
      StepKeepsMutexes(s, a, room);
      if Finishes(s, a, Unlocking) {
        FinishFindsIt(s, a, Unlocking);
      }
    }
  }

  lemma NobodyPanics(s: State, a: Action, u: Thread)
    requires Possible(s, a) && Disciplined(s, a) && Inv(s)
    ensures !At(Apply(s, a), u).Panicked?
  {
    if u != a.t {
      OthersStay(s, a, u);
    } else if a.Step? && At(s, u).InMap? && At(s, u).op.Unlocking? {
      assert Claims(s, u, At(s, u).room);
    }
  }

  lemma UnlockingGivesUp(s: State, a: Action, u: Thread, room: Room)
    requires Possible(s, a) && Inv(s) && IsUnlocking(At(Apply(s, a), u), room)
    ensures room !in Has(Apply(s, a), u)
  {
    if u != a.t {
      OthersStay(s, a, u);
    } else if a.Step? {
      assert IsUnlocking(At(s, u), room);
    }
  }

  lemma StepKeepsRoomInv(s: State, a: Action)
    requires Possible(s, a) && Disciplined(s, a) && Inv(s)
    ensures RoomInv(Apply(s, a))
  {
    var s' := Apply(s, a);
    if Finishes(s, a, Unlocking) {
      FinishFindsIt(s, a, Unlocking);
    }
    forall t, room | Claims(s', t, room) ensures room in s'.rooms && s'.rooms[room] in s'.locked {
      ClaimsStayLocked(s, a, t, room);
    }
    forall t, u, room | Claims(s', t, room) && Claims(s', u, room) ensures t == u {
      ClaimsStayExclusive(s, a, t, u, room);
    }
    forall m | m in s'.locked ensures ClaimedBySomeone(s', m) {
      LockedStaysClaimed(s, a, m);
    }
    forall t ensures !At(s', t).Panicked? {
      NobodyPanics(s, a, t);
    }
    forall t, room | IsUnlocking(At(s', t), room) ensures room !in Has(s', t) {
      UnlockingGivesUp(s, a, t, room);
    }
  }

  // --- runs ---------------------------------------------------------------------------------------------

  predicate IsRun(s: State, run: seq<Action>)
    decreases |run|, 0
  {
    run == [] || (IsRun(s, run[..|run| - 1]) && Possible(After(s, run[..|run| - 1]), run[|run| - 1]))
  }

  function After(s: State, run: seq<Action>): State
    requires IsRun(s, run)
    decreases |run|, 1
  {
    if run == [] then s else Apply(After(s, run[..|run| - 1]), run[|run| - 1])
  }

  predicate AllDisciplined(s: State, run: seq<Action>)
    requires IsRun(s, run)
    decreases |run|
  {
    run == [] || (AllDisciplined(s, run[..|run| - 1]) && Disciplined(After(s, run[..|run| - 1]), run[|run| - 1]))
  }

  /** Whatever callers do, the map mutex has one owner, and rooms have mutexes of their own. */
  lemma {:induction false} EveryRunKeepsMapInv(s: State, run: seq<Action>)
    requires MapInv(s) && IsRun(s, run)
    ensures MapInv(After(s, run))
    decreases |run|
  {
    if run != [] {
      EveryRunKeepsMapInv(s, run[..|run| - 1]);
      StepKeepsMapInv(After(s, run[..|run| - 1]), run[|run| - 1]);
    }
  }

  lemma {:induction false} EveryRunKeepsInv(s: State, run: seq<Action>)
    requires Inv(s) && IsRun(s, run) && AllDisciplined(s, run)
    ensures Inv(After(s, run))
    decreases |run|
  {
    if run != [] {
      var before, a := run[..|run| - 1], run[|run| - 1];
      EveryRunKeepsInv(s, before);
      StepKeepsMapInv(After(s, before), a);
      StepKeepsRoomInv(After(s, before), a);
    }
  }

  /** Callers that unlock only what they have locked never make the lock panic or abort. */
  lemma DisciplinedRunsNeverFail(run: seq<Action>, t: Thread)
    requires IsRun(FRESH, run) && AllDisciplined(FRESH, run)
    ensures !At(After(FRESH, run), t).Panicked? && !After(FRESH, run).aborted
  {
    EveryRunKeepsInv(FRESH, run);
  }

  /** Whatever the interleaving, no two goroutines have the same room. */
  lemma AtMostOneHolder(run: seq<Action>, t: Thread, u: Thread, room: Room)
    requires IsRun(FRESH, run) && AllDisciplined(FRESH, run)
    requires room in Has(After(FRESH, run), t) && room in Has(After(FRESH, run), u)
    ensures t == u
  {
    EveryRunKeepsInv(FRESH, run);
    assert Claims(After(FRESH, run), t, room) && Claims(After(FRESH, run), u, room);
  }

  /** Even with careless callers, a room keeps the mutex it once got. */
  lemma {:induction false} MutexNeverChanges(s: State, run: seq<Action>, room: Room)
    requires IsRun(s, run) && room in s.rooms
    ensures room in After(s, run).rooms && After(s, run).rooms[room] == s.rooms[room]
    decreases |run|
  {
    if run != [] {
      MutexNeverChanges(s, run[..|run| - 1], room);
      StepKeepsMutexes(After(s, run[..|run| - 1]), run[|run| - 1], room);
    }
  }

  ghost predicate WaitsForClaimed(s: State, t: Thread) {
    At(s, t).AtRoom? && At(s, t).op.Locking? && exists u :: Claims(s, u, At(s, t).room)
  }

  /**
  A goroutine inside Lock or Unlock is held up exactly while another one is at the map, or while the very
  room that it wants is claimed; Unlock never waits for a room.
  */
  lemma HeldUpExactlyWhen(run: seq<Action>, t: Thread)
    requires IsRun(FRESH, run) && AllDisciplined(FRESH, run)
    requires !At(After(FRESH, run), t).Idle?
    ensures var s := After(FRESH, run);
            !Possible(s, Step(t)) <==> (At(s, t).AtMap? && s.mapLocked) || WaitsForClaimed(s, t)
  {
    EveryRunKeepsInv(FRESH, run);
    var s := After(FRESH, run);
    assert Carries(s, At(s, t));
    if At(s, t).AtRoom? {
      var room, m := At(s, t).room, At(s, t).m;
      if At(s, t).op.Unlocking? {
        assert Claims(s, t, room);
      } else if m in s.locked {
        assert ClaimedBySomeone(s, m);
      }
    }
  }

  /** Whoever has the map can go on, so it is given back. */
  lemma MapOwnerGoesOn(run: seq<Action>)
    requires IsRun(FRESH, run) && AllDisciplined(FRESH, run) && After(FRESH, run).mapLocked
    ensures exists t :: OwnsMap(At(After(FRESH, run), t)) && Possible(After(FRESH, run), Step(t))
  {
    EveryRunKeepsInv(FRESH, run);
    var s := After(FRESH, run);
    var t :| OwnsMap(At(s, t));
    assert !At(s, t).Panicked?;
  }

  /**
  The lock itself never deadlocks: if nobody inside Lock or Unlock can go on, then each of them waits for a room
  that a caller has locked and not begun to unlock.
  */
  lemma OnlyCallersCanDeadlock(run: seq<Action>, t: Thread)
    requires IsRun(FRESH, run) && AllDisciplined(FRESH, run)
    requires forall u :: !Possible(After(FRESH, run), Step(u))
    requires !At(After(FRESH, run), t).Idle?
    ensures var s := After(FRESH, run);
            At(s, t).AtRoom? && At(s, t).op.Locking? && exists u :: At(s, t).room in Has(s, u)
  {
    var s := After(FRESH, run);
    if s.mapLocked {
      MapOwnerGoesOn(run);
    }
    HeldUpExactlyWhen(run, t);
    var u :| Claims(s, u, At(s, t).room);
    if !At(s, u).Idle? {
      HeldUpExactlyWhen(run, u);
    }
  }

  // --- careless callers: what Unlock does without its Lock ---------------------------------------------------

  function One(yes: bool): nat {
    if yes then 1 else 0
  }

  /** The step in which an operation looks its room up. */
  predicate LooksUp(s: State, a: Action, op: Op, room: Room) {
    a.Step? && At(s, a.t) == InMap(op, room)
  }

  /** The step that ends an operation on the room. */
  predicate Ends(s: State, a: Action, op: Op, room: Room) {
    Finishes(s, a, op) && At(s, a.t).room == room
  }

  /** How many calls of Lock for the room have looked it up. */
  function LockLookups(run: seq<Action>, room: Room): nat
    requires IsRun(FRESH, run)
    decreases |run|
  {
    if run == [] then 0
    else
      var before := run[..|run| - 1];
      LockLookups(before, room) + One(LooksUp(After(FRESH, before), run[|run| - 1], Locking, room))
  }

  /** How many calls of Lock, or of Unlock, for the room have ended. */
  function Ended(run: seq<Action>, op: Op, room: Room): nat
    requires IsRun(FRESH, run)
    decreases |run|
  {
    if run == [] then 0
    else
      var before := run[..|run| - 1];
      Ended(before, op, room) + One(Ends(After(FRESH, before), run[|run| - 1], op, room))
  }

  lemma StepMakesKnown(s: State, a: Action, room: Room)
    requires Possible(s, a)
    ensures room in Apply(s, a).rooms <==> room in s.rooms || LooksUp(s, a, Locking, room)
  {
  }

  lemma {:induction false} KnownRooms(run: seq<Action>, room: Room)
    requires IsRun(FRESH, run)
    ensures room in After(FRESH, run).rooms <==> LockLookups(run, room) > 0
    decreases |run|
  {
    if run != [] {
      var before := run[..|run| - 1];
      KnownRooms(before, room);
      StepMakesKnown(After(FRESH, before), run[|run| - 1], room);
    }
  }

  predicate RoomLocked(s: State, room: Room) {
    room in s.rooms && s.rooms[room] in s.locked
  }

  /** Only the ends of Lock and Unlock of a room change whether it is locked. */
  lemma StepChangesLocked(s: State, a: Action, room: Room)
    requires MapInv(s) && Possible(s, a) && !Apply(s, a).aborted
    ensures One(RoomLocked(Apply(s, a), room)) ==
              One(RoomLocked(s, room)) + One(Ends(s, a, Locking, room)) - One(Ends(s, a, Unlocking, room))
  {
    assert Carries(s, At(s, a.t));
    if room in s.rooms {
      StepKeepsMutexes(s, a, room);
    }
  }

  /** As long as the program has not aborted, a room is locked by the Locks that ended and freed by the Unlocks. */
  lemma {:induction false} LockedIsCounted(run: seq<Action>, room: Room)
    requires IsRun(FRESH, run) && !After(FRESH, run).aborted
    ensures One(RoomLocked(After(FRESH, run), room)) == Ended(run, Locking, room) - Ended(run, Unlocking, room)
    decreases |run|
  {
    if run != [] {
      var before := run[..|run| - 1];
      LockedIsCounted(before, room);
      EveryRunKeepsMapInv(FRESH, before);
      StepChangesLocked(After(FRESH, before), run[|run| - 1], room);
    }
  }

  /** The last step of the run looks up a room for an Unlock that no Lock has looked up before. */
  predicate UnlocksUnknown(run: seq<Action>)
    requires run != [] && IsRun(FRESH, run)
  {
    var before, a := run[..|run| - 1], run[|run| - 1];
    var pc := At(After(FRESH, before), a.t);
    a.Step? && pc.InMap? && pc.op.Unlocking? && LockLookups(before, pc.room) == 0
  }

  /** The last step of the run ends an Unlock although all Locks of the room have been undone. */
  predicate UnlocksTwice(run: seq<Action>)
    requires run != [] && IsRun(FRESH, run)
  {
    var before, a := run[..|run| - 1], run[|run| - 1];
    var pc := At(After(FRESH, before), a.t);
    a.Step? && pc.AtRoom? && pc.op.Unlocking? && Ended(before, Locking, pc.room) == Ended(before, Unlocking, pc.room)
  }

  lemma StepPanics(s: State, a: Action)
    requires Possible(s, a)
    ensures At(Apply(s, a), a.t).Panicked? <==>
              a.Step? && At(s, a.t).InMap? && At(s, a.t).op.Unlocking? && At(s, a.t).room !in s.rooms
  {
  }

  lemma StepAborts(s: State, a: Action)
    requires Possible(s, a) && MapInv(s)
    ensures Apply(s, a).aborted <==>
              a.Step? && At(s, a.t).AtRoom? && At(s, a.t).op.Unlocking? && !RoomLocked(s, At(s, a.t).room)
  {
    assert Carries(s, At(s, a.t));
  }

  /** The first failure, in terms of the calls so far: a panic for an unknown room, an abort for a room not locked. */
  lemma StepFailsExactlyWhen(run: seq<Action>)
    requires run != [] && IsRun(FRESH, run)
    ensures At(After(FRESH, run), run[|run| - 1].t).Panicked? <==> UnlocksUnknown(run)
    ensures After(FRESH, run).aborted <==> UnlocksTwice(run)
  {
    var before, a := run[..|run| - 1], run[|run| - 1];
    var s := After(FRESH, before);
    var pc := At(s, a.t);
    EveryRunKeepsMapInv(FRESH, before);
    StepPanics(s, a);
    StepAborts(s, a);
    if pc.InMap? {
      KnownRooms(before, pc.room);
    } else if pc.AtRoom? {
      LockedIsCounted(before, pc.room);
    }
  }

  ghost predicate Failed(s: State) {
    s.aborted || exists t :: At(s, t).Panicked?
  }

  lemma PrefixIsRun(run: seq<Action>, n: nat)
    requires IsRun(FRESH, run) && n <= |run|
    ensures IsRun(FRESH, run[..n])
    decreases |run|
  {
    if n < |run| {
      assert run[..|run| - 1][..n] == run[..n];
      PrefixIsRun(run[..|run| - 1], n);
    } else {
      assert run[..n] == run;
    }
  }

  ghost predicate FailsAt(run: seq<Action>, n: int)
    requires IsRun(FRESH, run)
  {
    0 < n <= |run| && IsRun(FRESH, run[..n]) && (UnlocksUnknown(run[..n]) || UnlocksTwice(run[..n]))
  }

  /**
  For all callers and interleavings: somebody has panicked or the program has aborted exactly when at some point
  an Unlock looked up a room that no Lock had looked up, or ended with as many Unlocks as Locks ended before it.
  */
  lemma {:induction false} FailsExactlyWhen(run: seq<Action>)
    requires IsRun(FRESH, run)
    ensures Failed(After(FRESH, run)) <==> exists n :: FailsAt(run, n)
    decreases |run|
  {
    if run != [] {
      var before, a := run[..|run| - 1], run[|run| - 1];
      FailsExactlyWhen(before);
      StepFailsExactlyWhen(run);
      assert run[..|run|] == run;
      forall n | 0 <= n <= |before| ensures run[..n] == before[..n] { }
      assert FailsAt(run, |run|) <==> UnlocksUnknown(run) || UnlocksTwice(run);
      forall n | 0 < n <= |before| ensures FailsAt(run, n) <==> FailsAt(before, n) { }
      PanicsStay(After(FRESH, before), a);
    }
  }

  /** A goroutine that panicked stays so, and only the one that steps can join it. */
  lemma PanicsStay(s: State, a: Action)
    requires Possible(s, a)
    ensures forall t :: At(s, t).Panicked? ==> At(Apply(s, a), t).Panicked?
    ensures forall t :: At(Apply(s, a), t).Panicked? ==> t == a.t || At(s, t).Panicked?
  {
    forall t | t != a.t ensures At(Apply(s, a), t) == At(s, t) {
      OthersStay(s, a, t);
    }
  }

  predicate Outside(pc: PC) {
    pc.Idle? || pc.AtMap?
  }

  /**
  After a panic the map stays locked: whatever happened before, and whatever happens next, nobody who was not past
  the map then ever locks a room again.
  */
  lemma {:induction false} PanicJamsEveryRoom(run: seq<Action>, later: seq<Action>, dead: Thread, u: Thread)
    requires IsRun(FRESH, run) && At(After(FRESH, run), dead).Panicked? && Outside(At(After(FRESH, run), u))
    requires IsRun(After(FRESH, run), later)
    ensures var s, end := After(FRESH, run), After(After(FRESH, run), later);
            && end.mapLocked && At(end, dead).Panicked?
            && Outside(At(end, u)) && Has(end, u) <= Has(s, u)
            && (At(s, u).AtMap? ==> At(end, u).AtMap?)
    decreases |later|
  {
    var s := After(FRESH, run);
    EveryRunKeepsMapInv(FRESH, run);
    EveryRunKeepsMapInv(s, later);
    if later == [] {
      assert OwnsMap(At(s, dead));
    } else {
      var before, a := later[..|later| - 1], later[|later| - 1];
      PanicJamsEveryRoom(run, before, dead, u);
      PanicsStay(After(s, before), a);
      assert OwnsMap(At(After(s, later), dead));
      if a.t != u {
        OthersStay(After(s, before), a, u);
      }
    }
  }

  // --- both failures happen -------------------------------------------------------------------------------------

  ghost predicate Reachable(s: State) {
    exists run :: IsRun(FRESH, run) && After(FRESH, run) == s
  }

  lemma Reaches(s: State, a: Action)
    requires Reachable(s) && Possible(s, a)
    ensures Reachable(Apply(s, a))
  {
    var run :| IsRun(FRESH, run) && After(FRESH, run) == s;
    assert (run + [a])[..|run|] == run;
    assert IsRun(FRESH, run + [a]) && After(FRESH, run + [a]) == Apply(s, a);
  }

  lemma Start()
    ensures Reachable(FRESH)
  {
    assert IsRun(FRESH, []) && After(FRESH, []) == FRESH;
  }

  /** Unlocking any room first of all panics. */
  lemma UnlockFirstPanics(t: Thread, room: Room) returns (s: State)
    ensures Reachable(s) && At(s, t).Panicked? && s.mapLocked
  {
    Start();
    Reaches(FRESH, Unlock(t, room));
    s := Apply(FRESH, Unlock(t, room));
    Reaches(s, Step(t));
    s := Apply(s, Step(t));
    Reaches(s, Step(t));
    s := Apply(s, Step(t));
  }

  /** A call that meets nobody: from its start to just before its last step. */
  lemma Alone(s: State, t: Thread, op: Op, room: Room) returns (s': State)
    requires Reachable(s) && MapInv(s) && At(s, t).Idle? && !s.mapLocked && !s.aborted
    requires op.Unlocking? ==> room in s.rooms
    ensures Reachable(s') && MapInv(s') && !s'.mapLocked && !s'.aborted && s'.locked == s.locked
    ensures room in s'.rooms && At(s', t) == AtRoom(op, room, s'.rooms[room])
    ensures if room in s.rooms then s'.rooms == s.rooms else s'.rooms[room] == s.made
  {
    var a := if op.Locking? then Lock(t, room) else Unlock(t, room);
    Reaches(s, a);
    StepKeepsMapInv(s, a);
    s' := Apply(s, a);
    Reaches(s', Step(t));
    StepKeepsMapInv(s', Step(t));
    s' := Apply(s', Step(t));
    Reaches(s', Step(t));
    StepKeepsMapInv(s', Step(t));
    s' := Apply(s', Step(t));
    Reaches(s', Step(t));
    StepKeepsMapInv(s', Step(t));
    s' := Apply(s', Step(t));
  }

  lemma EndsAlone(s: State, t: Thread)
    requires Reachable(s) && MapInv(s) && Possible(s, Step(t)) && At(s, t).AtRoom?
    ensures Reachable(Apply(s, Step(t))) && MapInv(Apply(s, Step(t)))
  {
    Reaches(s, Step(t));
    StepKeepsMapInv(s, Step(t));
  }

  /** Unlocking a room twice aborts the program. */
  lemma UnlockTwiceAborts(t: Thread, room: Room) returns (s: State)
    ensures Reachable(s) && s.aborted
  {
    Start();
    var locking := Alone(FRESH, t, Locking, room);
    EndsAlone(locking, t);
    var unlocking := Alone(Apply(locking, Step(t)), t, Unlocking, room);
    EndsAlone(unlocking, t);
    var again := Alone(Apply(unlocking, Step(t)), t, Unlocking, room);
    EndsAlone(again, t);
    s := Apply(again, Step(t));
  }
}
