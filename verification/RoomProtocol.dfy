/**
  JoinRoom, LeaveRoom, the leave-all sweep and deleteRoomIfEmpty running concurrently, one step for
  each access to shared state, together with the presence publisher that gathers room sizes while
  they run. Every call ever made has an entry in `calls`; every room object ever allocated has an
  entry in `objs`, including objects already unlinked from `rooms`.
 */
module RoomProtocol {
  import opened Options

  type Client = nat
  type CallId = nat
  type RoomId = nat

  /** A limit of zero or less means unlimited. */
  datatype Limits = Limits(maxClientsPerRoom: int, maxRoomsPerClient: int)

  /** A room object; `mu` names the call inside the write-locked section, if any. */
  datatype Room = Room(name: string, members: set<Client>, snapshot: seq<Client>, mu: Option<CallId>)

  /** Whether a room is being left by LeaveRoom or by the sweep over all rooms of a client. */
  datatype Sweep = Single | All(rest: seq<string>, left: seq<string>)

  /** Where a call is; the comment says what it holds or still owes there. */
  datatype Pc =
    | JoinStart
    | JoinKnown        // h.clients checked, hook still to run
    | JoinHasRooms     // roomsMu held
    | JoinGot          // roomsMu held, room created, metric outstanding
    | JoinCounted      // roomsMu held
    | JoinFound        // between roomsMu and room.mu
    | JoinAllowed      // room.mu held, room checks passed
    | JoinRefused      // room.mu held, a check failed
    | JoinListed       // room.mu held, client.rooms updated
    | JoinInserted     // room.mu held, snapshot out of date
    | JoinSnapped      // room.mu held, snapshot rebuilt
    | JoinUnlocked     // version bump outstanding
    | LeaveStart
    | LeaveFound
    | LeaveSeen        // membership seen, hook running
    | LeaveRechecking  // room.mu held, still a member
    | LeaveGone        // room.mu held, no longer a member
    | LeaveRemoved     // room.mu held, snapshot out of date
    | LeaveSnapped     // room.mu held, snapshot rebuilt
    | LeaveUnlisted    // room.mu held, client.rooms updated
    | LeaveCounted     // room.mu held, emptiness noted
    | DelStart
    | DelHasRooms      // roomsMu held
    | DelHasBoth       // roomsMu and room.mu held
    | DelUnlinked      // both held, metric outstanding
    | DelDecided       // both held
    | DelReleasing     // roomsMu held
    | AllStart
    | AllNext
    | AllUnlisted      // version bump outstanding
    | Finished

  /**
    One call of JoinRoom, LeaveRoom or leave-all with its local variables: the room object it looked
    up, whether it created it, the rest of a sweep, and whether it left the room empty.
   */
  datatype Call = Call(pc: Pc, c: Client, name: string, r: RoomId, created: bool, sweep: Sweep, empty: bool)

  /** The access to shared state that one step makes. */
  datatype Op =
    | Read                                    // no shared state changes
    | LockRooms
    | UnlockRooms
    | Create(name: string)                    // a new room object, linked into h.rooms
    | Unlink(name: string)
    | CountRoom(up: bool)                     // IncrementRooms or DecrementRooms
    | LockRoom(r: RoomId)
    | UnlockRoom(r: RoomId)
    | SetMembers(r: RoomId, members: set<Client>)
    | StoreSnapshot(r: RoomId, snapshot: seq<Client>)
    | SetListed(c: Client, names: set<string>)
    | Bump(n: nat)

  /** The publisher goroutine; while gathering it holds roomsMu for reading. */
  datatype Publisher =
    | Resting
    | CountLoaded(count: int)
    | VersionLoaded          // something changed, roomsMu still to be read-locked
    | Gathering(todo: set<string>, sizes: map<string, nat>)

  /** presenceState, plus `base`: how many snapshot changes had happened when the version was read. */
  datatype Cache = Cache(count: int, version: int, sizes: map<string, nat>, base: nat)

  datatype State = State(
    limits: Limits,
    registered: set<Client>,
    clientCount: int,
    rooms: map<string, RoomId>,
    roomsMu: Option<CallId>,
    objs: seq<Room>,
    listed: map<Client, set<string>>,   // client.rooms
    version: nat,                       // roomVersion
    incremented: nat,                   // IncrementRooms calls
    decremented: nat,                   // DecrementRooms calls
    calls: seq<Call>,
    publisher: Publisher,
    cache: Cache,
    gathered: bool,                     // the cache holds a completed gather
    changes: nat)                       // history: snapshots stored so far

  ghost predicate Init(s: State) {
    && s.rooms == map[] && s.roomsMu == None && s.objs == [] && s.listed == map[]
    && s.version == 0 && s.incremented == 0 && s.decremented == 0 && s.calls == []
    && s.publisher == Resting && s.cache == Cache(0, -1, map[], 0) && !s.gathered && s.changes == 0
  }

  ghost predicate Enumerates<T(!new)>(xs: seq<T>, members: set<T>) {
    && (forall x :: x in xs <==> x in members)
    && (forall i, j :: 0 <= i < j < |xs| ==> xs[i] != xs[j])
  }

  ghost function RoomsOf(s: State, c: Client): set<string> {
    if c in s.listed then s.listed[c] else {}
  }

  /** Where a call goes after it has finished with one room. */
  ghost function Resume(sweep: Sweep): Pc {
    if sweep.Single? then Finished else AllNext
  }

  /** The sweep with `name` appended to the rooms actually left. */
  ghost function NoteLeft(sweep: Sweep, name: string): Sweep {
    match sweep
    case Single => Single
    case All(rest, left) => All(rest, left + [name])
  }

  ghost predicate RoomFull(limits: Limits, members: set<Client>) {
    limits.maxClientsPerRoom > 0 && |members| >= limits.maxClientsPerRoom
  }

  ghost predicate AtRoomLimit(s: State, c: Client) {
    s.limits.maxRoomsPerClient > 0 && |RoomsOf(s, c)| >= s.limits.maxRoomsPerClient
  }

  ghost function Members(s: State, r: RoomId): set<Client> {
    if r < |s.objs| then s.objs[r].members else {}
  }

  /** Whether room r can be read-locked or locked now. */
  ghost predicate RoomFree(s: State, r: RoomId) {
    r < |s.objs| && s.objs[r].mu.None?
  }

  // ---------------------------------------------------------------- the code of each call

  ghost predicate JoinMoves(s: State, k: Call, op: Op, k': Call) {
    match k.pc
    case JoinStart =>
      op == Read && k' == k.(pc := if k.name == "" || k.c !in s.registered then Finished else JoinKnown)
    case JoinKnown =>
      || (op == Read && k' == k.(pc := Finished))  // vetoed by BeforeRoomJoin
      || (op == LockRooms && k' == k.(pc := JoinHasRooms))
    case JoinHasRooms =>
      if k.name in s.rooms then op == Read && k' == k.(pc := JoinCounted, r := s.rooms[k.name], created := false)
      else op == Create(k.name) && k' == k.(pc := JoinGot, r := |s.objs|, created := true)
    case JoinGot =>
      op == CountRoom(true) && k' == k.(pc := JoinCounted)
    case JoinCounted =>
      op == UnlockRooms && k' == k.(pc := JoinFound)
    case JoinFound =>
      op == LockRoom(k.r) &&
      k' == k.(pc := if RoomFull(s.limits, Members(s, k.r)) || k.c in Members(s, k.r) then JoinRefused else JoinAllowed)
    case JoinAllowed =>
      if AtRoomLimit(s, k.c) then op == Read && k' == k.(pc := JoinRefused)
      else op == SetListed(k.c, RoomsOf(s, k.c) + {k.name}) && k' == k.(pc := JoinListed)
    case JoinRefused =>
      op == UnlockRoom(k.r) && k' == k.(pc := if k.created && Members(s, k.r) == {} then DelStart else Finished)
    case JoinListed =>
      op == SetMembers(k.r, Members(s, k.r) + {k.c}) && k' == k.(pc := JoinInserted)
    case JoinInserted =>
      op.StoreSnapshot? && op.r == k.r && Enumerates(op.snapshot, Members(s, k.r)) && k' == k.(pc := JoinSnapped)
    case JoinSnapped =>
      op == UnlockRoom(k.r) && k' == k.(pc := JoinUnlocked)
    case JoinUnlocked =>
      op == Bump(1) && k' == k.(pc := Finished)
    case _ => false
  }

  ghost predicate LeaveMoves(s: State, k: Call, op: Op, k': Call) {
    match k.pc
    case LeaveStart =>
      op == Read &&
      if k.sweep.Single? && k.name == "" then k' == k.(pc := Finished)
      else s.roomsMu.None? &&
           k' == if k.name in s.rooms then k.(pc := LeaveFound, r := s.rooms[k.name]) else k.(pc := Resume(k.sweep))
    case LeaveFound =>
      op == Read && RoomFree(s, k.r) &&
      k' == k.(pc := if k.c in Members(s, k.r) then LeaveSeen else Resume(k.sweep))
    case LeaveSeen =>
      op == LockRoom(k.r) &&
      k' == k.(pc := if k.c in Members(s, k.r) then LeaveRechecking else LeaveGone)
    case LeaveGone =>
      op == UnlockRoom(k.r) && k' == k.(pc := Resume(k.sweep))
    case LeaveRechecking =>
      op == SetMembers(k.r, Members(s, k.r) - {k.c}) && k' == k.(pc := LeaveRemoved)
    case LeaveRemoved =>
      op.StoreSnapshot? && op.r == k.r && Enumerates(op.snapshot, Members(s, k.r)) && k' == k.(pc := LeaveSnapped)
    case LeaveSnapped =>
      if k.sweep.Single? then op == SetListed(k.c, RoomsOf(s, k.c) - {k.name}) && k' == k.(pc := LeaveUnlisted)
      else op == Read && k' == k.(pc := LeaveCounted, empty := Members(s, k.r) == {})
    case LeaveUnlisted =>
      k.sweep.Single? && op == Bump(1) && k' == k.(pc := LeaveCounted, empty := Members(s, k.r) == {})
    case LeaveCounted =>
      op == UnlockRoom(k.r) &&
      k' == k.(pc := if k.empty then DelStart else Resume(k.sweep), sweep := NoteLeft(k.sweep, k.name))
    case AllStart =>
      k.sweep.Single? && op == Read &&
      if RoomsOf(s, k.c) == {} then k' == k.(pc := Finished)
      else k'.sweep.All? && Enumerates(k'.sweep.rest, RoomsOf(s, k.c)) && k'.sweep.left == [] &&
           k' == k.(pc := AllNext, sweep := k'.sweep)
    case AllNext =>
      k.sweep.All? &&
      if k.sweep.rest != [] then
        op == Read &&
        k' == k.(pc := LeaveStart, name := k.sweep.rest[0], sweep := All(k.sweep.rest[1..], k.sweep.left))
      else
        op == SetListed(k.c, RoomsOf(s, k.c) - (set n | n in k.sweep.left)) && k' == k.(pc := AllUnlisted)
    case AllUnlisted =>
      k.sweep.All? && op == Bump(|k.sweep.left|) && k' == k.(pc := Finished, sweep := Single)
    case _ => false
  }

  ghost predicate DeleteMoves(s: State, k: Call, op: Op, k': Call) {
    match k.pc
    case DelStart =>
      op == LockRooms && k' == k.(pc := DelHasRooms)
    case DelHasRooms =>
      op == LockRoom(k.r) && k' == k.(pc := DelHasBoth)
    case DelHasBoth =>
      if Members(s, k.r) == {} && k.name in s.rooms && s.rooms[k.name] == k.r
      then op == Unlink(k.name) && k' == k.(pc := DelUnlinked)
      else op == Read && k' == k.(pc := DelDecided)
    case DelUnlinked =>
      op == CountRoom(false) && k' == k.(pc := DelDecided)
    case DelDecided =>
      op == UnlockRoom(k.r) && k' == k.(pc := DelReleasing)
    case DelReleasing =>
      op == UnlockRooms && k' == k.(pc := Resume(k.sweep))
    case _ => false
  }

  ghost predicate Moves(s: State, k: Call, op: Op, k': Call) {
    JoinMoves(s, k, op, k') || LeaveMoves(s, k, op, k') || DeleteMoves(s, k, op, k')
  }

  // ---------------------------------------------------------------- the effect of one access

  ghost predicate Enabled(s: State, op: Op) {
    match op
    case LockRooms => s.roomsMu.None? && !s.publisher.Gathering?
    case LockRoom(r) => RoomFree(s, r)
    case UnlockRoom(r) => r < |s.objs|
    case SetMembers(r, _) => r < |s.objs|
    case StoreSnapshot(r, _) => r < |s.objs|
    case CountRoom(_) => true
    case _ => true
  }

  ghost function Perform(s: State, t: CallId, op: Op): State
    requires Enabled(s, op)
  {
    match op
    case Read => s
    case LockRooms => s.(roomsMu := Some(t))
    case UnlockRooms => s.(roomsMu := None)
    case Create(name) => s.(objs := s.objs + [Room(name, {}, [], None)], rooms := s.rooms[name := |s.objs|])
    case Unlink(name) => s.(rooms := s.rooms - {name})
    case CountRoom(up) => if up then s.(incremented := s.incremented + 1) else s.(decremented := s.decremented + 1)
    case LockRoom(r) => s.(objs := s.objs[r := s.objs[r].(mu := Some(t))])
    case UnlockRoom(r) => s.(objs := s.objs[r := s.objs[r].(mu := None)])
    case SetMembers(r, members) => s.(objs := s.objs[r := s.objs[r].(members := members)])
    case StoreSnapshot(r, xs) => s.(objs := s.objs[r := s.objs[r].(snapshot := xs)], changes := s.changes + 1)
    case SetListed(c, names) => s.(listed := s.listed[c := names])
    case Bump(n) => s.(version := s.version + n)
  }

  /** Call t makes the access `op` and continues as k'. */
  ghost predicate Accesses(s: State, t: CallId, op: Op, k': Call, s': State) {
    t < |s.calls| && Enabled(s, op) && s' == Perform(s, t, op).(calls := s.calls[t := k'])
  }

  ghost predicate CallStep(s: State, t: CallId, op: Op, k': Call, s': State) {
    Accesses(s, t, op, k', s') && Moves(s, s.calls[t], op, k')
  }

  // ------------------------------------------------------ the presence publisher and the environment

  /** The size a reader finds for `name`: the snapshot's length, or 0 when there is no such room. */
  ghost function LiveSize(s: State, name: string): nat {
    if name in s.rooms && s.rooms[name] < |s.objs| then |s.objs[s.rooms[name]].snapshot| else 0
  }

  ghost predicate PublishStep(s: State, s': State) {
    match s.publisher
    case Resting =>
      s' == s.(publisher := CountLoaded(s.clientCount))
    case CountLoaded(count) =>
      if count == s.cache.count && s.version == s.cache.version then s' == s.(publisher := Resting)
      else s' == s.(publisher := VersionLoaded, gathered := false,
                    cache := Cache(count, s.version, s.cache.sizes, s.changes))
    case VersionLoaded =>
      s.roomsMu.None? && s' == s.(publisher := Gathering(s.rooms.Keys, map[]))
    case Gathering(todo, sizes) =>
      if todo == {} then s' == s.(publisher := Resting, gathered := true, cache := s.cache.(sizes := sizes))
      else exists name :: GatherOne(s, name, s')
  }

  ghost predicate GatherOne(s: State, name: string, s': State) {
    && s.publisher.Gathering? && name in s.publisher.todo
    && s' == s.(publisher := Gathering(s.publisher.todo - {name}, s.publisher.sizes[name := LiveSize(s, name)]))
  }

  ghost predicate StartingCall(k: Call) {
    k.sweep.Single? && k.pc in {JoinStart, LeaveStart, AllStart}
  }

  /** New calls begin at any time. */
  ghost predicate NewCall(s: State, k: Call, s': State) {
    StartingCall(k) && s' == s.(calls := s.calls + [k])
  }

  /** Registration and the client counter change as they please. */
  ghost predicate Registration(s: State, s': State) {
    s' == s.(registered := s'.registered, clientCount := s'.clientCount)
  }

  ghost predicate Next(s: State, s': State) {
    || (exists t, op, k' :: CallStep(s, t, op, k', s'))
    || (exists k :: NewCall(s, k, s'))
    || PublishStep(s, s')
    || Registration(s, s')
  }

  /** A finite run of the hub. */
  ghost predicate Run(states: seq<State>) {
    && |states| > 0 && Init(states[0])
    && forall i :: 0 <= i < |states| - 1 ==> Next(states[i], states[i + 1])
  }
}
