/**
  What the registry of one hub holds between two of its methods: the registered clients with their
  index and counter, the user index, and the rooms together with each client's own list of rooms.
  Clients are compared by identity, as in the hub's maps keyed by pointer.
 */
module RegistryModel {

  /** A client object: where it lives, and its immutable id. */
  datatype Client = Client(address: nat, id: string)

  /** A limit of zero or less means unlimited. */
  datatype Limits = Limits(
    maxConnections: int, maxConnectionsPerUser: int, maxRoomsPerClient: int, maxClientsPerRoom: int)

  predicate Reached(limit: int, n: nat) {
    limit > 0 && n >= limit
  }

  predicate Within(limit: int, n: nat) {
    limit > 0 ==> n <= limit
  }

  datatype Error =
    | Nil
    | MaxConnectionsReached
    | MaxUserConnectionsReached
    | EmptyRoomName
    | ClientNotFound
    | RoomFull
    | AlreadyInRoom
    | MaxRoomsReached
    | RoomNotFound
    | NotInRoom

  /** `userOf` and `roomsOf` hold the fields of every client object made, registered or not. */
  datatype State = State(
    limits: Limits,
    clients: set<Client>,
    index: map<string, Client>,
    count: int,
    users: map<string, set<Client>>,
    rooms: map<string, set<Client>>,
    userOf: map<Client, string>,
    roomsOf: map<Client, set<string>>,
    version: int)

  ghost function Empty(limits: Limits): State {
    State(limits, {}, map[], 0, map[], map[], map[], map[], 0)
  }

  ghost function MembersOf(m: map<string, set<Client>>, key: string): set<Client> {
    if key in m then m[key] else {}
  }

  ghost function Added(m: map<string, set<Client>>, key: string, c: Client): map<string, set<Client>> {
    m[key := MembersOf(m, key) + {c}]
  }

  /** Taking a client out of one entry drops the entry with its last member. */
  ghost function Removed(m: map<string, set<Client>>, key: string, c: Client): map<string, set<Client>> {
    if key !in m then m
    else if m[key] - {c} == {} then m - {key}
    else m[key := m[key] - {c}]
  }

  ghost function RemovedFromAll(m: map<string, set<Client>>, keys: set<string>, c: Client): map<string, set<Client>> {
    map k | k in m && !(k in keys && m[k] == {c}) :: if k in keys then m[k] - {c} else m[k]
  }

  datatype Outcome = Outcome(state: State, err: Error)

  ghost function Create(s: State, c: Client, user: string): State {
    s.(userOf := s.userOf[c := user], roomsOf := s.roomsOf[c := {}])
  }

  ghost function Register(s: State, c: Client): Outcome
    requires c in s.userOf
  {
    var user := s.userOf[c];
    if Reached(s.limits.maxConnections, |s.clients|) then Outcome(s, MaxConnectionsReached)
    else if user != "" && Reached(s.limits.maxConnectionsPerUser, |MembersOf(s.users, user)|) then
      Outcome(s, MaxUserConnectionsReached)
    else
      Outcome(s.(clients := s.clients + {c}, index := s.index[c.id := c], count := s.count + 1,
                 users := if user == "" then s.users else Added(s.users, user, c)), Nil)
  }

  ghost function SetUser(s: State, c: Client, user: string): Outcome
    requires c in s.userOf
  {
    var was := s.userOf[c];
    if was == user then Outcome(s, Nil)
    else if user != "" && Reached(s.limits.maxConnectionsPerUser, |MembersOf(s.users, user)|) then
      Outcome(s, MaxUserConnectionsReached)
    else
      var without := if was == "" then s.users else Removed(s.users, was, c);
      Outcome(s.(userOf := s.userOf[c := user],
                 users := if user == "" then without else Added(without, user, c)), Nil)
  }

  ghost function JoinError(s: State, c: Client, room: string): Error
    requires c in s.roomsOf
  {
    if room == "" then EmptyRoomName
    else if c !in s.clients then ClientNotFound
    else if Reached(s.limits.maxClientsPerRoom, |MembersOf(s.rooms, room)|) then RoomFull
    else if c in MembersOf(s.rooms, room) then AlreadyInRoom
    else if Reached(s.limits.maxRoomsPerClient, |s.roomsOf[c]|) then MaxRoomsReached
    else Nil
  }

  ghost function Joined(s: State, c: Client, room: string): State
    requires c in s.roomsOf
  {
    s.(rooms := Added(s.rooms, room, c), roomsOf := s.roomsOf[c := s.roomsOf[c] + {room}], version := s.version + 1)
  }

  ghost function Join(s: State, c: Client, room: string): Outcome
    requires c in s.roomsOf
  {
    var err := JoinError(s, c, room);
    Outcome(if err == Nil then Joined(s, c, room) else s, err)
  }

  ghost function LeaveError(s: State, c: Client, room: string): Error {
    if room == "" then EmptyRoomName
    else if room !in s.rooms then RoomNotFound
    else if c !in s.rooms[room] then NotInRoom
    else Nil
  }

  ghost function Left(s: State, c: Client, room: string): State
    requires c in s.roomsOf
  {
    s.(rooms := Removed(s.rooms, room, c), roomsOf := s.roomsOf[c := s.roomsOf[c] - {room}], version := s.version + 1)
  }

  ghost function Leave(s: State, c: Client, room: string): Outcome
    requires c in s.roomsOf
  {
    var err := LeaveError(s, c, room);
    Outcome(if err == Nil then Left(s, c, room) else s, err)
  }

  /** The rooms a sweep takes c out of: those c lists that exist and hold c. */
  ghost function Leaving(s: State, c: Client): set<string>
    requires c in s.roomsOf
  {
    set n | n in s.roomsOf[c] && n in s.rooms && c in s.rooms[n]
  }

  ghost function LeaveAll(s: State, c: Client): State
    requires c in s.roomsOf
  {
    s.(rooms := RemovedFromAll(s.rooms, Leaving(s, c), c),
       roomsOf := s.roomsOf[c := s.roomsOf[c] - Leaving(s, c)],
       version := s.version + |Leaving(s, c)|)
  }

  ghost function Unregister(s: State, c: Client): State
    requires c in s.userOf && c in s.roomsOf
  {
    if c !in s.clients then s
    else
      var users := if s.userOf[c] == "" then s.users else Removed(s.users, s.userOf[c], c);
      LeaveAll(s.(users := users), c).(clients := s.clients - {c}, index := s.index - {c.id}, count := s.count - 1)
  }

  // ---------------------------------------------------------------- the representation invariant

  ghost predicate Holds(m: map<string, set<Client>>, key: string, c: Client) {
    key in m && c in m[key]
  }

  ghost predicate Lists(roomsOf: map<Client, set<string>>, c: Client, room: string) {
    c in roomsOf && room in roomsOf[c]
  }

  ghost predicate IsUser(userOf: map<Client, string>, c: Client, user: string) {
    c in userOf && userOf[c] == user && user != ""
  }

  ghost predicate NoneEmpty(m: map<string, set<Client>>) {
    forall k :: k in m ==> m[k] != {}
  }

  ghost predicate Sized(limit: int, m: map<string, set<Client>>) {
    forall k :: k in m ==> Within(limit, |m[k]|)
  }

  ghost predicate Known(s: State) {
    s.clients <= s.userOf.Keys && s.userOf.Keys == s.roomsOf.Keys
  }

  /** The index is a bijection between the ids in use and the registered clients. */
  ghost predicate IndexExact(clients: set<Client>, index: map<string, Client>, count: int) {
    && count == |clients|
    && (forall id :: id in index ==> index[id] in clients && index[id].id == id)
    && (forall c :: c in clients ==> c.id in index && index[c.id] == c)
  }

  /** users[u] is exactly the set of registered clients whose user is u; no entry is empty. */
  ghost predicate UsersExact(clients: set<Client>, users: map<string, set<Client>>, userOf: map<Client, string>) {
    && NoneEmpty(users)
    && (forall u, c {:trigger Holds(users, u, c)} :: u in users && c in users[u] && Holds(users, u, c) ==> c in clients)
    && (forall u, c :: c in clients ==> (Holds(users, u, c) <==> IsUser(userOf, c, u)))
  }

  /**
    A room's members are exactly the clients that list the room, only registered clients list any,
    and no room is empty.
   */
  ghost predicate RoomsExact(clients: set<Client>, rooms: map<string, set<Client>>, roomsOf: map<Client, set<string>>) {
    && NoneEmpty(rooms)
    && "" !in rooms
    && (forall n, c {:trigger Holds(rooms, n, c)} :: n in rooms && c in rooms[n] && Holds(rooms, n, c) ==> c in clients)
    && (forall n, c :: c in clients ==> (Holds(rooms, n, c) <==> Lists(roomsOf, c, n)))
    && (forall c, n {:trigger Lists(roomsOf, c, n)} :: c in roomsOf && n in roomsOf[c] && Lists(roomsOf, c, n) ==>
           c in clients)
  }

  ghost predicate RoomLists(limit: int, roomsOf: map<Client, set<string>>) {
    forall c :: c in roomsOf ==> Within(limit, |roomsOf[c]|)
  }

  ghost predicate LimitsKept(s: State) {
    && Within(s.limits.maxConnections, |s.clients|)
    && Sized(s.limits.maxConnectionsPerUser, s.users)
    && RoomLists(s.limits.maxRoomsPerClient, s.roomsOf)
    && Sized(s.limits.maxClientsPerRoom, s.rooms)
  }

  ghost predicate Inv(s: State) {
    && Known(s)
    && IndexExact(s.clients, s.index, s.count)
    && UsersExact(s.clients, s.users, s.userOf)
    && RoomsExact(s.clients, s.rooms, s.roomsOf)
    && LimitsKept(s)
  }

  // ---------------------------------------------------------------- entries of a map of sets

  lemma SmallerSet<T>(a: set<T>, b: set<T>)
    requires a <= b
    ensures |a| <= |b|
  {
    assert a + (b - a) == b;
  }

  lemma AddedHolds(m: map<string, set<Client>>, key: string, c: Client)
    ensures forall k, d :: Holds(Added(m, key, c), k, d) <==> Holds(m, k, d) || (k == key && d == c)
    ensures NoneEmpty(m) ==> NoneEmpty(Added(m, key, c))
  {
  }

  lemma AddedSized(limit: int, m: map<string, set<Client>>, key: string, c: Client)
    requires Sized(limit, m) && !Reached(limit, |MembersOf(m, key)|)
    ensures Sized(limit, Added(m, key, c))
  {
  }

  /** Both kinds of removal take c out of the given entries and touch nothing else. */
  lemma RemovedHolds(m: map<string, set<Client>>, key: string, c: Client)
    ensures forall k, d :: Holds(Removed(m, key, c), k, d) <==> Holds(m, k, d) && !(k == key && d == c)
    ensures NoneEmpty(m) ==> NoneEmpty(Removed(m, key, c))
  {
    if key in m {
      forall d | d in m[key] && m[key] - {c} == {}
        ensures d == c
      {
        assert d in m[key] - {c} || d == c;
      }
    }
  }

  lemma RemovedSized(limit: int, m: map<string, set<Client>>, key: string, c: Client)
    requires Sized(limit, m)
    ensures Sized(limit, Removed(m, key, c))
  {
    if key in m {
      SmallerSet(m[key] - {c}, m[key]);
    }
  }

  lemma RemovedFromAllHolds(m: map<string, set<Client>>, keys: set<string>, c: Client)
    ensures forall k, d :: Holds(RemovedFromAll(m, keys, c), k, d) <==> Holds(m, k, d) && !(k in keys && d == c)
    ensures NoneEmpty(m) ==> NoneEmpty(RemovedFromAll(m, keys, c))
  {
    forall k | k in m && k in keys && m[k] != {} && m[k] != {c}
      ensures m[k] - {c} != {}
    {
    }
  }

  lemma RemovedFromAllSized(limit: int, m: map<string, set<Client>>, keys: set<string>, c: Client)
    requires Sized(limit, m)
    ensures Sized(limit, RemovedFromAll(m, keys, c))
  {
    forall k | k in m
      ensures |m[k] - {c}| <= |m[k]|
    {
      SmallerSet(m[k] - {c}, m[k]);
    }
  }

  /** Taking c out of one more entry. */
  lemma RemovedOneMore(m: map<string, set<Client>>, keys: set<string>, key: string, c: Client)
    requires Holds(m, key, c) && key !in keys
    ensures Holds(RemovedFromAll(m, keys, c), key, c)
    ensures Removed(RemovedFromAll(m, keys, c), key, c) == RemovedFromAll(m, keys + {key}, c)
  {
    assert (m[key] - {c} == {}) == (m[key] == {c});
  }
}
