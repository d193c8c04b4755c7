/**
  Every run of registry operations keeps the representation invariant, and what that invariant
  says about single operations and pairs of them.
 */
module RegistryRuns {
  import opened RegistryModel

  // ---------------------------------------------------------------- one operation

  lemma CreateKeeps(s: State, c: Client, user: string)
    requires Inv(s) && c !in s.userOf
    ensures Inv(Create(s, c, user))
  {
    var t := Create(s, c, user);
    assert forall d, n :: Lists(t.roomsOf, d, n) <==> Lists(s.roomsOf, d, n);
    assert forall d, u :: d in s.clients ==> (IsUser(t.userOf, d, u) <==> IsUser(s.userOf, d, u));
  }

  /** A client made by UpgradeConnection is new to the hub and its id is used by no other client. */
  ghost predicate Fresh(s: State, c: Client) {
    c in s.userOf && c !in s.clients && c.id !in s.index
  }

  lemma AddedKeepsUsers(clients: set<Client>, users: map<string, set<Client>>, userOf: map<Client, string>, c: Client)
    requires UsersExact(clients, users, userOf) && c in userOf && c !in clients
    ensures UsersExact(clients + {c}, if userOf[c] == "" then users else Added(users, userOf[c], c), userOf)
  {
    AddedHolds(users, userOf[c], c);
  }

  lemma RegisterKeepsLimits(s: State, c: Client)
    requires LimitsKept(s) && c in s.userOf && c !in s.clients
    ensures LimitsKept(Register(s, c).state)
  {
    if Register(s, c).err == Nil && s.userOf[c] != "" {
      AddedSized(s.limits.maxConnectionsPerUser, s.users, s.userOf[c], c);
    }
  }

  /** A fresh client lists no rooms and is in none, so registering it leaves the rooms exact. */
  lemma MoreClientsKeepRooms(
      clients: set<Client>, c: Client, rooms: map<string, set<Client>>, roomsOf: map<Client, set<string>>)
    requires RoomsExact(clients, rooms, roomsOf) && c !in clients
    ensures RoomsExact(clients + {c}, rooms, roomsOf)
    ensures forall n :: !Holds(rooms, n, c) && !Lists(roomsOf, c, n)
  {}

  lemma RegisterKeepsIndex(clients: set<Client>, index: map<string, Client>, count: int, c: Client)
    requires IndexExact(clients, index, count) && c !in clients && c.id !in index
    ensures IndexExact(clients + {c}, index[c.id := c], count + 1)
  {}

  lemma RegisterKeeps(s: State, c: Client)
    requires Inv(s) && Fresh(s, c)
    ensures Inv(Register(s, c).state)
  {
    RegisterKeepsIndex(s.clients, s.index, s.count, c);
    AddedKeepsUsers(s.clients, s.users, s.userOf, c);
    RegisterKeepsLimits(s, c);
    MoreClientsKeepRooms(s.clients, c, s.rooms, s.roomsOf);
  }

  /**
    SetUserID is also callable on a client that is not registered. It leaves the invariant intact
    unless it then files that client under a user.
   */
  ghost predicate Files(s: State, c: Client, user: string)
    requires c in s.userOf
  {
    && user != "" && user != s.userOf[c]
    && !Reached(s.limits.maxConnectionsPerUser, |MembersOf(s.users, user)|)
  }

  /** The two updates of the user index together, for any client. */
  lemma SetUserHolds(s: State, c: Client, user: string)
    requires NoneEmpty(s.users) && c in s.userOf && SetUser(s, c, user).err == Nil && s.userOf[c] != user
    requires forall u :: Holds(s.users, u, c) ==> u == s.userOf[c] && u != ""
    ensures NoneEmpty(SetUser(s, c, user).state.users)
    ensures forall u, d :: Holds(SetUser(s, c, user).state.users, u, d) <==>
              if d == c then u == user && user != "" else Holds(s.users, u, d)
  {
    var was := s.userOf[c];
    var without := if was == "" then s.users else Removed(s.users, was, c);
    RemovedHolds(s.users, was, c);
    AddedHolds(without, user, c);
  }

  lemma SetUserKeepsLimits(s: State, c: Client, user: string)
    requires LimitsKept(s) && c in s.userOf && SetUser(s, c, user).err == Nil && s.userOf[c] != user
    ensures LimitsKept(SetUser(s, c, user).state)
  {
    var was := s.userOf[c];
    var without := if was == "" then s.users else Removed(s.users, was, c);
    RemovedSized(s.limits.maxConnectionsPerUser, s.users, was, c);
    assert MembersOf(without, user) == MembersOf(s.users, user);
    if user != "" {
      AddedSized(s.limits.maxConnectionsPerUser, without, user, c);
    }
  }

  lemma RefiledKeepsUsers(
      clients: set<Client>, users: map<string, set<Client>>, userOf: map<Client, string>, c: Client, user: string,
      refiled: map<string, set<Client>>)
    requires UsersExact(clients, users, userOf) && (c in clients || user == "") && NoneEmpty(refiled)
    requires forall u, d :: Holds(refiled, u, d) <==> if d == c then u == user && user != "" else Holds(users, u, d)
    ensures UsersExact(clients, refiled, userOf[c := user])
  {
    assert forall d, u :: d != c ==> (IsUser(userOf[c := user], d, u) <==> IsUser(userOf, d, u));
  }

  /** Among all clients, SetUserID breaks the invariant exactly when it files an unregistered one. */
  lemma SetUserKeepsExactlyWhen(s: State, c: Client, user: string)
    requires Inv(s) && c in s.userOf
    ensures Inv(SetUser(s, c, user).state) <==> c in s.clients || !Files(s, c, user)
  {
    if SetUser(s, c, user).err == Nil && s.userOf[c] != user {
      SetUserHolds(s, c, user);
      SetUserKeepsLimits(s, c, user);
      if c in s.clients || user == "" {
        RefiledKeepsUsers(s.clients, s.users, s.userOf, c, user, SetUser(s, c, user).state.users);
      } else {
        assert Holds(SetUser(s, c, user).state.users, user, c);
      }
    }
  }

  lemma JoinKeepsRooms(s: State, c: Client, room: string)
    requires RoomsExact(s.clients, s.rooms, s.roomsOf) && c in s.roomsOf && Join(s, c, room).err == Nil
    ensures RoomsExact(s.clients, Added(s.rooms, room, c), Join(s, c, room).state.roomsOf)
  {
    var t := Join(s, c, room).state;
    AddedHolds(s.rooms, room, c);
    assert forall d, n :: Lists(t.roomsOf, d, n) <==> Lists(s.roomsOf, d, n) || (d == c && n == room);
  }

  lemma JoinKeeps(s: State, c: Client, room: string)
    requires Inv(s) && c in s.roomsOf
    ensures Inv(Join(s, c, room).state)
  {
    if Join(s, c, room).err == Nil {
      JoinKeepsRooms(s, c, room);
      AddedSized(s.limits.maxClientsPerRoom, s.rooms, room, c);
    }
  }

  lemma LeaveKeepsRooms(s: State, c: Client, room: string)
    requires RoomsExact(s.clients, s.rooms, s.roomsOf) && c in s.roomsOf
    ensures RoomsExact(s.clients, Left(s, c, room).rooms, Left(s, c, room).roomsOf)
  {
    var t := Left(s, c, room);
    RemovedHolds(s.rooms, room, c);
    assert forall d, n :: Lists(t.roomsOf, d, n) <==> Lists(s.roomsOf, d, n) && !(d == c && n == room);
  }

  lemma LeaveKeeps(s: State, c: Client, room: string)
    requires Inv(s) && c in s.roomsOf
    ensures Inv(Leave(s, c, room).state)
  {
    LeaveKeepsRooms(s, c, room);
    RemovedSized(s.limits.maxClientsPerRoom, s.rooms, room, c);
    SmallerSet(s.roomsOf[c] - {room}, s.roomsOf[c]);
  }

  /** With the invariant, a sweep leaves every room the client lists. */
  lemma LeavingIsListed(s: State, c: Client)
    requires RoomsExact(s.clients, s.rooms, s.roomsOf) && c in s.roomsOf
    ensures Leaving(s, c) == s.roomsOf[c]
  {
    forall n | n in s.roomsOf[c]
      ensures n in s.rooms && c in s.rooms[n]
    {
      assert Lists(s.roomsOf, c, n);
      assert Holds(s.rooms, n, c);
    }
  }

  lemma LeaveAllKeeps(s: State, c: Client)
    requires Inv(s) && c in s.roomsOf
    ensures Inv(LeaveAll(s, c))
    ensures LeaveAll(s, c).roomsOf[c] == {}
    ensures forall n :: !Holds(LeaveAll(s, c).rooms, n, c)
  {
    var t := LeaveAll(s, c);
    LeavingIsListed(s, c);
    RemovedFromAllHolds(s.rooms, s.roomsOf[c], c);
    RemovedFromAllSized(s.limits.maxClientsPerRoom, s.rooms, s.roomsOf[c], c);
    assert forall d, n :: Lists(t.roomsOf, d, n) <==> Lists(s.roomsOf, d, n) && d != c;
  }

  lemma UnregisterKeeps(s: State, c: Client)
    requires Inv(s) && c in s.userOf
    ensures Inv(Unregister(s, c))
  {
    if c in s.clients {
      LeaveAllKeeps(s, c);
      var user := s.userOf[c];
      RemovedHolds(s.users, user, c);
      RemovedSized(s.limits.maxConnectionsPerUser, s.users, user, c);
      var l := LeaveAll(s, c);
      var t := Unregister(s, c);
      assert t.rooms == l.rooms && t.roomsOf == l.roomsOf;
      SmallerSet(t.clients, s.clients);
      UnregisterKeepsRooms(t.clients, c, l);
    }
  }

  lemma UnregisterKeepsRooms(clients: set<Client>, c: Client, l: State)
    requires RoomsExact(l.clients, l.rooms, l.roomsOf) && c in l.roomsOf && l.roomsOf[c] == {}
    requires clients == l.clients - {c}
    ensures RoomsExact(clients, l.rooms, l.roomsOf)
  {}

  // ---------------------------------------------------------------- runs

  datatype Op =
    | NewClient(c: Client, user: string)
    | RegisterOp(c: Client)
    | UnregisterOp(c: Client)
    | SetUserOp(c: Client, user: string)
    | JoinOp(c: Client, room: string)
    | LeaveOp(c: Client, room: string)
    | LeaveAllOp(c: Client)

  ghost predicate Callable(s: State, op: Op) {
    if op.NewClient? then op.c !in s.userOf else op.c in s.userOf && op.c in s.roomsOf
  }

  ghost function After(s: State, op: Op): State
    requires Callable(s, op)
  {
    match op
    case NewClient(c, user) => Create(s, c, user)
    case RegisterOp(c) => Register(s, c).state
    case UnregisterOp(c) => Unregister(s, c)
    case SetUserOp(c, user) => SetUser(s, c, user).state
    case JoinOp(c, room) => Join(s, c, room).state
    case LeaveOp(c, room) => Leave(s, c, room).state
    case LeaveAllOp(c) => LeaveAll(s, c)
  }

  /** Registrations are of fresh clients, and SetUserID does not file an unregistered client. */
  ghost predicate Proper(s: State, op: Op)
    requires Callable(s, op)
  {
    match op
    case RegisterOp(c) => Fresh(s, c)
    case SetUserOp(c, user) => c in s.clients || !Files(s, c, user)
    case _ => true
  }

  ghost predicate Run(limits: Limits, ops: seq<Op>, states: seq<State>) {
    && |states| == |ops| + 1 && states[0] == Empty(limits)
    && forall i :: 0 <= i < |ops| ==>
         Callable(states[i], ops[i]) && Proper(states[i], ops[i]) && states[i + 1] == After(states[i], ops[i])
  }

  lemma StepKeeps(s: State, op: Op)
    requires Inv(s) && Callable(s, op) && Proper(s, op)
    ensures Inv(After(s, op))
  {
    match op
    case NewClient(c, user) => CreateKeeps(s, c, user);
    case RegisterOp(c) => RegisterKeeps(s, c);
    case UnregisterOp(c) => UnregisterKeeps(s, c);
    case SetUserOp(c, user) => SetUserKeepsExactlyWhen(s, c, user);
    case JoinOp(c, room) => JoinKeeps(s, c, room);
    case LeaveOp(c, room) => LeaveKeeps(s, c, room);
    case LeaveAllOp(c) => LeaveAllKeeps(s, c);
  }

  /** The registry is consistent after every operation of every run. */
  lemma {:induction false} RunKeepsRegistry(limits: Limits, ops: seq<Op>, states: seq<State>, i: nat)
    requires Run(limits, ops, states) && i < |states|
    ensures Inv(states[i])
  {
    if i > 0 {
      RunKeepsRegistry(limits, ops, states, i - 1);
      StepKeeps(states[i - 1], ops[i - 1]);
    }
  }

  /**
    What lookups return after any run: a user's connections are all registered clients with that user
    id, a room's members are all registered clients that list the room, and the id index finds
    exactly the registered clients, as many as the counter says.
   */
  lemma LookupsAreExact(limits: Limits, ops: seq<Op>, states: seq<State>, i: nat, user: string, room: string)
    requires Run(limits, ops, states) && i < |states| && user != ""
    ensures states[i].clients <= states[i].userOf.Keys && states[i].clients <= states[i].roomsOf.Keys
    ensures MembersOf(states[i].users, user) == set c | c in states[i].clients && states[i].userOf[c] == user
    ensures MembersOf(states[i].rooms, room) == set c | c in states[i].clients && room in states[i].roomsOf[c]
    ensures states[i].index.Values == states[i].clients && states[i].count == |states[i].clients|
    ensures user in states[i].users <==> exists c :: c in states[i].clients && states[i].userOf[c] == user
  {
    RunKeepsRegistry(limits, ops, states, i);
    LookupsFollow(states[i], user, room);
  }

  lemma LookupsFollow(s: State, user: string, room: string)
    requires Inv(s) && user != ""
    ensures MembersOf(s.users, user) == set c | c in s.clients && s.userOf[c] == user
    ensures MembersOf(s.rooms, room) == set c | c in s.clients && room in s.roomsOf[c]
    ensures s.index.Values == s.clients
    ensures user in s.users <==> exists c :: c in s.clients && s.userOf[c] == user
  {
    forall c | c in s.clients
      ensures c in MembersOf(s.users, user) <==> s.userOf[c] == user
      ensures c in MembersOf(s.rooms, room) <==> room in s.roomsOf[c]
      ensures c in s.index.Values
    {
      assert Holds(s.users, user, c) == (c in MembersOf(s.users, user));
      MembersAgree(s, c, room);
      assert s.index[c.id] == c;
    }
    forall c | c in MembersOf(s.users, user)
      ensures c in s.clients
    {
      assert Holds(s.users, user, c);
    }
    forall c | c in MembersOf(s.rooms, room)
      ensures c in s.clients
    {
      assert Holds(s.rooms, room, c);
    }
    if user in s.users {
      var c :| c in s.users[user];
      assert c in MembersOf(s.users, user);
    }
  }

  // ---------------------------------------------------------------- SetUserID on an unregistered client

  /** Any sequence of calls, in particular with a SetUserID on a client that is not registered. */
  ghost predicate FreeRun(s: State, ops: seq<Op>, states: seq<State>) {
    && |states| == |ops| + 1 && states[0] == s
    && forall i :: 0 <= i < |ops| ==> Callable(states[i], ops[i]) && states[i + 1] == After(states[i], ops[i])
  }

  /** The user index names a client that is not registered. */
  ghost predicate Leaked(s: State, c: Client, user: string) {
    c in s.userOf && c in s.roomsOf && c !in s.clients && user != "" && s.userOf[c] == user && Holds(s.users, user, c)
  }

  /** Filing an unregistered client leaks it, and unregistering it again does not help. */
  lemma FilingLeaks(s: State, c: Client, user: string)
    requires c in s.userOf && c in s.roomsOf && c !in s.clients && Files(s, c, user)
    ensures Leaked(SetUser(s, c, user).state, c, user)
    ensures Unregister(SetUser(s, c, user).state, c) == SetUser(s, c, user).state
  {
    var was := s.userOf[c];
    AddedHolds(if was == "" then s.users else Removed(s.users, was, c), user, c);
  }

  lemma LeakBreaks(s: State, c: Client, user: string)
    requires Leaked(s, c, user)
    ensures !Inv(s)
  {}

  /**
    Under any limits: a client connects, disconnects, and only then gets its user id. The user index
    names it from then on, although it is not registered.
   */
  lemma LateSetUserLeaks(limits: Limits, c: Client, user: string) returns (ops: seq<Op>, states: seq<State>)
    requires user != ""
    ensures ops == [NewClient(c, ""), RegisterOp(c), UnregisterOp(c), SetUserOp(c, user)]
    ensures FreeRun(Empty(limits), ops, states)
    ensures Leaked(states[4], c, user) && !Inv(states[4]) && Unregister(states[4], c) == states[4]
  {
    ops := [NewClient(c, ""), RegisterOp(c), UnregisterOp(c), SetUserOp(c, user)];
    var s0 := Empty(limits);
    var s1 := Create(s0, c, "");
    var s2 := Register(s1, c).state;
    var s3 := Unregister(s2, c);
    CreateKeeps(s0, c, "");
    UnregisterUndoesRegister(s1, c);
    assert s3 == s1;
    var s4 := SetUser(s3, c, user).state;
    states := [s0, s1, s2, s3, s4];
    FilingLeaks(s3, c, user);
    LeakBreaks(s4, c, user);
  }

  lemma CallKeepsLeak(s: State, op: Op, c: Client, user: string)
    requires Leaked(s, c, user) && Callable(s, op)
    requires !(op == RegisterOp(c)) && !(op.SetUserOp? && op.c == c)
    ensures Leaked(After(s, op), c, user)
  {
    if op.RegisterOp? {
      AddedHolds(s.users, s.userOf[op.c], op.c);
    } else if op.UnregisterOp? {
      RemovedHolds(s.users, s.userOf[op.c], op.c);
    } else if op.SetUserOp? {
      var was := s.userOf[op.c];
      var without := if was == "" then s.users else Removed(s.users, was, op.c);
      RemovedHolds(s.users, was, op.c);
      AddedHolds(without, op.user, op.c);
    }
  }

  /** Only another SetUserID for the very client can take it out: a client is registered once, when it connects. */
  lemma {:induction false} LeakStays(s: State, ops: seq<Op>, states: seq<State>, i: nat, c: Client, user: string)
    requires FreeRun(s, ops, states) && i < |states| && Leaked(s, c, user)
    requires forall j :: 0 <= j < |ops| ==> ops[j] != RegisterOp(c) && !(ops[j].SetUserOp? && ops[j].c == c)
    ensures Leaked(states[i], c, user)
  {
    if i > 0 {
      LeakStays(s, ops, states, i - 1, c, user);
      CallKeepsLeak(states[i - 1], ops[i - 1], c, user);
    }
  }

  // ---------------------------------------------------------------- pairs of operations

  lemma MembersAgree(s: State, c: Client, room: string)
    requires Inv(s) && c in s.roomsOf
    ensures c in MembersOf(s.rooms, room) <==> room in s.roomsOf[c]
  {
    assert Holds(s.rooms, room, c) == (c in MembersOf(s.rooms, room));
    assert Lists(s.roomsOf, c, room) == (room in s.roomsOf[c]);
  }

  lemma RemovedUndoesAdded(m: map<string, set<Client>>, key: string, c: Client)
    requires NoneEmpty(m) && c !in MembersOf(m, key)
    ensures Removed(Added(m, key, c), key, c) == m
  {
    assert Added(m, key, c)[key] - {c} == MembersOf(m, key);
  }

  /** Leaving undoes joining, but for the room version, which has counted both. */
  lemma LeaveUndoesJoin(s: State, c: Client, room: string)
    requires Inv(s) && c in s.roomsOf && Join(s, c, room).err == Nil
    ensures Leave(Join(s, c, room).state, c, room) == Outcome(s.(version := s.version + 2), Nil)
  {
    MembersAgree(s, c, room);
    RemovedUndoesAdded(s.rooms, room, c);
    assert s.roomsOf[c] + {room} - {room} == s.roomsOf[c];
    assert s.roomsOf[c := s.roomsOf[c]] == s.roomsOf;
  }

  lemma UnregisterRestores(s: State, c: Client)
    requires Fresh(s, c) && c in s.roomsOf && s.roomsOf[c] == {} && Register(s, c).err == Nil
    requires s.userOf[c] != "" ==> Removed(Added(s.users, s.userOf[c], c), s.userOf[c], c) == s.users
    requires s.roomsOf[c := {}] == s.roomsOf && RemovedFromAll(s.rooms, {}, c) == s.rooms
    ensures Unregister(Register(s, c).state, c) == s
  {
    var t := Register(s, c).state;
    assert t.clients - {c} == s.clients;
    assert Leaving(t, c) == {} && t.roomsOf[c] - {} == {};
    assert Unregister(t, c).index == s.index;
  }

  /** Registering and unregistering a client leaves no trace, whatever the limits and its user. */
  lemma UnregisterUndoesRegister(s: State, c: Client)
    requires Inv(s) && Fresh(s, c) && Register(s, c).err == Nil
    ensures Unregister(Register(s, c).state, c) == s
  {
    NoRooms(s, c);
    if s.userOf[c] != "" {
      assert !Holds(s.users, s.userOf[c], c);
      RemovedUndoesAdded(s.users, s.userOf[c], c);
    }
    UnregisterRestores(s, c);
  }

  lemma NoRooms(s: State, c: Client)
    requires Inv(s) && c in s.roomsOf && c !in s.clients
    ensures s.roomsOf[c] == {}
    ensures s.roomsOf[c := {}] == s.roomsOf && RemovedFromAll(s.rooms, {}, c) == s.rooms
  {
    MoreClientsKeepRooms(s.clients, c, s.rooms, s.roomsOf);
    forall n | n in s.roomsOf[c]
      ensures false
    {
      assert Lists(s.roomsOf, c, n);
    }
    assert s.roomsOf[c] == {};
  }

  /** Nothing in the registry mentions the client. */
  ghost predicate Forgotten(s: State, c: Client) {
    && c !in s.clients && c !in s.index.Values
    && (forall u :: !Holds(s.users, u, c))
    && (forall n :: !Holds(s.rooms, n, c))
    && c in s.roomsOf && s.roomsOf[c] == {}
  }

  /** Unregister erases the client from every structure and leaves the other clients as they were. */
  lemma UnregisterForgets(s: State, c: Client)
    requires Inv(s) && c in s.userOf
    ensures Forgotten(Unregister(s, c), c)
    ensures Unregister(s, c).clients == s.clients - {c}
    ensures forall d :: d in s.roomsOf && d != c ==>
              d in Unregister(s, c).roomsOf && Unregister(s, c).roomsOf[d] == s.roomsOf[d]
    ensures forall n, d :: d != c ==> (Holds(Unregister(s, c).rooms, n, d) <==> Holds(s.rooms, n, d))
  {
    UnregisterKeeps(s, c);
    NoRooms(Unregister(s, c), c);
    MoreClientsKeepRooms(Unregister(s, c).clients, c, Unregister(s, c).rooms, Unregister(s, c).roomsOf);
    RemovedFromAllHolds(s.rooms, Leaving(s, c), c);
  }

  // ---------------------------------------------------------------- the sweep and single leaves

  ghost function LeaveEach(s: State, c: Client, names: seq<string>): (t: State)
    requires c in s.roomsOf
    ensures c in t.roomsOf
  {
    if |names| == 0 then s
    else Leave(LeaveEach(s, c, names[..|names| - 1]), c, names[|names| - 1]).state
  }

  ghost predicate Distinct<T>(xs: seq<T>) {
    forall i, j :: 0 <= i < j < |xs| ==> xs[i] != xs[j]
  }

  /** The state in which c has left exactly the rooms in `gone`. */
  ghost function Without(s: State, c: Client, gone: set<string>): State
    requires c in s.roomsOf
  {
    s.(rooms := RemovedFromAll(s.rooms, gone, c), roomsOf := s.roomsOf[c := s.roomsOf[c] - gone],
       version := s.version + |gone|)
  }

  ghost predicate InEachListed(s: State, c: Client) {
    c in s.roomsOf && forall n :: n in s.roomsOf[c] ==> n != "" && n in s.rooms && c in s.rooms[n]
  }

  lemma LeaveOneMore(s: State, c: Client, gone: set<string>, n: string)
    requires InEachListed(s, c) && n in s.roomsOf[c] && n !in gone
    ensures Leave(Without(s, c, gone), c, n) == Outcome(Without(s, c, gone + {n}), Nil)
  {
    RemovedOneMore(s.rooms, gone, n, c);
    assert s.roomsOf[c] - gone - {n} == s.roomsOf[c] - (gone + {n});
  }

  ghost function Elements(names: seq<string>): set<string> {
    set n | n in names
  }

  lemma {:induction false} LeaveEachLeaves(s: State, c: Client, names: seq<string>)
    requires InEachListed(s, c) && Distinct(names) && Elements(names) <= s.roomsOf[c]
    ensures LeaveEach(s, c, names) == Without(s, c, Elements(names))
  {
    if |names| == 0 {
      assert RemovedFromAll(s.rooms, {}, c) == s.rooms;
      assert s.roomsOf[c] - {} == s.roomsOf[c];
      assert s.roomsOf[c := s.roomsOf[c]] == s.roomsOf;
    } else {
      var front, n := names[..|names| - 1], names[|names| - 1];
      assert Elements(names) == Elements(front) + {n};
      LeaveEachLeaves(s, c, front);
      LeaveOneMore(s, c, Elements(front), n);
    }
  }

  /** The sweep does what leaving the client's rooms one by one does, whatever the order. */
  lemma {:induction false} LeaveAllIsLeavingEach(s: State, c: Client, names: seq<string>)
    requires Inv(s) && c in s.roomsOf && Distinct(names) && s.roomsOf[c] == Elements(names)
    ensures LeaveEach(s, c, names) == LeaveAll(s, c)
  {
    LeavingIsListed(s, c);
    assert InEachListed(s, c);
    LeaveEachLeaves(s, c, names);
  }
}
