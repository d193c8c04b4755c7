/**
  A run in which a join succeeds in a room object that is no longer in h.rooms: the client lists the
  room, but the hub does not know it.
 */
module RoomStranded {
  import opened Options
  import opened RoomProtocol

  /** A run that ends in s. */
  ghost predicate Reachable(s: State) {
    exists states :: Run(states) && states[|states| - 1] == s
  }

  /** A set of states that holds on to whatever the protocol can reach from it. */
  ghost predicate Closed(reach: State -> bool) {
    forall s, s' :: reach(s) && Next(s, s') ==> reach(s')
  }

  lemma ReachNext(s: State, s': State)
    requires Reachable(s) && Next(s, s')
    ensures Reachable(s')
  {
    var states :| Run(states) && states[|states| - 1] == s;
    var longer := states + [s'];
    forall i | 0 <= i < |longer| - 1
      ensures Next(longer[i], longer[i + 1])
    {
      assert i < |states| - 1 ==> Next(states[i], states[i + 1]);
    }
    assert Run(longer) && longer[|longer| - 1] == s';
  }

  /** State b, with call t where k says. */
  ghost function With(b: State, t: CallId, k: Call): State
    requires t < |b.calls|
  {
    b.(calls := b.calls[t := k])
  }

  lemma PerformLeavesCalls(b: State, t: CallId, k: Call, op: Op)
    requires t < |b.calls| && Enabled(b, op)
    ensures Perform(b, t, op).calls == b.calls && Enabled(With(b, t, k), op)
    ensures Perform(With(b, t, k), t, op) == With(Perform(b, t, op), t, k)
  {}

  /** One step of call t; it depends on the rest of the state only. */
  lemma Do(reach: State -> bool, b: State, t: CallId, k: Call, op: Op, k': Call)
    requires Closed(reach)
    requires t < |b.calls| && reach(With(b, t, k)) && Enabled(b, op) && Moves(With(b, t, k), k, op, k')
    ensures t < |Perform(b, t, op).calls| && reach(With(Perform(b, t, op), t, k'))
  {
    PerformLeavesCalls(b, t, k, op);
    IsCallStep(With(b, t, k), t, op, k', With(Perform(b, t, op), t, k'));
  }

  lemma IsCallStep(s: State, t: CallId, op: Op, k': Call, s': State)
    requires t < |s.calls| && Enabled(s, op) && Moves(s, s.calls[t], op, k')
    requires s' == Perform(s, t, op).(calls := s.calls[t := k'])
    ensures Next(s, s')
  {
    assert CallStep(s, t, op, k', s');
  }

  lemma JoinDoes(reach: State -> bool, b: State, t: CallId, k: Call, op: Op, k': Call)
    requires Closed(reach)
    requires t < |b.calls| && reach(With(b, t, k)) && Enabled(b, op) && JoinMoves(b, k, op, k')
    ensures t < |Perform(b, t, op).calls| && reach(With(Perform(b, t, op), t, k'))
  {
    assert JoinMoves(With(b, t, k), k, op, k');
    Do(reach, b, t, k, op, k');
  }

  lemma LeaveDoes(reach: State -> bool, b: State, t: CallId, k: Call, op: Op, k': Call)
    requires Closed(reach)
    requires t < |b.calls| && reach(With(b, t, k)) && Enabled(b, op) && LeaveMoves(b, k, op, k')
    ensures t < |Perform(b, t, op).calls| && reach(With(Perform(b, t, op), t, k'))
  {
    assert LeaveMoves(With(b, t, k), k, op, k');
    Do(reach, b, t, k, op, k');
  }

  lemma DeleteDoes(reach: State -> bool, b: State, t: CallId, k: Call, op: Op, k': Call)
    requires Closed(reach)
    requires t < |b.calls| && reach(With(b, t, k)) && Enabled(b, op) && DeleteMoves(b, k, op, k')
    ensures t < |Perform(b, t, op).calls| && reach(With(Perform(b, t, op), t, k'))
  {
    assert DeleteMoves(With(b, t, k), k, op, k');
    Do(reach, b, t, k, op, k');
  }

  lemma Begin(reach: State -> bool, s: State, k: Call)
    requires Closed(reach)
    requires reach(s) && StartingCall(k)
    ensures reach(s.(calls := s.calls + [k]))
  {
    assert NewCall(s, k, s.(calls := s.calls + [k]));
    assert Next(s, s.(calls := s.calls + [k]));
  }

  /** No lock is taken and nothing is being gathered. */
  ghost predicate AllFree(s: State) {
    && s.roomsMu == None && s.publisher == Resting
    && forall r :: 0 <= r < |s.objs| ==> s.objs[r].mu == None
  }

  /** A join of an existing room, up to where it waits for the room's mutex. */
  lemma FindRoom(reach: State -> bool, b: State, t: CallId, k: Call)
    requires Closed(reach)
    requires t < |b.calls| && reach(With(b, t, k)) && AllFree(b) && k.pc == JoinStart
    requires k.name != "" && k.name in b.rooms && k.c in b.registered
    ensures reach(With(b, t, k.(pc := JoinFound, r := b.rooms[k.name], created := false)))
  {
    var k1 := k.(pc := JoinKnown);
    JoinDoes(reach, b, t, k, Read, k1);
    var k2 := k.(pc := JoinHasRooms);
    JoinDoes(reach, b, t, k1, LockRooms, k2);
    var b2 := Perform(b, t, LockRooms);
    var k3 := k.(pc := JoinCounted, r := b.rooms[k.name], created := false);
    JoinDoes(reach, b2, t, k2, Read, k3);
    JoinDoes(reach, b2, t, k3, UnlockRooms, k3.(pc := JoinFound));
    assert Perform(b2, t, UnlockRooms) == b;
  }

  /** A room being made: linked, and perhaps counted, by call t. */
  ghost function Making(b: State, t: CallId, name: string): State {
    b.(objs := b.objs + [Room(name, {}, [], None)], rooms := b.rooms[name := |b.objs|], roomsMu := Some(t))
  }

  ghost function Made(b: State, name: string): State {
    b.(objs := b.objs + [Room(name, {}, [], None)], rooms := b.rooms[name := |b.objs|],
       incremented := b.incremented + 1)
  }

  lemma BeginMaking(reach: State -> bool, b: State, t: CallId, k: Call)
    requires Closed(reach)
    requires t < |b.calls| && reach(With(b, t, k)) && AllFree(b) && k.pc == JoinStart
    requires k.name != "" && k.name !in b.rooms && k.c in b.registered
    ensures reach(With(Making(b, t, k.name), t, k.(pc := JoinGot, r := |b.objs|, created := true)))
  {
    var k1 := k.(pc := JoinKnown);
    JoinDoes(reach, b, t, k, Read, k1);
    var k2 := k.(pc := JoinHasRooms);
    JoinDoes(reach, b, t, k1, LockRooms, k2);
    JoinDoes(reach, b.(roomsMu := Some(t)), t, k2, Create(k.name), k.(pc := JoinGot, r := |b.objs|, created := true));
  }

  /** A join that has to make the room. */
  lemma MakeRoom(reach: State -> bool, b: State, t: CallId, k: Call)
    requires Closed(reach)
    requires t < |b.calls| && reach(With(b, t, k)) && AllFree(b) && k.pc == JoinStart
    requires k.name != "" && k.name !in b.rooms && k.c in b.registered
    ensures reach(With(Made(b, k.name), t, k.(pc := JoinFound, r := |b.objs|, created := true)))
  {
    BeginMaking(reach, b, t, k);
    var b3 := Making(b, t, k.name);
    var k3 := k.(pc := JoinGot, r := |b.objs|, created := true);
    var k4 := k3.(pc := JoinCounted);
    JoinDoes(reach, b3, t, k3, CountRoom(true), k4);
    JoinDoes(reach, b3.(incremented := b.incremented + 1), t, k4, UnlockRooms, k4.(pc := JoinFound));
  }

  /** Room r locked by t, perhaps with new members. */
  ghost function Locked(b: State, t: CallId, r: RoomId, members: set<Client>): State
    requires r < |b.objs|
  {
    b.(objs := b.objs[r := b.objs[r].(mu := Some(t), members := members)])
  }

  /** Room r with new members and the snapshot to match. */
  ghost function Changed(b: State, r: RoomId, members: set<Client>, xs: seq<Client>): State
    requires r < |b.objs|
  {
    b.(objs := b.objs[r := Room(b.objs[r].name, members, xs, None)], changes := b.changes + 1)
  }

  lemma JoinLocks(reach: State -> bool, b: State, t: CallId, k: Call)
    requires Closed(reach)
    requires t < |b.calls| && reach(With(b, t, k)) && AllFree(b) && k.pc == JoinFound && k.r < |b.objs|
    requires b.limits == Limits(0, 0) && k.c !in b.objs[k.r].members
    ensures reach(With(Locked(b, t, k.r, b.objs[k.r].members), t, k.(pc := JoinAllowed)))
  {
    JoinDoes(reach, b, t, k, LockRoom(k.r), k.(pc := JoinAllowed));
  }

  lemma JoinInserts(reach: State -> bool, b: State, t: CallId, k: Call)
    requires Closed(reach)
    requires t < |b.calls| && k.r < |b.objs| && b.limits == Limits(0, 0)
    requires reach(With(Locked(b, t, k.r, b.objs[k.r].members), t, k.(pc := JoinAllowed)))
    ensures var members, names := b.objs[k.r].members + {k.c}, RoomsOf(b, k.c) + {k.name};
            reach(With(Locked(b, t, k.r, members).(listed := b.listed[k.c := names]), t, k.(pc := JoinInserted)))
  {
    var members, names := b.objs[k.r].members + {k.c}, RoomsOf(b, k.c) + {k.name};
    var b1 := Locked(b, t, k.r, b.objs[k.r].members);
    JoinDoes(reach, b1, t, k.(pc := JoinAllowed), SetListed(k.c, names), k.(pc := JoinListed));
    var b2 := b1.(listed := b.listed[k.c := names]);
    JoinDoes(reach, b2, t, k.(pc := JoinListed), SetMembers(k.r, members), k.(pc := JoinInserted));
    assert Perform(b2, t, SetMembers(k.r, members)).objs == Locked(b, t, k.r, members).objs;
  }

  /** Rebuilding the snapshot of a locked room and unlocking it. */
  lemma RoomIsChanged(b: State, t: CallId, r: RoomId, members: set<Client>, xs: seq<Client>)
    requires r < |b.objs|
    ensures Perform(Perform(Locked(b, t, r, members), t, StoreSnapshot(r, xs)), t, UnlockRoom(r)) ==
            Changed(b, r, members, xs)
  {
    var b1 := Perform(Locked(b, t, r, members), t, StoreSnapshot(r, xs));
    assert Perform(b1, t, UnlockRoom(r)).objs == Changed(b, r, members, xs).objs;
  }

  lemma JoinPublishes(reach: State -> bool, b: State, t: CallId, k: Call, members: set<Client>, xs: seq<Client>)
    requires Closed(reach)
    requires t < |b.calls| && k.r < |b.objs| && Enumerates(xs, members)
    requires reach(With(Locked(b, t, k.r, members), t, k.(pc := JoinInserted)))
    ensures reach(With(Changed(b, k.r, members, xs), t, k.(pc := JoinUnlocked)))
  {
    var b1 := Locked(b, t, k.r, members);
    JoinDoes(reach, b1, t, k.(pc := JoinInserted), StoreSnapshot(k.r, xs), k.(pc := JoinSnapped));
    var b2 := Perform(b1, t, StoreSnapshot(k.r, xs));
    JoinDoes(reach, b2, t, k.(pc := JoinSnapped), UnlockRoom(k.r), k.(pc := JoinUnlocked));
    RoomIsChanged(b, t, k.r, members, xs);
  }

  /** The rest of a join that finds room and client within their limits. */
  lemma Enter(reach: State -> bool, b: State, t: CallId, k: Call, xs: seq<Client>)
    requires Closed(reach)
    requires t < |b.calls| && reach(With(b, t, k)) && AllFree(b) && k.pc == JoinFound && k.r < |b.objs|
    requires b.limits == Limits(0, 0) && k.c !in b.objs[k.r].members
    requires Enumerates(xs, b.objs[k.r].members + {k.c})
    ensures reach(With(Entered(b, k, xs), t, k.(pc := Finished)))
  {
    var members := b.objs[k.r].members + {k.c};
    var listing := b.(listed := b.listed[k.c := RoomsOf(b, k.c) + {k.name}]);
    JoinLocks(reach, b, t, k);
    JoinInserts(reach, b, t, k);
    assert Locked(b, t, k.r, members).(listed := listing.listed) == Locked(listing, t, k.r, members);
    JoinPublishes(reach, listing, t, k, members, xs);
    JoinDoes(reach, Changed(listing, k.r, members, xs), t, k.(pc := JoinUnlocked), Bump(1), k.(pc := Finished));
  }

  ghost function Entered(b: State, k: Call, xs: seq<Client>): State
    requires k.r < |b.objs|
  {
    Changed(b, k.r, b.objs[k.r].members + {k.c}, xs).(
      listed := b.listed[k.c := RoomsOf(b, k.c) + {k.name}], version := b.version + 1)
  }

  // ---------------------------------------------------------------- the last member leaves

  lemma LeaveSees(reach: State -> bool, b: State, t: CallId, k: Call)
    requires Closed(reach)
    requires t < |b.calls| && reach(With(b, t, k)) && AllFree(b) && k.pc == LeaveStart && k.sweep == Single
    requires k.name != "" && k.name in b.rooms && b.rooms[k.name] < |b.objs| && k.c in b.objs[b.rooms[k.name]].members
    ensures reach(With(b, t, k.(pc := LeaveSeen, r := b.rooms[k.name])))
  {
    var k1 := k.(pc := LeaveFound, r := b.rooms[k.name]);
    LeaveDoes(reach, b, t, k, Read, k1);
    LeaveDoes(reach, b, t, k1, Read, k1.(pc := LeaveSeen));
  }

  lemma LeaveRemoves(reach: State -> bool, b: State, t: CallId, k: Call)
    requires Closed(reach)
    requires t < |b.calls| && reach(With(b, t, k)) && AllFree(b) && k.pc == LeaveSeen && k.r < |b.objs|
    requires b.objs[k.r].members == {k.c}
    ensures reach(With(Locked(b, t, k.r, {}), t, k.(pc := LeaveRemoved)))
  {
    LeaveDoes(reach, b, t, k, LockRoom(k.r), k.(pc := LeaveRechecking));
    var b1 := Locked(b, t, k.r, b.objs[k.r].members);
    assert Perform(b, t, LockRoom(k.r)) == b1;
    LeaveDoes(reach, b1, t, k.(pc := LeaveRechecking), SetMembers(k.r, {}), k.(pc := LeaveRemoved));
    assert Perform(b1, t, SetMembers(k.r, {})).objs == Locked(b, t, k.r, {}).objs;
  }

  /** Room r locked and emptied, its snapshot rebuilt. */
  ghost function Snapped(b: State, t: CallId, r: RoomId): State
    requires r < |b.objs|
  {
    Perform(Locked(b, t, r, {}), t, StoreSnapshot(r, []))
  }

  ghost function Unlisted(b: State, k: Call): State {
    b.(listed := b.listed[k.c := RoomsOf(b, k.c) - {k.name}])
  }

  lemma LeaveUnlists(reach: State -> bool, b: State, t: CallId, k: Call)
    requires Closed(reach)
    requires t < |b.calls| && k.r < |b.objs| && k.sweep == Single && k.pc == LeaveRemoved
    requires reach(With(Locked(b, t, k.r, {}), t, k))
    ensures reach(With(Snapped(Unlisted(b, k), t, k.r), t, k.(pc := LeaveUnlisted)))
  {
    LeaveDoes(reach, Locked(b, t, k.r, {}), t, k, StoreSnapshot(k.r, []), k.(pc := LeaveSnapped));
    var names := RoomsOf(b, k.c) - {k.name};
    LeaveDoes(reach, Snapped(b, t, k.r), t, k.(pc := LeaveSnapped), SetListed(k.c, names), k.(pc := LeaveUnlisted));
  }

  lemma LeaveCounts(reach: State -> bool, b: State, t: CallId, k: Call)
    requires Closed(reach)
    requires t < |b.calls| && k.r < |b.objs| && k.sweep == Single && k.pc == LeaveUnlisted
    requires reach(With(Snapped(b, t, k.r), t, k))
    ensures reach(With(Snapped(b.(version := b.version + 1), t, k.r), t, k.(pc := LeaveCounted, empty := true)))
  {
    LeaveDoes(reach, Snapped(b, t, k.r), t, k, Bump(1), k.(pc := LeaveCounted, empty := true));
  }

  lemma LeaveUnlocks(reach: State -> bool, b: State, t: CallId, k: Call)
    requires Closed(reach)
    requires t < |b.calls| && k.r < |b.objs| && k.sweep == Single && k.pc == LeaveCounted && k.empty
    requires reach(With(Snapped(b, t, k.r), t, k))
    ensures reach(With(Changed(b, k.r, {}, []), t, k.(pc := DelStart)))
  {
    LeaveDoes(reach, Snapped(b, t, k.r), t, k, UnlockRoom(k.r), k.(pc := DelStart));
    RoomIsChanged(b, t, k.r, {}, []);
  }

  /** The second half of the leave: snapshot, list, version and the room's mutex. */
  lemma LeaveSettles(reach: State -> bool, b: State, t: CallId, k: Call)
    requires Closed(reach)
    requires t < |b.calls| && k.r < |b.objs| && k.sweep == Single && k.pc == LeaveRemoved
    requires reach(With(Locked(b, t, k.r, {}), t, k))
    ensures reach(With(Changed(Unlisted(b, k).(version := b.version + 1), k.r, {}, []), t,
                       k.(pc := DelStart, empty := true)))
  {
    LeaveUnlists(reach, b, t, k);
    LeaveCounts(reach, Unlisted(b, k), t, k.(pc := LeaveUnlisted));
    LeaveUnlocks(reach, Unlisted(b, k).(version := b.version + 1), t, k.(pc := LeaveCounted, empty := true));
  }

  /** The first half of the leave, up to the removal of the only member. */
  lemma LeaveEmpties(reach: State -> bool, b: State, t: CallId, k: Call)
    requires Closed(reach)
    requires t < |b.calls| && reach(With(b, t, k)) && AllFree(b) && k.pc == LeaveStart && k.sweep == Single
    requires k.name != "" && k.name in b.rooms && b.rooms[k.name] < |b.objs| && b.objs[b.rooms[k.name]].members == {k.c}
    ensures reach(With(Locked(b, t, b.rooms[k.name], {}), t, k.(pc := LeaveRemoved, r := b.rooms[k.name])))
  {
    LeaveSees(reach, b, t, k);
    LeaveRemoves(reach, b, t, k.(pc := LeaveSeen, r := b.rooms[k.name]));
  }

  /** LeaveRoom by the only member, up to the start of deleteRoomIfEmpty. */
  lemma Leave(reach: State -> bool, b: State, t: CallId, k: Call)
    requires Closed(reach)
    requires t < |b.calls| && reach(With(b, t, k)) && AllFree(b) && k.pc == LeaveStart && k.sweep == Single
    requires k.name != "" && k.name in b.rooms && b.rooms[k.name] < |b.objs| && b.objs[b.rooms[k.name]].members == {k.c}
    ensures reach(With(Emptied(b, k), t, k.(pc := DelStart, r := b.rooms[k.name], empty := true)))
  {
    LeaveEmpties(reach, b, t, k);
    LeaveSettles(reach, b, t, k.(pc := LeaveRemoved, r := b.rooms[k.name]));
  }

  ghost function Emptied(b: State, k: Call): State
    requires k.name in b.rooms && b.rooms[k.name] < |b.objs|
  {
    Changed(Unlisted(b, k).(version := b.version + 1), b.rooms[k.name], {}, [])
  }

  // ---------------------------------------------------------------- deleteRoomIfEmpty

  lemma DeleteLocks(reach: State -> bool, b: State, t: CallId, k: Call)
    requires Closed(reach)
    requires t < |b.calls| && reach(With(b, t, k)) && AllFree(b) && k.pc == DelStart && k.r < |b.objs|
    ensures reach(With(Locked(b, t, k.r, b.objs[k.r].members).(roomsMu := Some(t)), t, k.(pc := DelHasBoth)))
  {
    DeleteDoes(reach, b, t, k, LockRooms, k.(pc := DelHasRooms));
    DeleteDoes(reach, b.(roomsMu := Some(t)), t, k.(pc := DelHasRooms), LockRoom(k.r), k.(pc := DelHasBoth));
  }

  lemma DeleteUnlinks(reach: State -> bool, b: State, t: CallId, k: Call)
    requires Closed(reach)
    requires t < |b.calls| && reach(With(b, t, k)) && k.pc == DelHasBoth && k.r < |b.objs|
    requires b.objs[k.r].members == {} && k.name in b.rooms && b.rooms[k.name] == k.r
    ensures reach(With(b.(rooms := b.rooms - {k.name}, decremented := b.decremented + 1), t, k.(pc := DelDecided)))
  {
    DeleteDoes(reach, b, t, k, Unlink(k.name), k.(pc := DelUnlinked));
    var b1 := b.(rooms := b.rooms - {k.name});
    DeleteDoes(reach, b1, t, k.(pc := DelUnlinked), CountRoom(false), k.(pc := DelDecided));
  }

  lemma DeleteUnlocks(reach: State -> bool, b: State, t: CallId, k: Call)
    requires Closed(reach)
    requires t < |b.calls| && k.r < |b.objs| && b.objs[k.r].mu == None && b.roomsMu == None && k.pc == DelDecided
    requires reach(With(Locked(b, t, k.r, b.objs[k.r].members).(roomsMu := Some(t)), t, k)) && k.sweep == Single
    ensures reach(With(b, t, k.(pc := Finished)))
  {
    var b1 := Locked(b, t, k.r, b.objs[k.r].members).(roomsMu := Some(t));
    DeleteDoes(reach, b1, t, k, UnlockRoom(k.r), k.(pc := DelReleasing));
    var b2 := Perform(b1, t, UnlockRoom(k.r));
    assert b2.objs == b.objs;
    DeleteDoes(reach, b2, t, k.(pc := DelReleasing), UnlockRooms, k.(pc := Finished));
    assert Perform(b2, t, UnlockRooms) == b;
  }

  lemma Delete(reach: State -> bool, b: State, t: CallId, k: Call)
    requires Closed(reach)
    requires t < |b.calls| && reach(With(b, t, k)) && AllFree(b) && k.pc == DelStart && k.r < |b.objs|
    requires b.objs[k.r].members == {} && k.name in b.rooms && b.rooms[k.name] == k.r && k.sweep == Single
    ensures reach(With(b.(rooms := b.rooms - {k.name}, decremented := b.decremented + 1), t, k.(pc := Finished)))
  {
    DeleteLocks(reach, b, t, k);
    DeleteUnlinks(reach, Locked(b, t, k.r, b.objs[k.r].members).(roomsMu := Some(t)), t, k.(pc := DelHasBoth));
    var b1 := b.(rooms := b.rooms - {k.name}, decremented := b.decremented + 1);
    DeleteUnlocks(reach, b1, t, k.(pc := DelDecided));
  }

  // ---------------------------------------------------------------- the run

  const Lobby: string := "lobby"

  ghost function Fresh(): State {
    State(Limits(0, 0), {1, 2}, 0, map[], None, [], map[], 0, 0, 0, [], Resting, Cache(0, -1, map[], 0), false, 0)
  }

  ghost function Caller(pc: Pc, c: Client): Call {
    Call(pc, c, Lobby, 0, false, Single, false)
  }

  /** Client 1 makes the lobby and is about to lock it. */
  lemma FirstMake(reach: State -> bool) returns (b: State)
    requires Closed(reach) && reach(Fresh())
    ensures |b.calls| == 1 && reach(With(b, 0, Caller(JoinFound, 1).(created := true)))
    ensures b == Fresh().(calls := b.calls, rooms := map[Lobby := 0], objs := [Room(Lobby, {}, [], None)],
                          incremented := 1)
  {
    var s0 := Fresh();
    var k := Caller(JoinStart, 1);
    Begin(reach, s0, k);
    b := s0.(calls := [k]);
    assert s0.calls + [k] == b.calls == b.calls[0 := k];
    MakeRoom(reach, b, 0, k);
    b := Made(b, Lobby);
  }

  /** Client 1 makes the lobby and joins it. */
  lemma FirstJoin(reach: State -> bool) returns (s: State)
    requires Closed(reach) && reach(Fresh())
    ensures reach(s)
    ensures s == Fresh().(calls := [Caller(Finished, 1).(created := true)], rooms := map[Lobby := 0],
                          objs := [Room(Lobby, {1}, [1], None)], listed := map[1 := {Lobby}],
                          incremented := 1, version := 1, changes := 1)
  {
    var b := FirstMake(reach);
    var k := Caller(JoinFound, 1).(created := true);
    assert b.objs[0].members + {k.c} == {1};
    Enter(reach, b, 0, k, [1]);
    s := With(Entered(b, k, [1]), 0, k.(pc := Finished));
    assert RoomsOf(b, 1) + {Lobby} == {Lobby};
    assert s.calls == [Caller(Finished, 1).(created := true)];
  }

  /** A new call by client 2 to join the lobby, up to where it waits for the room's mutex. */
  lemma SecondJoin(reach: State -> bool, b: State) returns (s: State)
    requires Closed(reach)
    requires |b.calls| == 1 && reach(b) && AllFree(b) && 2 in b.registered && Lobby in b.rooms
    ensures reach(s) && s == b.(calls := [b.calls[0], Caller(JoinFound, 2).(r := b.rooms[Lobby])])
  {
    var k2 := Caller(JoinStart, 2);
    Begin(reach, b, k2);
    var b1 := b.(calls := b.calls + [k2]);
    assert b1.calls == b1.calls[1 := k2];
    FindRoom(reach, b1, 1, k2);
    s := With(b1, 1, Caller(JoinFound, 2).(r := b.rooms[Lobby]));
    assert s.calls == [b.calls[0], Caller(JoinFound, 2).(r := b.rooms[Lobby])];
  }

  /** Client 1 takes itself out of the lobby, which leaves it empty. */
  lemma FirstLeave(reach: State -> bool, b: State) returns (s: State)
    requires Closed(reach)
    requires |b.calls| == 2 && reach(b) && AllFree(b) && b.rooms == map[Lobby := 0]
    requires b.objs == [Room(Lobby, {1}, [1], None)] && RoomsOf(b, 1) == {Lobby}
    ensures s.calls == b.calls + [Caller(LeaveStart, 1)] && AllFree(s)
    ensures s.limits == b.limits && s.registered == b.registered
    ensures s.rooms == map[Lobby := 0] && s.objs == [Room(Lobby, {}, [], None)] && s.listed == b.listed[1 := {}]
    ensures reach(With(s, 2, Caller(DelStart, 1).(empty := true)))
  {
    var k := Caller(LeaveStart, 1);
    Begin(reach, b, k);
    var b1 := b.(calls := b.calls + [k]);
    assert b1.calls == b1.calls[2 := k];
    Leave(reach, b1, 2, k);
    s := Emptied(b1, k);
    assert {Lobby} - {Lobby} == {};
  }

  /** The lobby is deleted. */
  lemma FirstDelete(reach: State -> bool, b: State) returns (s: State)
    requires Closed(reach)
    requires |b.calls| == 3 && AllFree(b) && b.rooms == map[Lobby := 0] && b.objs == [Room(Lobby, {}, [], None)]
    requires reach(With(b, 2, Caller(DelStart, 1).(empty := true)))
    ensures reach(s) && AllFree(s) && s.limits == b.limits && s.registered == b.registered
    ensures s.rooms == map[] && s.objs == b.objs && s.listed == b.listed
    ensures s.calls == [b.calls[0], b.calls[1], Caller(Finished, 1).(empty := true)]
  {
    Delete(reach, b, 2, Caller(DelStart, 1).(empty := true));
    s := With(b.(rooms := b.rooms - {Lobby}, decremented := b.decremented + 1), 2, Caller(Finished, 1).(empty := true));
  }

  /** Every call has returned; client 2 has joined the lobby, and h.rooms does not know the room object it is in. */
  ghost predicate Stranded(s: State) {
    && (forall t :: 0 <= t < |s.calls| ==> s.calls[t].pc == Finished)
    && 2 in s.registered && RoomsOf(s, 2) == {Lobby}
    && |s.objs| == 1 && s.objs[0].members == {2} && s.rooms == map[]
  }

  /** Client 2 enters the room it found before the lobby was deleted. */
  lemma LateEntry(reach: State -> bool) returns (s: State)
    requires Closed(reach) && reach(Fresh())
    ensures reach(s) && Stranded(s)
  {
    var s1 := FirstJoin(reach);
    var s2 := SecondJoin(reach, s1);
    var left := FirstLeave(reach, s2);
    var s3 := FirstDelete(reach, left);
    var k := s3.calls[1];
    assert s3.calls == s3.calls[1 := k];
    assert s3.objs[0].members + {2} == {2};
    Enter(reach, s3, 1, k, [2]);
    s := With(Entered(s3, k, [2]), 1, k.(pc := Finished));
    assert RoomsOf(s3, 2) + {Lobby} == {Lobby};
  }

  /**
    A finished run in which client 2 is registered, has joined the lobby without error and lists it,
    and is a member of a room object that h.rooms does not know.
   */
  lemma JoinedRoomCanBeUnlinked() returns (states: seq<State>)
    ensures Run(states) && Stranded(states[|states| - 1])
  {
    var reach := (s: State) => Reachable(s);
    forall s, s' | reach(s) && Next(s, s')
      ensures reach(s')
    {
      ReachNext(s, s');
    }
    assert Run([Fresh()]) && reach(Fresh());
    var s := LateEntry(reach);
    states :| Run(states) && states[|states| - 1] == s;
  }
}
