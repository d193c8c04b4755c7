/**
  Joins and leaves that nothing interferes with: step by step they come to what JoinRoom and LeaveRoom
  promise as whole calls.
 */
module RoomAlone {
  import opened Options
  import opened RoomProtocol
  import opened RoomSafety

  /** The members of the room of that name; none if there is no such room. */
  ghost function Occupants(s: State, name: string): set<Client> {
    if name in s.rooms then Members(s, s.rooms[name]) else {}
  }

  /** A step of call t, and not the BeforeRoomJoin hook vetoing it. */
  ghost predicate Proceeds(s: State, t: CallId, op: Op, k': Call, s': State) {
    CallStep(s, t, op, k', s') && !(s.calls[t].pc == JoinKnown && op == Read)
  }

  /** b is reached from a by n steps. */
  ghost predicate Reaches<T(!new)>(step: (T, T) -> bool, a: T, n: nat, b: T)
    decreases n
  {
    if n == 0 then a == b else exists m :: step(a, m) && Reaches(step, m, n - 1, b)
  }

  /** What every step keeps holds after any number of them. */
  lemma {:induction false} ReachesKeeps<T(!new)>(step: (T, T) -> bool, inv: T -> bool, a: T, n: nat, b: T)
    requires Reaches(step, a, n, b) && inv(a)
    requires forall x, y :: step(x, y) && inv(x) ==> inv(y)
    ensures inv(b)
    decreases n
  {
    if n > 0 {
      var m :| step(a, m) && Reaches(step, m, n - 1, b);
      ReachesKeeps(step, inv, m, n - 1, b);
    }
  }

  ghost function StepsOf(t: CallId): (State, State) -> bool {
    (a: State, b: State) => exists op, k' :: Proceeds(a, t, op, k', b)
  }

  /** s' is reached from s by n steps of call t alone. */
  ghost predicate Alone(s: State, t: CallId, n: nat, s': State) {
    Reaches(StepsOf(t), s, n, s')
  }

  ghost predicate Unchanged(s: State, s': State) {
    && s'.rooms == s.rooms && (forall n :: Occupants(s', n) == Occupants(s, n))
    && s'.listed == s.listed && s'.version == s.version
  }

  // ---------------------------------------------------------------- joining

  /** The reasons of JoinRoom to refuse. */
  ghost predicate Refuses(s: State, c: Client, name: string) {
    || name == "" || c !in s.registered
    || (s.limits.maxClientsPerRoom > 0 && |Occupants(s, name)| >= s.limits.maxClientsPerRoom)
    || c in Occupants(s, name)
    || (s.limits.maxRoomsPerClient > 0 && |RoomsOf(s, c)| >= s.limits.maxRoomsPerClient)
  }

  /** Client c is in the room, which exists, and lists it; the room version counts it; the rest is as before. */
  ghost predicate Entered(s: State, c: Client, name: string, s': State) {
    && s'.rooms.Keys == s.rooms.Keys + {name}
    && (forall n :: Occupants(s', n) == Occupants(s, n) + if n == name then {c} else {})
    && s'.listed == s.listed[c := RoomsOf(s, c) + {name}] && s'.version == s.version + 1
  }

  ghost predicate Still(s0: State, s: State) {
    && s.limits == s0.limits && s.registered == s0.registered
    && s.listed == s0.listed && s.version == s0.version
  }

  ghost predicate SameMembers(s0: State, s: State) {
    && |s.objs| == |s0.objs| && s.rooms == s0.rooms
    && forall r :: 0 <= r < |s0.objs| ==> s.objs[r].members == s0.objs[r].members
  }

  /** Call k has the room at hand, found or made, with these members; all other rooms are as they were. */
  ghost predicate Located(s0: State, s: State, k: Call, members: set<Client>) {
    && (if k.created then
          k.name !in s0.rooms && k.r == |s0.objs| && |s.objs| == |s0.objs| + 1 && s.rooms == s0.rooms[k.name := k.r]
        else k.name in s0.rooms && k.r == s0.rooms[k.name] && |s.objs| == |s0.objs| && s.rooms == s0.rooms)
    && k.r < |s.objs| && s.objs[k.r].members == members
    && forall r :: 0 <= r < |s0.objs| && r != k.r ==> s.objs[r].members == s0.objs[r].members
  }

  ghost predicate Named(s0: State, k: Call) {
    k.name != "" && k.c in s0.registered
  }

  ghost predicate RoomAdmits(s0: State, k: Call) {
    Named(s0, k) && !RoomFull(s0.limits, Occupants(s0, k.name)) && k.c !in Occupants(s0, k.name)
  }

  ghost predicate Admits(s0: State, k: Call) {
    RoomAdmits(s0, k) && !AtRoomLimit(s0, k.c)
  }

  /** The room made for a join that was refused has been unlinked again. */
  ghost predicate Unmade(s0: State, s: State, k: Call) {
    && s.rooms == s0.rooms && |s.objs| == |s0.objs| + 1 && k.r == |s0.objs|
    && forall r :: 0 <= r < |s0.objs| ==> s.objs[r].members == s0.objs[r].members
  }

  ghost predicate Listed(s0: State, s: State, k: Call) {
    && s.limits == s0.limits && s.listed == s0.listed[k.c := RoomsOf(s0, k.c) + {k.name}] && s.version == s0.version
  }

  /** What has become of the state s0 in which a lone join started, by where the join is. */
  ghost predicate JoinAt(s0: State, s: State, k: Call) {
    var was := Occupants(s0, k.name);
    k.sweep == Single &&
    match k.pc
    case JoinStart => Still(s0, s) && SameMembers(s0, s)
    case JoinKnown | JoinHasRooms => Still(s0, s) && SameMembers(s0, s) && Named(s0, k)
    case JoinGot | JoinCounted | JoinFound => Still(s0, s) && Named(s0, k) && Located(s0, s, k, was)
    case JoinAllowed => Still(s0, s) && RoomAdmits(s0, k) && Located(s0, s, k, was)
    case JoinRefused => Still(s0, s) && Named(s0, k) && !Admits(s0, k) && Located(s0, s, k, was)
    case JoinListed => Admits(s0, k) && Located(s0, s, k, was) && Listed(s0, s, k)
    case JoinInserted | JoinSnapped | JoinUnlocked =>
      Admits(s0, k) && Located(s0, s, k, was + {k.c}) && Listed(s0, s, k)
    case DelStart | DelHasRooms | DelHasBoth =>
      Still(s0, s) && !Admits(s0, k) && k.created && Located(s0, s, k, {})
    case DelUnlinked | DelDecided | DelReleasing => Still(s0, s) && !Admits(s0, k) && Unmade(s0, s, k)
    case Finished => if Admits(s0, k) then Entered(s0, k.c, k.name, s) else Unchanged(s0, s)
    case _ => false
  }

  ghost predicate Deleting(pc: Pc) {
    match pc
    case DelStart | DelHasRooms | DelHasBoth | DelUnlinked | DelDecided | DelReleasing => true
    case _ => false
  }

  ghost predicate Leaving(pc: Pc) {
    match pc
    case LeaveStart | LeaveFound | LeaveSeen | LeaveRechecking | LeaveGone => true
    case LeaveRemoved | LeaveSnapped | LeaveUnlisted | LeaveCounted => true
    case AllStart | AllNext | AllUnlisted => true
    case _ => false
  }

  lemma SameMeansUnchanged(s0: State, s: State)
    requires SameMembers(s0, s) && Still(s0, s)
    ensures Unchanged(s0, s)
  {
    assert forall n :: Occupants(s, n) == Occupants(s0, n);
  }

  /** The access that a step of call t makes, whatever becomes of its entry in the calls. */
  ghost predicate Does(s: State, t: CallId, op: Op, a: State) {
    Enabled(s, op) && a == Perform(s, t, op).(calls := a.calls)
  }

  lemma StartStep(s0: State, s: State, t: CallId, k: Call, op: Op, k': Call, a: State)
    requires Does(s, t, op, a) && JoinMoves(s, k, op, k') && JoinAt(s0, s, k)
    requires k.pc == JoinStart || (k.pc == JoinKnown && op != Read)
    ensures JoinAt(s0, a, k')
  {
    SameMeansUnchanged(s0, s);
  }

  lemma FindStep(s0: State, s: State, t: CallId, k: Call, op: Op, k': Call, a: State)
    requires References(s0) && Does(s, t, op, a) && JoinMoves(s, k, op, k') && JoinAt(s0, s, k)
    requires k.pc == JoinHasRooms
    ensures JoinAt(s0, a, k')
  {}

  lemma CountStep(s0: State, s: State, t: CallId, k: Call, op: Op, k': Call, a: State)
    requires Does(s, t, op, a) && JoinMoves(s, k, op, k') && JoinAt(s0, s, k)
    requires k.pc == JoinGot || k.pc == JoinCounted
    ensures JoinAt(s0, a, k')
  {}

  lemma CheckStep(s0: State, s: State, t: CallId, k: Call, op: Op, k': Call, a: State)
    requires Does(s, t, op, a) && JoinMoves(s, k, op, k') && JoinAt(s0, s, k)
    requires k.pc == JoinFound || k.pc == JoinAllowed
    ensures JoinAt(s0, a, k')
  {}

  /** A room that was made for a refused join is empty, so a call that is not to delete it found it there. */
  lemma RefusedStep(s0: State, s: State, t: CallId, k: Call, op: Op, k': Call, a: State)
    requires Does(s, t, op, a) && JoinMoves(s, k, op, k') && JoinAt(s0, s, k)
    requires k.pc == JoinRefused
    ensures JoinAt(s0, a, k')
  {
    if !k.created {
      assert SameMembers(s0, a);
      SameMeansUnchanged(s0, a);
    }
  }

  lemma InsertStep(s0: State, s: State, t: CallId, k: Call, op: Op, k': Call, a: State)
    requires Does(s, t, op, a) && JoinMoves(s, k, op, k') && JoinAt(s0, s, k)
    requires k.pc == JoinListed || k.pc == JoinInserted || k.pc == JoinSnapped
    ensures JoinAt(s0, a, k')
  {}

  lemma EnteredAtLast(s0: State, s: State, k: Call)
    requires References(s0) && Located(s0, s, k, Occupants(s0, k.name) + {k.c})
    ensures s.rooms.Keys == s0.rooms.Keys + {k.name}
    ensures forall n :: Occupants(s, n) == Occupants(s0, n) + if n == k.name then {k.c} else {}
  {}

  lemma BumpStep(s0: State, s: State, t: CallId, k: Call, op: Op, k': Call, a: State)
    requires References(s0) && Does(s, t, op, a) && JoinMoves(s, k, op, k') && JoinAt(s0, s, k)
    requires k.pc == JoinUnlocked
    ensures JoinAt(s0, a, k')
  {
    EnteredAtLast(s0, a, k);
  }

  lemma UnmadeMeansUnchanged(s0: State, s: State, k: Call)
    requires References(s0) && Unmade(s0, s, k) && Still(s0, s)
    ensures Unchanged(s0, s)
  {
    assert forall n :: Occupants(s, n) == Occupants(s0, n);
  }

  lemma UnmakeLocks(s0: State, s: State, t: CallId, k: Call, op: Op, k': Call, a: State)
    requires Does(s, t, op, a) && DeleteMoves(s, k, op, k') && JoinAt(s0, s, k)
    requires k.pc == DelStart || k.pc == DelHasRooms
    ensures JoinAt(s0, a, k')
  {}

  lemma UnmakeUnlinks(s0: State, s: State, t: CallId, k: Call, op: Op, k': Call, a: State)
    requires Does(s, t, op, a) && DeleteMoves(s, k, op, k') && JoinAt(s0, s, k) && k.pc == DelHasBoth
    ensures JoinAt(s0, a, k')
  {
    assert s0.rooms[k.name := k.r] - {k.name} == s0.rooms;
  }

  lemma UnmakeReleases(s0: State, s: State, t: CallId, k: Call, op: Op, k': Call, a: State)
    requires References(s0) && Does(s, t, op, a) && DeleteMoves(s, k, op, k') && JoinAt(s0, s, k)
    requires k.pc == DelUnlinked || k.pc == DelDecided || k.pc == DelReleasing
    ensures JoinAt(s0, a, k')
  {
    assert Unmade(s0, a, k);
    UnmadeMeansUnchanged(s0, a, k);
  }

  lemma OfJoin(s: State, k: Call, op: Op, k': Call)
    requires JoinMoves(s, k, op, k')
    ensures !Leaving(k.pc) && !Deleting(k.pc) && k'.c == k.c && k'.name == k.name
  {}

  lemma OfLeave(s: State, k: Call, op: Op, k': Call)
    requires LeaveMoves(s, k, op, k')
    ensures Leaving(k.pc) && !Deleting(k.pc) && k'.c == k.c && (k.sweep == Single ==> k'.name == k.name)
  {}

  lemma OfDelete(s: State, k: Call, op: Op, k': Call)
    requires DeleteMoves(s, k, op, k')
    ensures Deleting(k.pc) && !Leaving(k.pc) && k'.c == k.c && k'.name == k.name
  {}

  /** The code that a call runs depends on where it is. */
  lemma WhoseMove(s: State, k: Call, op: Op, k': Call)
    requires Moves(s, k, op, k')
    ensures Deleting(k.pc) ==> DeleteMoves(s, k, op, k')
    ensures Leaving(k.pc) ==> LeaveMoves(s, k, op, k')
    ensures !Deleting(k.pc) && !Leaving(k.pc) ==> JoinMoves(s, k, op, k')
    ensures k'.c == k.c && (k.sweep == Single ==> k'.name == k.name)
  {
    if JoinMoves(s, k, op, k') {
      OfJoin(s, k, op, k');
    } else if LeaveMoves(s, k, op, k') {
      OfLeave(s, k, op, k');
    } else {
      OfDelete(s, k, op, k');
    }
  }

  lemma LookupStep(s0: State, s: State, t: CallId, k: Call, op: Op, k': Call, a: State)
    requires References(s0) && Does(s, t, op, a) && JoinMoves(s, k, op, k') && JoinAt(s0, s, k)
    requires k.pc.JoinStart? || k.pc.JoinKnown? || k.pc.JoinHasRooms? || k.pc.JoinGot? || k.pc.JoinCounted?
    requires k.pc.JoinKnown? ==> op != Read
    ensures JoinAt(s0, a, k')
  {
    if k.pc.JoinStart? || k.pc.JoinKnown? {
      StartStep(s0, s, t, k, op, k', a);
    } else if k.pc.JoinHasRooms? {
      FindStep(s0, s, t, k, op, k', a);
    } else {
      CountStep(s0, s, t, k, op, k', a);
    }
  }

  lemma LockedStep(s0: State, s: State, t: CallId, k: Call, op: Op, k': Call, a: State)
    requires References(s0) && Does(s, t, op, a) && JoinMoves(s, k, op, k') && JoinAt(s0, s, k)
    requires k.pc.JoinFound? || k.pc.JoinAllowed? || k.pc.JoinRefused?
          || k.pc.JoinListed? || k.pc.JoinInserted? || k.pc.JoinSnapped? || k.pc.JoinUnlocked?
    ensures JoinAt(s0, a, k')
  {
    if k.pc.JoinFound? || k.pc.JoinAllowed? {
      CheckStep(s0, s, t, k, op, k', a);
    } else if k.pc.JoinRefused? {
      RefusedStep(s0, s, t, k, op, k', a);
    } else if k.pc.JoinUnlocked? {
      BumpStep(s0, s, t, k, op, k', a);
    } else {
      InsertStep(s0, s, t, k, op, k', a);
    }
  }

  lemma UnmakeStep(s0: State, s: State, t: CallId, k: Call, op: Op, k': Call, a: State)
    requires References(s0) && Does(s, t, op, a) && DeleteMoves(s, k, op, k') && JoinAt(s0, s, k) && Deleting(k.pc)
    ensures JoinAt(s0, a, k')
  {
    if k.pc.DelStart? || k.pc.DelHasRooms? {
      UnmakeLocks(s0, s, t, k, op, k', a);
    } else if k.pc.DelHasBoth? {
      UnmakeUnlinks(s0, s, t, k, op, k', a);
    } else {
      UnmakeReleases(s0, s, t, k, op, k', a);
    }
  }

  lemma JoinStep(s0: State, s: State, t: CallId, k: Call, op: Op, k': Call, a: State)
    requires References(s0) && Does(s, t, op, a) && JoinMoves(s, k, op, k') && JoinAt(s0, s, k)
    requires !(k.pc == JoinKnown && op == Read)
    ensures JoinAt(s0, a, k')
  {
    if k.pc.JoinStart? || k.pc.JoinKnown? || k.pc.JoinHasRooms? || k.pc.JoinGot? || k.pc.JoinCounted? {
      LookupStep(s0, s, t, k, op, k', a);
    } else {
      LockedStep(s0, s, t, k, op, k', a);
    }
  }

  lemma JoinProceeds(s0: State, s: State, t: CallId, op: Op, k': Call, m: State)
    requires References(s0) && Proceeds(s, t, op, k', m) && JoinAt(s0, s, s.calls[t])
    ensures t < |m.calls| && m.calls[t] == k' && JoinAt(s0, m, k')
    ensures k'.c == s.calls[t].c && k'.name == s.calls[t].name
  {
    var k := s.calls[t];
    WhoseMove(s, k, op, k');
    SingleAt(s0, s, k);
    if Deleting(k.pc) {
      UnmakeStep(s0, s, t, k, op, k', m);
    } else {
      JoinStep(s0, s, t, k, op, k', m);
    }
  }

  lemma SingleAt(s0: State, s: State, k: Call)
    requires JoinAt(s0, s, k)
    ensures k.sweep == Single && !Leaving(k.pc)
  {}

  /** The join of this client and room, begun in state s0. */
  ghost function JoinsBy(s0: State, t: CallId, c: Client, name: string): State -> bool {
    (a: State) => t < |a.calls| && JoinAt(s0, a, a.calls[t]) && a.calls[t].c == c && a.calls[t].name == name
  }

  lemma JoinStaysBy(s0: State, t: CallId, c: Client, name: string, a: State, b: State)
    requires References(s0) && StepsOf(t)(a, b) && JoinsBy(s0, t, c, name)(a)
    ensures JoinsBy(s0, t, c, name)(b)
  {
    var op, k' :| Proceeds(a, t, op, k', b);
    JoinProceeds(s0, a, t, op, k', b);
  }

  lemma JoinBegins(s0: State, k: Call)
    requires k.pc == JoinStart && k.sweep == Single
    ensures JoinAt(s0, s0, k)
  {}

  lemma JoinEnds(s0: State, t: CallId, c: Client, name: string, s: State)
    requires JoinsBy(s0, t, c, name)(s) && s.calls[t].pc == Finished
    ensures if Refuses(s0, c, name) then Unchanged(s0, s) else Entered(s0, c, name, s)
  {}

  /**
    A join that is not vetoed and that nothing interferes with returns with the client in the room, if no
    reason speaks against it, and otherwise with everything as it was.
   */
  lemma LoneJoinAnswers(s: State, t: CallId, n: nat, s': State)
    requires References(s) && t < |s.calls| && s.calls[t].pc == JoinStart && s.calls[t].sweep == Single
    requires Alone(s, t, n, s') && t < |s'.calls| && s'.calls[t].pc == Finished
    ensures var c, name := s.calls[t].c, s.calls[t].name;
            if Refuses(s, c, name) then Unchanged(s, s') else Entered(s, c, name, s')
  {
    var c, name := s.calls[t].c, s.calls[t].name;
    var inv := JoinsBy(s, t, c, name);
    JoinBegins(s, s.calls[t]);
    forall a, b | StepsOf(t)(a, b) && inv(a)
      ensures inv(b)
    {
      JoinStaysBy(s, t, c, name, a, b);
    }
    ReachesKeeps(StepsOf(t), inv, s, n, s');
    JoinEnds(s, t, c, name, s');
  }

  // ---------------------------------------------------------------- leaving

  /** The reasons of LeaveRoom to refuse. */
  ghost predicate NotThere(s: State, c: Client, name: string) {
    name == "" || name !in s.rooms || c !in Occupants(s, name)
  }

  /**
    Client c is no longer in the room and does not list it; the room is gone with its last member, and the
    room version counts it; the rest is as before.
   */
  ghost predicate Departed(s: State, c: Client, name: string, s': State) {
    && s'.rooms.Keys == (if Occupants(s, name) == {c} then s.rooms.Keys - {name} else s.rooms.Keys)
    && (forall n :: Occupants(s', n) == Occupants(s, n) - if n == name then {c} else {})
    && s'.listed == s.listed[c := RoomsOf(s, c) - {name}] && s'.version == s.version + 1
  }

  /** Call k has found the room, which has these members now; all other rooms are as they were. */
  ghost predicate FoundRoom(s0: State, s: State, k: Call, members: set<Client>) {
    && !NotThere(s0, k.c, k.name) && k.r == s0.rooms[k.name] && |s.objs| == |s0.objs|
    && k.r < |s.objs| && s.objs[k.r].members == members
    && forall r :: 0 <= r < |s0.objs| && r != k.r ==> s.objs[r].members == s0.objs[r].members
  }

  ghost predicate Unlisted(s0: State, s: State, k: Call, version: nat) {
    s.listed == s0.listed[k.c := RoomsOf(s0, k.c) - {k.name}] && s.version == version
  }

  ghost predicate Unlinked(s0: State, s: State, k: Call) {
    Occupants(s0, k.name) == {k.c} && s.rooms == s0.rooms - {k.name}
  }

  /** What has become of the state s0 in which a lone leave started, by where the leave is. */
  ghost predicate LeaveAt(s0: State, s: State, k: Call) {
    var was := Occupants(s0, k.name);
    k.sweep == Single &&
    match k.pc
    case LeaveStart => Still(s0, s) && SameMembers(s0, s)
    case LeaveFound =>
      Still(s0, s) && SameMembers(s0, s) && k.name != "" && k.name in s0.rooms && k.r == s0.rooms[k.name]
    case LeaveSeen | LeaveRechecking => Still(s0, s) && s.rooms == s0.rooms && FoundRoom(s0, s, k, was)
    case LeaveRemoved | LeaveSnapped => Still(s0, s) && s.rooms == s0.rooms && FoundRoom(s0, s, k, was - {k.c})
    case LeaveUnlisted =>
      s.rooms == s0.rooms && FoundRoom(s0, s, k, was - {k.c}) && Unlisted(s0, s, k, s0.version)
    case LeaveCounted =>
      && s.rooms == s0.rooms && FoundRoom(s0, s, k, was - {k.c}) && Unlisted(s0, s, k, s0.version + 1)
      && k.empty == (was - {k.c} == {})
    case DelStart | DelHasRooms | DelHasBoth =>
      s.rooms == s0.rooms && FoundRoom(s0, s, k, {}) && was == {k.c} && Unlisted(s0, s, k, s0.version + 1)
    case DelUnlinked | DelDecided | DelReleasing =>
      Unlinked(s0, s, k) && FoundRoom(s0, s, k, {}) && Unlisted(s0, s, k, s0.version + 1)
    case Finished => if NotThere(s0, k.c, k.name) then Unchanged(s0, s) else Departed(s0, k.c, k.name, s)
    case _ => false
  }

  lemma SeeStep(s0: State, s: State, t: CallId, k: Call, op: Op, k': Call, a: State)
    requires References(s0) && Does(s, t, op, a) && LeaveMoves(s, k, op, k') && LeaveAt(s0, s, k)
    requires k.pc == LeaveStart || k.pc == LeaveFound
    ensures LeaveAt(s0, a, k')
  {
    if k'.pc == Finished {
      SameMeansUnchanged(s0, a);
    }
  }

  lemma RemoveStep(s0: State, s: State, t: CallId, k: Call, op: Op, k': Call, a: State)
    requires References(s0) && Does(s, t, op, a) && LeaveMoves(s, k, op, k') && LeaveAt(s0, s, k)
    requires k.pc == LeaveSeen || k.pc == LeaveRechecking || k.pc == LeaveRemoved
    ensures LeaveAt(s0, a, k')
  {}

  lemma UnlistStep(s0: State, s: State, t: CallId, k: Call, op: Op, k': Call, a: State)
    requires References(s0) && Does(s, t, op, a) && LeaveMoves(s, k, op, k') && LeaveAt(s0, s, k)
    requires k.pc == LeaveSnapped || k.pc == LeaveUnlisted
    ensures LeaveAt(s0, a, k')
  {}

  /** The room as the leave found it had the client and perhaps others. */
  lemma DepartedAtLast(s0: State, s: State, k: Call)
    requires References(s0) && FoundRoom(s0, s, k, Occupants(s0, k.name) - {k.c})
    requires Unlinked(s0, s, k) || (s.rooms == s0.rooms && Occupants(s0, k.name) - {k.c} != {})
    requires Unlisted(s0, s, k, s0.version + 1)
    ensures Departed(s0, k.c, k.name, s)
  {
    assert forall n :: Occupants(s, n) == Occupants(s0, n) - if n == k.name then {k.c} else {};
  }

  lemma LeaveUnlocks(s0: State, s: State, t: CallId, k: Call, op: Op, k': Call, a: State)
    requires References(s0) && Does(s, t, op, a) && LeaveMoves(s, k, op, k') && LeaveAt(s0, s, k)
    requires k.pc == LeaveCounted
    ensures LeaveAt(s0, a, k')
  {
    if !k.empty {
      DepartedAtLast(s0, a, k);
    } else {
      assert forall c :: c in Occupants(s0, k.name) ==> c == k.c || c in Occupants(s0, k.name) - {k.c};
    }
  }

  lemma DeleteLocks(s0: State, s: State, t: CallId, k: Call, op: Op, k': Call, a: State)
    requires Does(s, t, op, a) && DeleteMoves(s, k, op, k') && LeaveAt(s0, s, k)
    requires k.pc == DelStart || k.pc == DelHasRooms
    ensures LeaveAt(s0, a, k')
  {}

  lemma DeleteUnlinks(s0: State, s: State, t: CallId, k: Call, op: Op, k': Call, a: State)
    requires Does(s, t, op, a) && DeleteMoves(s, k, op, k') && LeaveAt(s0, s, k) && k.pc == DelHasBoth
    ensures LeaveAt(s0, a, k')
  {}

  lemma DeleteReleases(s0: State, s: State, t: CallId, k: Call, op: Op, k': Call, a: State)
    requires Does(s, t, op, a) && DeleteMoves(s, k, op, k') && LeaveAt(s0, s, k)
    requires k.pc == DelUnlinked || k.pc == DelDecided
    ensures LeaveAt(s0, a, k')
  {}

  lemma DeleteEnds(s0: State, s: State, t: CallId, k: Call, op: Op, k': Call, a: State)
    requires References(s0) && Does(s, t, op, a) && DeleteMoves(s, k, op, k') && LeaveAt(s0, s, k)
    requires k.pc == DelReleasing
    ensures LeaveAt(s0, a, k')
  {
    assert Occupants(s0, k.name) - {k.c} == {};
    DepartedAtLast(s0, a, k);
  }

  lemma LeaveStep(s0: State, s: State, t: CallId, k: Call, op: Op, k': Call, a: State)
    requires References(s0) && Does(s, t, op, a) && LeaveMoves(s, k, op, k') && LeaveAt(s0, s, k)
    ensures LeaveAt(s0, a, k')
  {
    if k.pc.LeaveStart? || k.pc.LeaveFound? {
      SeeStep(s0, s, t, k, op, k', a);
    } else if k.pc.LeaveSeen? || k.pc.LeaveRechecking? || k.pc.LeaveRemoved? {
      RemoveStep(s0, s, t, k, op, k', a);
    } else if k.pc.LeaveSnapped? || k.pc.LeaveUnlisted? {
      UnlistStep(s0, s, t, k, op, k', a);
    } else {
      LeaveUnlocks(s0, s, t, k, op, k', a);
    }
  }

  lemma DeleteStep(s0: State, s: State, t: CallId, k: Call, op: Op, k': Call, a: State)
    requires References(s0) && Does(s, t, op, a) && DeleteMoves(s, k, op, k') && LeaveAt(s0, s, k)
    ensures LeaveAt(s0, a, k')
  {
    if k.pc.DelStart? || k.pc.DelHasRooms? {
      DeleteLocks(s0, s, t, k, op, k', a);
    } else if k.pc.DelHasBoth? {
      DeleteUnlinks(s0, s, t, k, op, k', a);
    } else if k.pc.DelReleasing? {
      DeleteEnds(s0, s, t, k, op, k', a);
    } else {
      DeleteReleases(s0, s, t, k, op, k', a);
    }
  }

  lemma InLeave(s0: State, s: State, k: Call)
    requires LeaveAt(s0, s, k)
    ensures k.sweep == Single && (Leaving(k.pc) || Deleting(k.pc) || k.pc == Finished)
  {}

  lemma FinishedIsOver(s: State, k: Call, op: Op, k': Call)
    requires Moves(s, k, op, k')
    ensures k.pc != Finished
  {
    WhoseMove(s, k, op, k');
  }

  lemma LeaveProceeds(s0: State, s: State, t: CallId, op: Op, k': Call, m: State)
    requires References(s0) && Proceeds(s, t, op, k', m) && LeaveAt(s0, s, s.calls[t])
    ensures t < |m.calls| && m.calls[t] == k' && LeaveAt(s0, m, k')
    ensures k'.c == s.calls[t].c && k'.name == s.calls[t].name
  {
    var k := s.calls[t];
    WhoseMove(s, k, op, k');
    InLeave(s0, s, k);
    FinishedIsOver(s, k, op, k');
    if Deleting(k.pc) {
      DeleteStep(s0, s, t, k, op, k', m);
    } else {
      LeaveStep(s0, s, t, k, op, k', m);
    }
  }

  /** The leave of this client and room, begun in state s0. */
  ghost function LeavesBy(s0: State, t: CallId, c: Client, name: string): State -> bool {
    (a: State) => t < |a.calls| && LeaveAt(s0, a, a.calls[t]) && a.calls[t].c == c && a.calls[t].name == name
  }

  lemma LeaveStaysBy(s0: State, t: CallId, c: Client, name: string, a: State, b: State)
    requires References(s0) && StepsOf(t)(a, b) && LeavesBy(s0, t, c, name)(a)
    ensures LeavesBy(s0, t, c, name)(b)
  {
    var op, k' :| Proceeds(a, t, op, k', b);
    LeaveProceeds(s0, a, t, op, k', b);
  }

  lemma LeaveBegins(s0: State, k: Call)
    requires k.pc == LeaveStart && k.sweep == Single
    ensures LeaveAt(s0, s0, k)
  {}

  lemma LeaveEnds(s0: State, t: CallId, c: Client, name: string, s: State)
    requires LeavesBy(s0, t, c, name)(s) && s.calls[t].pc == Finished
    ensures if NotThere(s0, c, name) then Unchanged(s0, s) else Departed(s0, c, name, s)
  {}

  /**
    A leave that nothing interferes with returns with the client out of the room, and the room gone if it was
    the last, if it was there, and otherwise with everything as it was.
   */
  lemma LoneLeaveAnswers(s: State, t: CallId, n: nat, s': State)
    requires References(s) && t < |s.calls| && s.calls[t].pc == LeaveStart && s.calls[t].sweep == Single
    requires Alone(s, t, n, s') && t < |s'.calls| && s'.calls[t].pc == Finished
    ensures var c, name := s.calls[t].c, s.calls[t].name;
            if NotThere(s, c, name) then Unchanged(s, s') else Departed(s, c, name, s')
  {
    var c, name := s.calls[t].c, s.calls[t].name;
    var inv := LeavesBy(s, t, c, name);
    LeaveBegins(s, s.calls[t]);
    forall a, b | StepsOf(t)(a, b) && inv(a)
      ensures inv(b)
    {
      LeaveStaysBy(s, t, c, name, a, b);
    }
    ReachesKeeps(StepsOf(t), inv, s, n, s');
    LeaveEnds(s, t, c, name, s');
  }
}
