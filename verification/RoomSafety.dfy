/** What every interleaving of the room protocol keeps. */
module RoomSafety {
  import opened Options
  import opened Totals
  import opened RoomProtocol

  // ---------------------------------------------------------------- what a program counter means

  ghost predicate HoldsRoom(pc: Pc) {
    match pc
    case JoinAllowed | JoinRefused | JoinListed | JoinInserted | JoinSnapped => true
    case LeaveRechecking | LeaveGone | LeaveRemoved | LeaveSnapped | LeaveUnlisted | LeaveCounted => true
    case DelHasBoth | DelUnlinked | DelDecided => true
    case _ => false
  }

  ghost predicate HoldsRooms(pc: Pc) {
    match pc
    case JoinHasRooms | JoinGot | JoinCounted => true
    case DelHasRooms | DelHasBoth | DelUnlinked | DelDecided | DelReleasing => true
    case _ => false
  }

  /** The local variable r refers to a room object named k.name. */
  ghost predicate HasRoom(pc: Pc) {
    match pc
    case JoinGot | JoinCounted | JoinFound | LeaveFound | LeaveSeen | DelStart | DelHasRooms => true
    case _ => HoldsRoom(pc)
  }

  /** Between changing the members of the room it holds and rebuilding that room's snapshot. */
  ghost predicate Rebuilding(pc: Pc) {
    pc == JoinInserted || pc == LeaveRemoved
  }

  /** Between rebuilding a snapshot and the bump of roomVersion that belongs to it (a sweep bumps once, at its end). */
  ghost predicate OwesOne(k: Call) {
    match k.pc
    case JoinSnapped | JoinUnlocked | LeaveSnapped | LeaveUnlisted => true
    case LeaveCounted => k.sweep.All?
    case _ => false
  }

  /** How many snapshot changes this call still has to add to roomVersion. */
  ghost function Unbumped(k: Call): nat {
    (if OwesOne(k) then 1 else 0) + (if k.sweep.All? then |k.sweep.left| else 0)
  }

  /**
    The call answers for room r being empty: it created r and has not yet settled whether its own
    client goes in, or it emptied r or found it empty and deleteRoomIfEmpty has still to decide.
   */
  ghost predicate AnswersFor(k: Call, r: RoomId) {
    && k.r == r
    && match k.pc
       case JoinGot | JoinCounted | JoinFound | JoinAllowed | JoinRefused | JoinListed => k.created
       case LeaveRemoved | LeaveSnapped | LeaveUnlisted | LeaveCounted => true
       case DelStart | DelHasRooms | DelHasBoth => true
       case _ => false
  }

  // ---------------------------------------------------------------- the invariant

  ghost predicate References(s: State) {
    && (forall t :: 0 <= t < |s.calls| && HasRoom(s.calls[t].pc) ==>
          s.calls[t].r < |s.objs| && s.objs[s.calls[t].r].name == s.calls[t].name)
    && (forall n :: n in s.rooms ==> s.rooms[n] < |s.objs| && s.objs[s.rooms[n]].name == n)
  }

  /** A call is inside room r's locked section exactly when r's mutex names it. */
  ghost predicate RoomLocks(s: State) {
    && (forall r, t :: 0 <= r < |s.objs| && 0 <= t < |s.calls| ==>
          (s.objs[r].mu == Some(t) <==> HoldsRoom(s.calls[t].pc) && s.calls[t].r == r))
    && (forall r :: 0 <= r < |s.objs| && s.objs[r].mu.Some? ==> s.objs[r].mu.value < |s.calls|)
  }

  ghost predicate RoomsLock(s: State) {
    && (forall t :: 0 <= t < |s.calls| ==> (s.roomsMu == Some(t) <==> HoldsRooms(s.calls[t].pc)))
    && (s.roomsMu.Some? ==> s.roomsMu.value < |s.calls| && !s.publisher.Gathering?)
  }

  /** Room r's snapshot lists its members, unless a call holding r is about to rebuild it. */
  ghost predicate Snapshots(s: State) {
    forall r :: 0 <= r < |s.objs| ==>
      || Enumerates(s.objs[r].snapshot, s.objs[r].members)
      || (s.objs[r].mu.Some? && s.objs[r].mu.value < |s.calls| && Rebuilding(s.calls[s.objs[r].mu.value].pc))
  }

  ghost predicate MembersFit(s: State) {
    s.limits.maxClientsPerRoom > 0 ==>
      forall r :: 0 <= r < |s.objs| ==> |s.objs[r].members| <= s.limits.maxClientsPerRoom
  }

  /** A join that passed the size check still has its place while it holds the room. */
  ghost predicate JoinersFit(s: State) {
    s.limits.maxClientsPerRoom > 0 ==>
      forall t :: 0 <= t < |s.calls| && (s.calls[t].pc == JoinAllowed || s.calls[t].pc == JoinListed) ==>
        |Members(s, s.calls[t].r)| < s.limits.maxClientsPerRoom
  }

  ghost predicate RoomSizes(s: State) {
    MembersFit(s) && JoinersFit(s)
  }

  ghost predicate RoomLimits(s: State) {
    s.limits.maxRoomsPerClient > 0 ==> forall c :: c in s.listed ==> |s.listed[c]| <= s.limits.maxRoomsPerClient
  }

  /** The emptiness a leaving call noted is still true while it holds the room. */
  ghost predicate Emptiness(s: State) {
    forall t :: 0 <= t < |s.calls| && s.calls[t].pc == LeaveCounted ==>
      s.calls[t].empty == (Members(s, s.calls[t].r) == {})
  }

  ghost predicate Answered(s: State, r: RoomId) {
    exists t :: 0 <= t < |s.calls| && AnswersFor(s.calls[t], r)
  }

  /** Every empty room in h.rooms has a call in flight that answers for it. */
  ghost predicate NoLeak(s: State) {
    forall n :: n in s.rooms && Members(s, s.rooms[n]) == {} ==> Answered(s, s.rooms[n])
  }

  /** Room objects linked or unlinked whose metric has not been recorded yet. */
  ghost function Uncounted(s: State): int {
    if s.roomsMu.Some? && s.roomsMu.value < |s.calls| then
      var pc := s.calls[s.roomsMu.value].pc;
      if pc == JoinGot then 1 else if pc == DelUnlinked then -1 else 0
    else 0
  }

  ghost predicate Metrics(s: State) {
    s.incremented - s.decremented + Uncounted(s) == |s.rooms|
  }

  ghost predicate Versions(s: State) {
    s.changes == s.version + Total(Unbumped, s.calls)
  }

  ghost predicate Inv(s: State) {
    && References(s) && RoomLocks(s) && RoomsLock(s) && Snapshots(s) && RoomSizes(s) && RoomLimits(s)
    && Emptiness(s) && NoLeak(s) && Metrics(s) && Versions(s)
  }

  lemma InitInv(s: State)
    requires Init(s)
    ensures Inv(s)
  {}

  // ---------------------------------------------------------------- facts about one move

  ghost predicate RoomLockFacts(k: Call, op: Op, k': Call) {
    && HoldsRoom(k'.pc) == (op.LockRoom? || (!op.UnlockRoom? && HoldsRoom(k.pc)))
    && (HoldsRoom(k.pc) || HoldsRoom(k'.pc) ==> k'.r == k.r)
    && (op.LockRoom? ==> !HoldsRoom(k.pc) && op.r == k.r)
    && (op.UnlockRoom? || op.SetMembers? || op.StoreSnapshot? ==> HoldsRoom(k.pc) && op.r == k.r)
  }

  ghost predicate RoomsLockFacts(k: Call, op: Op, k': Call) {
    && HoldsRooms(k'.pc) == (op.LockRooms? || (!op.UnlockRooms? && HoldsRooms(k.pc)))
    && (op.UnlockRooms? || op.Create? || op.Unlink? || op.CountRoom? ==> HoldsRooms(k.pc))
    && (op.LockRooms? ==> !HoldsRooms(k.pc))
  }

  ghost predicate RoomFacts(s: State, k: Call, op: Op, k': Call) {
    HasRoom(k'.pc) ==>
      || (HasRoom(k.pc) && k'.r == k.r && k'.name == k.name)
      || (op == Read && k'.name in s.rooms && k'.r == s.rooms[k'.name])
      || (op == Create(k'.name) && k'.r == |s.objs|)
  }

  ghost predicate DebtFacts(k: Call, op: Op, k': Call) {
    Unbumped(k') == Unbumped(k) + (if op.StoreSnapshot? then 1 else 0) - (if op.Bump? then op.n else 0)
  }

  ghost predicate SnapshotFacts(s: State, k: Call, op: Op, k': Call) {
    && (op.SetMembers? ==> Rebuilding(k'.pc))
    && (op.StoreSnapshot? ==> Enumerates(op.snapshot, Members(s, op.r)))
    && (Rebuilding(k.pc) ==> op.StoreSnapshot?)
  }

  ghost predicate SizeFacts(s: State, k: Call, op: Op, k': Call) {
    && (op.SetMembers? ==>
          (k.pc == JoinListed && op.members == Members(s, op.r) + {k.c}) || op.members <= Members(s, op.r))
    && (k'.pc == JoinAllowed ==> op == LockRoom(k'.r) && !RoomFull(s.limits, Members(s, k'.r)))
    && (k'.pc == JoinListed ==> k.pc == JoinAllowed && k'.r == k.r && op.SetListed?)
    && (op.SetListed? ==>
          (|op.names| <= |RoomsOf(s, op.c)| + 1 && !AtRoomLimit(s, op.c)) || op.names <= RoomsOf(s, op.c))
  }

  ghost predicate MetricFacts(s: State, k: Call, op: Op, k': Call) {
    && (op.Create? <==> k'.pc == JoinGot) && (op.Create? ==> op.name !in s.rooms)
    && (op.Unlink? <==> k'.pc == DelUnlinked) && (op.Unlink? ==> op.name in s.rooms)
    && (op == CountRoom(true) <==> k.pc == JoinGot)
    && (op == CountRoom(false) <==> k.pc == DelUnlinked)
  }

  /** A call becomes answerable when it empties or links a room. */
  ghost predicate AnswerStarts(s: State, k: Call, op: Op, k': Call) {
    && (op.SetMembers? && op.members == {} ==> AnswersFor(k', op.r))
    && (op.Create? ==> AnswersFor(k', |s.objs|))
    && (k'.pc == LeaveCounted ==>
          HasRoom(k.pc) && !op.SetMembers? && k'.r == k.r && k'.empty == (Members(s, k'.r) == {}))
  }

  /** It stops only once the room is safe. */
  ghost predicate AnswerEnds(s: State, k: Call, op: Op, k': Call) {
    AnswersFor(k, k.r) ==>
      || AnswersFor(k', k.r)
      || op == Unlink(k.name)
      || (op.SetMembers? && op.r == k.r && op.members != {})
      || (!op.SetMembers? && Members(s, k.r) != {})
      || (k.pc == DelHasBoth && !op.Create? && !(k.name in s.rooms && s.rooms[k.name] == k.r))
      || (k.pc == LeaveCounted && op.UnlockRoom? && !k.empty)
  }

  ghost predicate AnswerFacts(s: State, k: Call, op: Op, k': Call) {
    AnswerStarts(s, k, op, k') && AnswerEnds(s, k, op, k')
  }

  lemma JoinRoomLocks(s: State, k: Call, op: Op, k': Call)
    requires JoinMoves(s, k, op, k')
    ensures RoomLockFacts(k, op, k')
  {}

  lemma JoinRoomsLocks(s: State, k: Call, op: Op, k': Call)
    requires JoinMoves(s, k, op, k')
    ensures RoomsLockFacts(k, op, k')
  {}

  lemma JoinRooms(s: State, k: Call, op: Op, k': Call)
    requires JoinMoves(s, k, op, k')
    ensures RoomFacts(s, k, op, k') && SnapshotFacts(s, k, op, k')
  {}

  lemma JoinDebts(s: State, k: Call, op: Op, k': Call)
    requires JoinMoves(s, k, op, k')
    ensures DebtFacts(k, op, k')
  {}

  lemma JoinSizes(s: State, k: Call, op: Op, k': Call)
    requires JoinMoves(s, k, op, k')
    ensures SizeFacts(s, k, op, k')
  {}

  lemma JoinMetrics(s: State, k: Call, op: Op, k': Call)
    requires JoinMoves(s, k, op, k')
    ensures MetricFacts(s, k, op, k')
  {}

  lemma JoinAnswerStarts(s: State, k: Call, op: Op, k': Call)
    requires JoinMoves(s, k, op, k')
    ensures AnswerStarts(s, k, op, k')
  {}

  lemma JoinAnswerEnds(s: State, k: Call, op: Op, k': Call)
    requires JoinMoves(s, k, op, k')
    ensures AnswerEnds(s, k, op, k')
  {}

  lemma LeaveRoomLocks(s: State, k: Call, op: Op, k': Call)
    requires LeaveMoves(s, k, op, k')
    ensures RoomLockFacts(k, op, k')
  {}

  lemma LeaveRoomsLocks(s: State, k: Call, op: Op, k': Call)
    requires LeaveMoves(s, k, op, k')
    ensures RoomsLockFacts(k, op, k')
  {}

  lemma LeaveRooms(s: State, k: Call, op: Op, k': Call)
    requires LeaveMoves(s, k, op, k')
    ensures RoomFacts(s, k, op, k') && SnapshotFacts(s, k, op, k')
  {}

  lemma LeaveDebts(s: State, k: Call, op: Op, k': Call)
    requires LeaveMoves(s, k, op, k')
    ensures DebtFacts(k, op, k')
  {}

  lemma LeaveSizes(s: State, k: Call, op: Op, k': Call)
    requires LeaveMoves(s, k, op, k')
    ensures SizeFacts(s, k, op, k')
  {}

  lemma LeaveMetrics(s: State, k: Call, op: Op, k': Call)
    requires LeaveMoves(s, k, op, k')
    ensures MetricFacts(s, k, op, k')
  {}

  lemma LeaveAnswerStarts(s: State, k: Call, op: Op, k': Call)
    requires LeaveMoves(s, k, op, k')
    ensures AnswerStarts(s, k, op, k')
  {}

  lemma LeaveAnswerEnds(s: State, k: Call, op: Op, k': Call)
    requires LeaveMoves(s, k, op, k')
    ensures AnswerEnds(s, k, op, k')
  {}

  lemma DeleteLocks(s: State, k: Call, op: Op, k': Call)
    requires DeleteMoves(s, k, op, k')
    ensures RoomLockFacts(k, op, k') && RoomsLockFacts(k, op, k')
  {}

  lemma DeleteRooms(s: State, k: Call, op: Op, k': Call)
    requires DeleteMoves(s, k, op, k')
    ensures RoomFacts(s, k, op, k') && SnapshotFacts(s, k, op, k')
  {}

  lemma DeleteDebts(s: State, k: Call, op: Op, k': Call)
    requires DeleteMoves(s, k, op, k')
    ensures DebtFacts(k, op, k')
  {}

  lemma DeleteSizes(s: State, k: Call, op: Op, k': Call)
    requires DeleteMoves(s, k, op, k')
    ensures SizeFacts(s, k, op, k')
  {}

  lemma DeleteMetrics(s: State, k: Call, op: Op, k': Call)
    requires DeleteMoves(s, k, op, k')
    ensures MetricFacts(s, k, op, k')
  {}

  lemma DeleteAnswers(s: State, k: Call, op: Op, k': Call)
    requires DeleteMoves(s, k, op, k')
    ensures AnswerFacts(s, k, op, k')
  {}

  lemma MoveFacts(s: State, k: Call, op: Op, k': Call)
    requires Moves(s, k, op, k')
    ensures RoomLockFacts(k, op, k') && RoomsLockFacts(k, op, k')
    ensures RoomFacts(s, k, op, k') && SnapshotFacts(s, k, op, k')
    ensures DebtFacts(k, op, k')
    ensures SizeFacts(s, k, op, k')
    ensures MetricFacts(s, k, op, k')
    ensures AnswerFacts(s, k, op, k')
  {
    if JoinMoves(s, k, op, k') {
      JoinRoomLocks(s, k, op, k');
      JoinRoomsLocks(s, k, op, k');
      JoinRooms(s, k, op, k');
      JoinDebts(s, k, op, k');
      JoinSizes(s, k, op, k');
      JoinMetrics(s, k, op, k');
      JoinAnswerStarts(s, k, op, k');
      JoinAnswerEnds(s, k, op, k');
    } else if LeaveMoves(s, k, op, k') {
      LeaveRoomLocks(s, k, op, k');
      LeaveRoomsLocks(s, k, op, k');
      LeaveRooms(s, k, op, k');
      LeaveDebts(s, k, op, k');
      LeaveSizes(s, k, op, k');
      LeaveMetrics(s, k, op, k');
      LeaveAnswerStarts(s, k, op, k');
      LeaveAnswerEnds(s, k, op, k');
    } else {
      DeleteLocks(s, k, op, k');
      DeleteRooms(s, k, op, k');
      DeleteDebts(s, k, op, k');
      DeleteSizes(s, k, op, k');
      DeleteMetrics(s, k, op, k');
      DeleteAnswers(s, k, op, k');
    }
  }

  // ---------------------------------------------------------------- one step keeps the invariant

  /** Room objects stay and keep their names; the only new one is the one being created. */
  lemma ObjectsKept(s: State, t: CallId, op: Op)
    requires Enabled(s, op)
    ensures |s.objs| <= |Perform(s, t, op).objs|
    ensures forall r :: 0 <= r < |s.objs| ==> Perform(s, t, op).objs[r].name == s.objs[r].name
    ensures op.Create? ==> |Perform(s, t, op).objs| == |s.objs| + 1 && Perform(s, t, op).objs[|s.objs|].name == op.name
  {}

  lemma ReferencesKept(s: State, t: CallId, op: Op, k': Call, s': State)
    requires References(s) && Accesses(s, t, op, k', s') && RoomFacts(s, s.calls[t], op, k')
    ensures References(s')
  {
    ObjectsKept(s, t, op);
    assert s'.objs == Perform(s, t, op).objs;
    assert s'.rooms == s.rooms || (op.Create? && s'.rooms == s.rooms[op.name := |s.objs|])
        || (op.Unlink? && s'.rooms == s.rooms - {op.name});
  }

  /** Only locking and unlocking touch a mutex, and only that of the room named; a new room's is free. */
  ghost predicate MutexesFollow(s: State, t: CallId, op: Op, s': State) {
    && |s.objs| <= |s'.objs|
    && forall r :: 0 <= r < |s'.objs| ==>
         s'.objs[r].mu == if op == LockRoom(r) then Some(t) else if op == UnlockRoom(r) then None
                          else if r < |s.objs| then s.objs[r].mu else None
  }

  lemma MutexesKept(s: State, t: CallId, op: Op, k': Call, s': State)
    requires Accesses(s, t, op, k', s')
    ensures MutexesFollow(s, t, op, s') && (op.LockRoom? ==> RoomFree(s, op.r))
  {}

  lemma LocksFollow(s: State, t: CallId, op: Op, s': State)
    requires References(s) && RoomLocks(s) && t < |s.calls| == |s'.calls| && MutexesFollow(s, t, op, s')
    requires forall u :: 0 <= u < |s.calls| && u != t ==> s'.calls[u] == s.calls[u]
    requires RoomLockFacts(s.calls[t], op, s'.calls[t]) && (op.LockRoom? ==> RoomFree(s, op.r))
    ensures RoomLocks(s')
  {}

  lemma RoomLocksKept(s: State, t: CallId, op: Op, k': Call, s': State)
    requires References(s) && RoomLocks(s) && Accesses(s, t, op, k', s') && RoomLockFacts(s.calls[t], op, k')
    ensures RoomLocks(s')
  {
    MutexesKept(s, t, op, k', s');
    LocksFollow(s, t, op, s');
  }

  lemma RoomsLockKept(s: State, t: CallId, op: Op, k': Call, s': State)
    requires RoomsLock(s) && Accesses(s, t, op, k', s') && RoomsLockFacts(s.calls[t], op, k')
    ensures RoomsLock(s')
  {}

  /** A step changes at most the room it names, or adds an empty one. */
  ghost predicate RoomsFollow(s: State, op: Op, s': State) {
    && |s.objs| <= |s'.objs|
    && (forall r :: 0 <= r < |s.objs| && !Names(op, r) ==> s'.objs[r] == s.objs[r])
    && (forall r :: |s.objs| <= r < |s'.objs| ==> s'.objs[r].members == {} && s'.objs[r].snapshot == [])
  }

  ghost predicate Names(op: Op, r: RoomId) {
    (op.LockRoom? || op.UnlockRoom? || op.SetMembers? || op.StoreSnapshot?) && op.r == r
  }

  lemma RoomsKept(s: State, t: CallId, op: Op, k': Call, s': State)
    requires Accesses(s, t, op, k', s')
    ensures RoomsFollow(s, op, s')
  {}

  /** The room that the step names. */
  lemma OwnSnapshotKept(s: State, t: CallId, op: Op, k': Call, s': State, r: RoomId)
    requires RoomLocks(s) && Snapshots(s) && Accesses(s, t, op, k', s') && Names(op, r) && r < |s.objs|
    requires RoomLockFacts(s.calls[t], op, k') && SnapshotFacts(s, s.calls[t], op, k')
    ensures r < |s'.objs|
    ensures Enumerates(s'.objs[r].snapshot, s'.objs[r].members) || (s'.objs[r].mu == Some(t) && Rebuilding(k'.pc))
  {
  }

  lemma SnapshotsKept(s: State, t: CallId, op: Op, k': Call, s': State)
    requires RoomLocks(s) && Snapshots(s) && Accesses(s, t, op, k', s')
    requires RoomLockFacts(s.calls[t], op, k') && SnapshotFacts(s, s.calls[t], op, k')
    ensures Snapshots(s')
  {
    RoomsKept(s, t, op, k', s');
    forall r: RoomId | r < |s'.objs| && Names(op, r) && r < |s.objs|
      ensures Enumerates(s'.objs[r].snapshot, s'.objs[r].members) || (s'.objs[r].mu == Some(t) && Rebuilding(k'.pc))
    {
      OwnSnapshotKept(s, t, op, k', s', r);
    }
  }

  lemma VersionsKept(s: State, t: CallId, op: Op, k': Call, s': State)
    requires Versions(s) && Accesses(s, t, op, k', s') && DebtFacts(s.calls[t], op, k')
    ensures Versions(s')
  {
    TotalUpdate(Unbumped, s.calls, t, k');
  }

  lemma SubsetSize<T>(small: set<T>, big: set<T>)
    requires small <= big
    ensures |small| <= |big|
  {
    assert big == small + (big - small);
  }

  lemma MembersFitKept(s: State, t: CallId, op: Op, k': Call, s': State)
    requires RoomSizes(s) && Accesses(s, t, op, k', s')
    requires RoomLockFacts(s.calls[t], op, k') && SizeFacts(s, s.calls[t], op, k')
    ensures MembersFit(s')
  {
    if op.SetMembers? && op.members <= Members(s, op.r) {
      SubsetSize(op.members, Members(s, op.r));
    }
  }

  /** Nobody else changes the members of a room that a call holds. */
  lemma HeldRoomKept(s: State, t: CallId, op: Op, k': Call, s': State, u: CallId)
    requires RoomLocks(s) && Accesses(s, t, op, k', s') && RoomLockFacts(s.calls[t], op, k')
    requires u < |s.calls| && u != t && HoldsRoom(s.calls[u].pc)
    ensures Members(s', s.calls[u].r) == Members(s, s.calls[u].r)
  {
    MembersKept(s, t, op, k', s', s.calls[u].r);
  }

  lemma MembersKept(s: State, t: CallId, op: Op, k': Call, s': State, r: RoomId)
    requires Accesses(s, t, op, k', s') && !(op.SetMembers? && op.r == r)
    ensures Members(s', r) == Members(s, r)
  {}

  ghost predicate HeldRoomsKept(s: State, t: CallId, s': State) {
    forall u :: 0 <= u < |s.calls| && u != t && HoldsRoom(s.calls[u].pc) ==>
      Members(s', s.calls[u].r) == Members(s, s.calls[u].r)
  }

  lemma AllHeldRoomsKept(s: State, t: CallId, op: Op, k': Call, s': State)
    requires RoomLocks(s) && Accesses(s, t, op, k', s') && RoomLockFacts(s.calls[t], op, k')
    ensures HeldRoomsKept(s, t, s') && s'.limits == s.limits && s'.calls == s.calls[t := k']
  {
    forall u | 0 <= u < |s.calls| && u != t && HoldsRoom(s.calls[u].pc)
      ensures Members(s', s.calls[u].r) == Members(s, s.calls[u].r)
    {
      HeldRoomKept(s, t, op, k', s', u);
    }
  }

  /** The moving call's own place: it has just checked the size, or kept the room as it was. */
  lemma OwnPlaceKept(s: State, t: CallId, op: Op, k': Call, s': State)
    requires JoinersFit(s) && Accesses(s, t, op, k', s') && SizeFacts(s, s.calls[t], op, k')
    requires s.limits.maxClientsPerRoom > 0 && (k'.pc == JoinAllowed || k'.pc == JoinListed)
    ensures |Members(s', k'.r)| < s.limits.maxClientsPerRoom
  {
    MembersKept(s, t, op, k', s', k'.r);
  }

  lemma JoinersFitFollow(s: State, t: CallId, s': State)
    requires JoinersFit(s) && HeldRoomsKept(s, t, s') && s'.limits == s.limits && t < |s.calls| == |s'.calls|
    requires forall u :: 0 <= u < |s.calls| && u != t ==> s'.calls[u] == s.calls[u]
    requires s.limits.maxClientsPerRoom > 0 && (s'.calls[t].pc == JoinAllowed || s'.calls[t].pc == JoinListed) ==>
               |Members(s', s'.calls[t].r)| < s.limits.maxClientsPerRoom
    ensures JoinersFit(s')
  {}

  lemma JoinersFitKept(s: State, t: CallId, op: Op, k': Call, s': State)
    requires RoomLocks(s) && JoinersFit(s) && Accesses(s, t, op, k', s')
    requires RoomLockFacts(s.calls[t], op, k') && SizeFacts(s, s.calls[t], op, k')
    ensures JoinersFit(s')
  {
    AllHeldRoomsKept(s, t, op, k', s');
    if s.limits.maxClientsPerRoom > 0 && (k'.pc == JoinAllowed || k'.pc == JoinListed) {
      OwnPlaceKept(s, t, op, k', s');
    }
    JoinersFitFollow(s, t, s');
  }

  lemma RoomLimitsKept(s: State, t: CallId, op: Op, k': Call, s': State)
    requires RoomLimits(s) && Accesses(s, t, op, k', s') && SizeFacts(s, s.calls[t], op, k')
    ensures RoomLimits(s')
  {
    if op.SetListed? && op.names <= RoomsOf(s, op.c) {
      SubsetSize(op.names, RoomsOf(s, op.c));
    }
  }

  lemma EmptinessFollows(s: State, t: CallId, s': State)
    requires Emptiness(s) && HeldRoomsKept(s, t, s') && t < |s.calls| == |s'.calls|
    requires forall u :: 0 <= u < |s.calls| && u != t ==> s'.calls[u] == s.calls[u]
    requires s'.calls[t].pc == LeaveCounted ==> s'.calls[t].empty == (Members(s', s'.calls[t].r) == {})
    ensures Emptiness(s')
  {}

  lemma EmptinessKept(s: State, t: CallId, op: Op, k': Call, s': State)
    requires RoomLocks(s) && Emptiness(s) && Accesses(s, t, op, k', s')
    requires RoomLockFacts(s.calls[t], op, k') && AnswerStarts(s, s.calls[t], op, k')
    ensures Emptiness(s')
  {
    AllHeldRoomsKept(s, t, op, k', s');
    if k'.pc == LeaveCounted {
      MembersKept(s, t, op, k', s', k'.r);
    }
    EmptinessFollows(s, t, s');
  }

  /** A room that another call answers for stays answered for. */
  lemma OthersAnswer(s: State, t: CallId, s': State, r: RoomId)
    requires t < |s.calls| && |s'.calls| == |s.calls| && s'.calls == s.calls[t := s'.calls[t]]
    requires Answered(s, r) && !AnswersFor(s.calls[t], r)
    ensures Answered(s', r)
  {
    var u :| 0 <= u < |s.calls| && AnswersFor(s.calls[u], r);
    assert s'.calls[u] == s.calls[u];
  }

  lemma NoLeakKept(s: State, t: CallId, op: Op, k': Call, s': State)
    requires References(s) && Emptiness(s) && NoLeak(s) && Accesses(s, t, op, k', s')
    requires AnswerFacts(s, s.calls[t], op, k')
    ensures NoLeak(s')
  {
    forall n | n in s'.rooms && Members(s', s'.rooms[n]) == {}
      ensures Answered(s', s'.rooms[n])
    {
      var r := s'.rooms[n];
      if AnswersFor(k', r) {
        assert s'.calls[t] == k';
      } else {
        assert n in s.rooms && s.rooms[n] == r && Members(s, r) == {};
        OthersAnswer(s, t, s', r);
      }
    }
  }

  lemma MetricsKept(s: State, t: CallId, op: Op, k': Call, s': State)
    requires RoomsLock(s) && Metrics(s) && Accesses(s, t, op, k', s')
    requires RoomsLockFacts(s.calls[t], op, k') && MetricFacts(s, s.calls[t], op, k')
    ensures Metrics(s')
  {}
}
