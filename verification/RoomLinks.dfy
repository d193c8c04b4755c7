/**
  Where a join ends up. JoinRoom looks a room up under roomsMu and locks it later, so the room may be
  unlinked in between. The joined room is in h.rooms if and only if that did not happen, and it cannot
  happen while no leave, sweep or failed join of the same room is under way.
 */
module RoomLinks {
  import opened Options
  import opened RoomProtocol
  import opened RoomSafety
  import opened RoomRuns
  import opened RoomProgress

  /** Room object r is the one that h.rooms has under its name. */
  ghost predicate Linked(s: State, r: RoomId) {
    r < |s.objs| && s.objs[r].name in s.rooms && s.rooms[s.objs[r].name] == r
  }

  /** Call t is a join inside the locked section of room r that has passed the room checks. */
  ghost predicate Joining(s: State, t: CallId, r: RoomId) {
    t < |s.calls| && s.calls[t].r == r &&
    match s.calls[t].pc
    case JoinAllowed | JoinListed | JoinInserted | JoinSnapped => true
    case _ => false
  }

  // ---------------------------------------------------------------- links of an occupied room

  lemma CallStepKeepsLink(s: State, u: CallId, op: Op, k': Call, s': State, r: RoomId)
    requires References(s) && RoomLocks(s) && Snapshots(s) && CallStep(s, u, op, k', s') && r < |s.objs|
    requires Members(s, r) != {} || s.calls[u].pc != DelHasBoth
    ensures Linked(s', r) <==> Linked(s, r)
  {
    ObjectsKept(s, u, op);
    assert s'.objs == Perform(s, u, op).objs;
    var name := s.objs[r].name;
    if Linked(s, r) && !Linked(s', r) {
      DeletingStep(s, u, op, k', s', name);
    } else if !Linked(s, r) && Linked(s', r) {
      LinkIsNew(s, u, op, k', s', name);
    }
  }

  /** Only a new room object is ever linked. */
  lemma LinkIsNew(s: State, u: CallId, op: Op, k': Call, s': State, name: string)
    requires CallStep(s, u, op, k', s') && name in s'.rooms
    ensures s'.rooms[name] == |s.objs| || (name in s.rooms && s.rooms[name] == s'.rooms[name])
  {}

  /** While a join holds the room nobody else can be about to unlink it. */
  lemma JoiningExcludesDeleting(s: State, t: CallId, u: CallId, r: RoomId)
    requires RoomLocks(s) && Joining(s, t, r) && r < |s.objs| && u < |s.calls| && s.calls[u].pc == DelHasBoth
    ensures s.calls[u].r != r
  {
    assert s.objs[r].mu == Some(t);
    assert s.objs[r].mu == Some(u) <==> HoldsRoom(s.calls[u].pc) && s.calls[u].r == r;
  }

  lemma OtherDeletionKeepsLink(s: State, u: CallId, op: Op, k': Call, s': State, r: RoomId)
    requires References(s) && RoomLocks(s) && Snapshots(s) && CallStep(s, u, op, k', s')
    requires r < |s.objs| && s.calls[u].r != r
    ensures Linked(s', r) <==> Linked(s, r)
  {
    ObjectsKept(s, u, op);
    assert s'.objs == Perform(s, u, op).objs;
    var name := s.objs[r].name;
    if Linked(s, r) && !Linked(s', r) {
      DeletingStep(s, u, op, k', s', name);
    } else if !Linked(s, r) && Linked(s', r) {
      LinkIsNew(s, u, op, k', s', name);
    }
  }

  lemma QuietStepKeepsRooms(s: State, s': State)
    requires PublishStep(s, s') || Registration(s, s')
    ensures s'.rooms == s.rooms && s'.objs == s.objs
  {}

  /** Apart from the steps of calls, nothing touches h.rooms or a room object. */
  lemma OnlyCallsTouchRooms(s: State, s': State)
    requires Next(s, s')
    ensures (exists u, op, k' :: CallStep(s, u, op, k', s')) || (s'.rooms == s.rooms && s'.objs == s.objs)
  {
    if k :| NewCall(s, k, s') {
    } else if PublishStep(s, s') || Registration(s, s') {
      QuietStepKeepsRooms(s, s');
    }
  }

  lemma JoiningStepKeepsLink(s: State, u: CallId, op: Op, k': Call, s': State, t: CallId, r: RoomId)
    requires References(s) && RoomLocks(s) && Snapshots(s) && CallStep(s, u, op, k', s')
    requires r < |s.objs| && (Joining(s, t, r) || Members(s, r) != {})
    ensures r < |s'.objs| && (Linked(s', r) <==> Linked(s, r))
  {
    ObjectsKept(s, u, op);
    assert s'.objs == Perform(s, u, op).objs;
    if Members(s, r) != {} || s.calls[u].pc != DelHasBoth {
      CallStepKeepsLink(s, u, op, k', s', r);
    } else {
      JoiningExcludesDeleting(s, t, u, r);
      OtherDeletionKeepsLink(s, u, op, k', s', r);
    }
  }

  lemma NextKeepsLink(s: State, s': State, t: CallId, r: RoomId)
    requires References(s) && RoomLocks(s) && Snapshots(s) && Next(s, s')
    requires r < |s.objs| && (Joining(s, t, r) || Members(s, r) != {})
    ensures r < |s'.objs| && (Linked(s', r) <==> Linked(s, r))
  {
    OnlyCallsTouchRooms(s, s');
    if u: CallId, op, k' :| CallStep(s, u, op, k', s') {
      JoiningStepKeepsLink(s, u, op, k', s', t, r);
    }
  }

  lemma JoiningHasRoom(s: State, t: CallId, r: RoomId)
    requires References(s) && Joining(s, t, r)
    ensures r < |s.objs|
  {
    assert HasRoom(s.calls[t].pc);
  }

  lemma RunStep(states: seq<State>, i: nat)
    requires Run(states) && i + 1 < |states|
    ensures Good(states[i]) && Next(states[i], states[i + 1])
  {
    RunGood(states, i);
  }

  /**
    From the moment join t has locked room r, for as long as it holds the room or the room has
    members, r is in h.rooms if and only if it was at that moment.
   */
  lemma {:induction false} OccupiedRoomKeepsItsLink(states: seq<State>, i: nat, j: nat, t: CallId, r: RoomId)
    requires Run(states) && i <= j < |states| && Joining(states[i], t, r)
    requires forall m :: i <= m < j ==> Joining(states[m], t, r) || Members(states[m], r) != {}
    ensures r < |states[j].objs| && (Linked(states[j], r) <==> Linked(states[i], r))
    decreases j
  {
    if i == j {
      RunGood(states, i);
      JoiningHasRoom(states[i], t, r);
    } else {
      var m := j - 1;
      OccupiedRoomKeepsItsLink(states, i, m, t, r);
      RunStep(states, m);
      NextKeepsLink(states[m], states[j], t, r);
    }
  }

  // ---------------------------------------------------------------- what a join looked up

  /** A call that has just looked its room up or made it, and still holds roomsMu. */
  ghost predicate LookingUp(pc: Pc) {
    pc == JoinGot || pc == JoinCounted
  }

  /** Such a call's room is in h.rooms. */
  ghost predicate HasLookedUp(s: State, t: CallId) {
    t < |s.calls| && LookingUp(s.calls[t].pc) ==> Linked(s, s.calls[t].r)
  }

  ghost predicate LookedUp(s: State) {
    forall t :: HasLookedUp(s, t)
  }

  lemma LeavesDoNotLookUp(s: State, k: Call, op: Op, k': Call)
    requires LeaveMoves(s, k, op, k') || DeleteMoves(s, k, op, k')
    ensures !LookingUp(k'.pc)
  {}

  lemma OnlyJoinsLookUp(s: State, k: Call, op: Op, k': Call)
    requires Moves(s, k, op, k') && LookingUp(k'.pc)
    ensures JoinMoves(s, k, op, k')
  {
    if LeaveMoves(s, k, op, k') || DeleteMoves(s, k, op, k') {
      LeavesDoNotLookUp(s, k, op, k');
    }
  }

  lemma BecomesLookingUp(s: State, k: Call, op: Op, k': Call)
    requires JoinMoves(s, k, op, k') && LookingUp(k'.pc)
    ensures || (LookingUp(k.pc) && k'.r == k.r && !op.Create? && !op.Unlink?)
            || (op == Read && k'.name in s.rooms && k'.r == s.rooms[k'.name])
            || (op == Create(k'.name) && k'.r == |s.objs|)
  {}

  /** While another call holds roomsMu, no step changes h.rooms. */
  lemma OthersKeepLinks(s: State, t: CallId, u: CallId, op: Op, k': Call, s': State)
    requires RoomsLock(s) && CallStep(s, u, op, k', s') && t != u && t < |s.calls| && LookingUp(s.calls[t].pc)
    ensures s'.rooms == s.rooms
  {
    MoveFacts(s, s.calls[u], op, k');
    assert s.roomsMu == Some(t);
    assert !HoldsRooms(s.calls[u].pc);
  }

  lemma CallStepKeepsLookedUp(s: State, u: CallId, op: Op, k': Call, s': State)
    requires References(s) && RoomsLock(s) && LookedUp(s) && CallStep(s, u, op, k', s')
    ensures LookedUp(s')
  {
    ObjectsKept(s, u, op);
    assert s'.objs == Perform(s, u, op).objs;
    forall t: CallId | t < |s'.calls| && LookingUp(s'.calls[t].pc)
      ensures HasLookedUp(s', t)
    {
      assert HasLookedUp(s, t);
      if t != u {
        OthersKeepLinks(s, t, u, op, k', s');
      } else {
        OnlyJoinsLookUp(s, s.calls[u], op, k');
        BecomesLookingUp(s, s.calls[u], op, k');
      }
    }
  }

  lemma QuietStepKeepsLookedUp(s: State, s': State)
    requires LookedUp(s) && (PublishStep(s, s') || Registration(s, s') || exists k :: NewCall(s, k, s'))
    ensures LookedUp(s')
  {
    assert s'.rooms == s.rooms && s'.objs == s.objs;
    forall t: CallId | t < |s'.calls| && LookingUp(s'.calls[t].pc)
      ensures HasLookedUp(s', t)
    {
      assert t < |s.calls| && s'.calls[t] == s.calls[t];
      assert HasLookedUp(s, t);
    }
  }

  lemma NextKeepsLookedUp(s: State, s': State)
    requires References(s) && RoomsLock(s) && LookedUp(s) && Next(s, s')
    ensures LookedUp(s')
  {
    if u: CallId, op, k' :| CallStep(s, u, op, k', s') {
      CallStepKeepsLookedUp(s, u, op, k', s');
    } else {
      QuietStepKeepsLookedUp(s, s');
    }
  }

  lemma {:induction false} RunLookedUp(states: seq<State>, i: nat)
    requires Run(states) && i < |states|
    ensures LookedUp(states[i])
  {
    if i > 0 {
      RunLookedUp(states, i - 1);
      RunStep(states, i - 1);
      NextKeepsLookedUp(states[i - 1], states[i]);
    }
  }

  // ---------------------------------------------------------------- unlinking

  /** This step takes room r out of h.rooms. */
  ghost predicate Unlinks(s: State, s': State, r: RoomId) {
    Linked(s, r) && !Linked(s', r)
  }

  /** Some deletion holds room r and finds it empty. */
  ghost predicate DeletedBySomeone(s: State, r: RoomId) {
    && Members(s, r) == {}
    && exists u :: 0 <= u < |s.calls| && s.calls[u].pc == DelHasBoth && s.calls[u].r == r
  }

  /** A room once unlinked is never linked again, and only a deletion that holds it and finds it empty unlinks it. */
  lemma LinkSteps(s: State, s': State, r: RoomId)
    requires References(s) && RoomLocks(s) && Snapshots(s) && Next(s, s') && r < |s.objs|
    ensures r < |s'.objs| && s'.objs[r].name == s.objs[r].name && (Linked(s', r) ==> Linked(s, r))
    ensures Unlinks(s, s', r) ==> DeletedBySomeone(s, r)
  {
    OnlyCallsTouchRooms(s, s');
    if u: CallId, op, k' :| CallStep(s, u, op, k', s') {
      LinkStep(s, u, op, k', s', r);
    }
  }

  lemma LinkStep(s: State, u: CallId, op: Op, k': Call, s': State, r: RoomId)
    requires References(s) && RoomLocks(s) && Snapshots(s) && CallStep(s, u, op, k', s') && r < |s.objs|
    ensures r < |s'.objs| && s'.objs[r].name == s.objs[r].name && (Linked(s', r) ==> Linked(s, r))
    ensures Unlinks(s, s', r) ==> Members(s, r) == {} && s.calls[u].pc == DelHasBoth && s.calls[u].r == r
  {
    ObjectsKept(s, u, op);
    assert s'.objs == Perform(s, u, op).objs;
    var name := s.objs[r].name;
    if Linked(s', r) {
      LinkIsNew(s, u, op, k', s', name);
    } else if Linked(s, r) {
      DeletingStep(s, u, op, k', s', name);
    }
  }

  /** Room r, once made, stays with its name, and loses its link for good. */
  ghost predicate OneWay(states: seq<State>, r: RoomId) {
    forall n :: 0 <= n < |states| - 1 && r < |states[n].objs| ==>
      && r < |states[n + 1].objs| && states[n + 1].objs[r].name == states[n].objs[r].name
      && (Linked(states[n + 1], r) ==> Linked(states[n], r))
  }

  lemma RunIsOneWay(states: seq<State>, r: RoomId)
    requires Run(states)
    ensures OneWay(states, r)
  {
    forall n | 0 <= n < |states| - 1 && r < |states[n].objs|
      ensures r < |states[n + 1].objs| && states[n + 1].objs[r].name == states[n].objs[r].name
      ensures Linked(states[n + 1], r) ==> Linked(states[n], r)
    {
      RunStep(states, n);
      LinkSteps(states[n], states[n + 1], r);
    }
  }

  /** From m on, room r is in h.rooms if and only if it was at m and no step since has unlinked it. */
  lemma {:induction false} LinkedUnlessUnlinked(states: seq<State>, m: nat, i: nat, r: RoomId)
    requires OneWay(states, r) && m <= i < |states| && r < |states[m].objs| && Linked(states[m], r)
    ensures r < |states[i].objs| && states[i].objs[r].name == states[m].objs[r].name
    ensures Linked(states[i], r) <==> forall n :: m <= n < i ==> !Unlinks(states[n], states[n + 1], r)
    decreases i
  {
    if m < i {
      LinkedUnlessUnlinked(states, m, i - 1, r);
      assert Unlinks(states[i - 1], states[i - 1 + 1], r) <==> Linked(states[i - 1], r) && !Linked(states[i], r);
    }
  }

  /**
    Where a join ends up, exactly. Join t looks room r up in state m and is inside its locked section in
    state i; until state j it stays there or the room has members. Then r is in h.rooms in state j if
    and only if no step between m and i unlinked it. Such a step is a deletion that holds r and finds it
    empty.
   */
  lemma JoinedRoomIsLinkedExactlyWhenNotDeleted(states: seq<State>, m: nat, i: nat, j: nat, t: CallId, r: RoomId)
    requires Run(states) && m <= i <= j < |states|
    requires t < |states[m].calls| && states[m].calls[t].pc == JoinCounted && states[m].calls[t].r == r
    requires Joining(states[i], t, r)
    requires forall n :: i <= n < j ==> Joining(states[n], t, r) || Members(states[n], r) != {}
    ensures Linked(states[j], r) <==> forall n :: m <= n < i ==> !Unlinks(states[n], states[n + 1], r)
    ensures forall n :: m <= n < i && Unlinks(states[n], states[n + 1], r) ==> DeletedBySomeone(states[n], r)
  {
    RunLookedUp(states, m);
    assert HasLookedUp(states[m], t);
    RunIsOneWay(states, r);
    LinkedUnlessUnlinked(states, m, i, r);
    OccupiedRoomKeepsItsLink(states, i, j, t, r);
    forall n | m <= n < i && Unlinks(states[n], states[n + 1], r)
      ensures DeletedBySomeone(states[n], r)
    {
      RunStep(states, n);
      LinkSteps(states[n], states[n + 1], r);
    }
  }

  // ---------------------------------------------------------------- joins that nothing overlaps

  /** A leave, a sweep or a failed join that is dealing with the named room. */
  ghost predicate MayDelete(k: Call, name: string) {
    k.name == name &&
    match k.pc
    case LeaveStart | LeaveFound | LeaveSeen | LeaveRechecking | LeaveGone | LeaveRemoved => true
    case LeaveSnapped | LeaveUnlisted | LeaveCounted | JoinRefused => true
    case DelStart | DelHasRooms | DelHasBoth | DelUnlinked | DelDecided | DelReleasing => true
    case _ => false
  }

  /** No other call is dealing with the named room in such a way. */
  ghost predicate Undisturbed(s: State, t: CallId, name: string) {
    forall u :: 0 <= u < |s.calls| && u != t ==> !MayDelete(s.calls[u], name)
  }

  /** A join, or what is left of it, that has not got through: it can no longer get into the room. */
  ghost predicate Missed(s: State, t: CallId) {
    t < |s.calls| && s.calls[t].sweep.Single? &&
    match s.calls[t].pc
    case JoinRefused | DelStart | DelHasRooms | DelHasBoth | DelUnlinked | DelDecided | DelReleasing | Finished => true
    case _ => false
  }

  lemma MoveKeepsMissed(s: State, t: CallId, op: Op, k': Call, s': State)
    requires CallStep(s, t, op, k', s') && Missed(s, t)
    ensures Missed(s', t)
  {}

  lemma NextKeepsMissed(s: State, s': State, t: CallId)
    requires Next(s, s') && Missed(s, t)
    ensures Missed(s', t)
  {
    if u: CallId, op, k' :| CallStep(s, u, op, k', s') {
      if u == t {
        MoveKeepsMissed(s, t, op, k', s');
      }
    } else if k :| NewCall(s, k, s') {
    } else {
      assert s'.calls == s.calls;
    }
  }

  /** A join that has missed stays so. */
  ghost predicate StaysMissed(states: seq<State>, t: CallId) {
    forall n :: 0 <= n < |states| - 1 && Missed(states[n], t) ==> Missed(states[n + 1], t)
  }

  lemma RunStaysMissed(states: seq<State>, t: CallId)
    requires Run(states)
    ensures StaysMissed(states, t)
  {
    forall n | 0 <= n < |states| - 1 && Missed(states[n], t)
      ensures Missed(states[n + 1], t)
    {
      RunStep(states, n);
      NextKeepsMissed(states[n], states[n + 1], t);
    }
  }

  lemma {:induction false} MissedForGood(states: seq<State>, n: nat, i: nat, t: CallId)
    requires StaysMissed(states, t) && n <= i < |states| && Missed(states[n], t)
    ensures Missed(states[i], t)
    decreases i
  {
    if n < i {
      MissedForGood(states, n, i - 1, t);
      assert Missed(states[i - 1 + 1], t);
    }
  }

  /** Past the lookup, a join is on its way into the room or has missed. */
  ghost predicate Underway(s: State, t: CallId) {
    Missed(s, t) ||
    (t < |s.calls| && s.calls[t].sweep.Single? &&
     match s.calls[t].pc
     case JoinCounted | JoinFound | JoinAllowed | JoinListed | JoinInserted | JoinSnapped | JoinUnlocked => true
     case _ => false)
  }

  lemma MoveKeepsUnderway(s: State, t: CallId, op: Op, k': Call, s': State)
    requires CallStep(s, t, op, k', s') && Underway(s, t)
    ensures Underway(s', t)
  {
    if !Missed(s, t) {
      assert JoinMoves(s, s.calls[t], op, k');
    } else {
      MoveKeepsMissed(s, t, op, k', s');
    }
  }

  lemma NextKeepsUnderway(s: State, s': State, t: CallId)
    requires Next(s, s') && Underway(s, t)
    ensures Underway(s', t)
  {
    if u: CallId, op, k' :| CallStep(s, u, op, k', s') {
      if u == t {
        MoveKeepsUnderway(s, t, op, k', s');
      }
    } else if k :| NewCall(s, k, s') {
    } else {
      assert s'.calls == s.calls;
    }
  }

  ghost predicate KeepsUnderway(states: seq<State>, t: CallId) {
    forall n :: 0 <= n < |states| - 1 && Underway(states[n], t) ==> Underway(states[n + 1], t)
  }

  lemma RunKeepsUnderway(states: seq<State>, t: CallId)
    requires Run(states)
    ensures KeepsUnderway(states, t)
  {
    forall n | 0 <= n < |states| - 1 && Underway(states[n], t)
      ensures Underway(states[n + 1], t)
    {
      RunStep(states, n);
      NextKeepsUnderway(states[n], states[n + 1], t);
    }
  }

  lemma {:induction false} StaysUnderway(states: seq<State>, m: nat, n: nat, t: CallId)
    requires KeepsUnderway(states, t) && m <= n < |states| && Underway(states[m], t)
    ensures Underway(states[n], t)
    decreases n
  {
    if m < n {
      StaysUnderway(states, m, n - 1, t);
      assert Underway(states[n - 1 + 1], t);
    }
  }

  /** A deletion of room r is either the join's own, which has then missed, or disturbs it. */
  lemma DeletionDisturbs(s: State, t: CallId, r: RoomId)
    requires References(s) && r < |s.objs| && DeletedBySomeone(s, r) && Underway(s, t)
    ensures Missed(s, t) || !Undisturbed(s, t, s.objs[r].name)
  {
    var u :| 0 <= u < |s.calls| && s.calls[u].pc == DelHasBoth && s.calls[u].r == r;
    assert HasRoom(s.calls[u].pc);
    if u != t {
      assert MayDelete(s.calls[u], s.objs[r].name);
    }
  }

  lemma UndisturbedStep(states: seq<State>, m: nat, n: nat, i: nat, t: CallId, r: RoomId)
    requires Run(states) && m <= n < i < |states| && Underway(states[m], t) && Joining(states[i], t, r)
    requires r < |states[n].objs| && Undisturbed(states[n], t, states[n].objs[r].name)
    ensures !Unlinks(states[n], states[n + 1], r)
  {
    RunStep(states, n);
    LinkSteps(states[n], states[n + 1], r);
    RunKeepsUnderway(states, t);
    StaysUnderway(states, m, n, t);
    RunStaysMissed(states, t);
    if Missed(states[n], t) {
      MissedForGood(states, n, i, t);
    } else if DeletedBySomeone(states[n], r) {
      DeletionDisturbs(states[n], t, r);
    }
  }

  /**
    A join that finds its way into a room while no other call is leaving, sweeping or failing to join a
    room of that name ends in a room that h.rooms knows.
   */
  lemma UndisturbedJoinIsLinked(states: seq<State>, m: nat, i: nat, j: nat, t: CallId, r: RoomId)
    requires Run(states) && m <= i <= j < |states|
    requires t < |states[m].calls| && states[m].calls[t].pc == JoinCounted && states[m].calls[t].r == r
    requires Joining(states[i], t, r)
    requires forall n :: i <= n < j ==> Joining(states[n], t, r) || Members(states[n], r) != {}
    requires forall n :: m <= n < i ==> Undisturbed(states[n], t, states[m].calls[t].name)
    ensures Linked(states[j], r)
  {
    JoinedRoomIsLinkedExactlyWhenNotDeleted(states, m, i, j, t, r);
    RunKeepsSweeps(states, m);
    RunGood(states, m);
    assert HasRoom(states[m].calls[t].pc);
    RunIsOneWay(states, r);
    assert HasLookedUp(states[m], t) by { RunLookedUp(states, m); }
    forall n | m <= n < i
      ensures !Unlinks(states[n], states[n + 1], r)
    {
      LinkedUnlessUnlinked(states, m, n, r);
      UndisturbedStep(states, m, n, i, t, r);
    }
  }
}
