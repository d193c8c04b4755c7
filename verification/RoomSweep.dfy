/**
  The sweep over all rooms of a client when nothing interferes with it: in whatever order it visits them,
  the client ends up in none of the rooms it listed.
 */
module RoomSweep {
  import opened Options
  import opened RoomProtocol
  import opened RoomSafety
  import opened RoomAlone

  ghost function Names(xs: seq<string>): set<string> {
    set n | n in xs
  }

  ghost predicate Distinct(xs: seq<string>) {
    forall i, j :: 0 <= i < j < |xs| ==> xs[i] != xs[j]
  }

  /** The rooms among those c lists that exist and hold it. */
  ghost function InRooms(s: State, c: Client): set<string> {
    set n | n in RoomsOf(s, c) && c in Occupants(s, n)
  }

  /** The rooms that are gone when c has left these. */
  ghost function Emptied(s: State, c: Client, gone: set<string>): set<string> {
    set n | n in gone && Occupants(s, n) == {c}
  }

  /** Client c is out of the rooms `gone`, of which those in `dropped` no longer exist; all else is as before. */
  ghost predicate OutOf(s0: State, s: State, c: Client, gone: set<string>, dropped: set<string>) {
    && (forall n :: Occupants(s, n) == Occupants(s0, n) - if n in gone then {c} else {})
    && s.rooms.Keys == s0.rooms.Keys - dropped
  }

  /** After a sweep of c: it is in none of the rooms it listed, and lists only those it was not in. */
  ghost predicate Swept(s0: State, s: State, c: Client) {
    && OutOf(s0, s, c, InRooms(s0, c), Emptied(s0, c, InRooms(s0, c)))
    && RoomsOf(s, c) == RoomsOf(s0, c) - InRooms(s0, c)
    && (forall d :: d != c ==> RoomsOf(s, d) == RoomsOf(s0, d))
    && s.version == s0.version + |InRooms(s0, c)|
  }

  /** Of the rooms c lists, `rest` are still to be visited, `now` is being visited, and `left` were left. */
  ghost predicate Visits(s0: State, c: Client, rest: seq<string>, left: seq<string>, now: set<string>) {
    && Distinct(rest) && Distinct(left) && Names(rest) + now <= RoomsOf(s0, c) && Names(rest) !! now
    && Names(left) == InRooms(s0, c) - Names(rest) - now
  }

  ghost predicate Unbooked(s0: State, s: State) {
    s.listed == s0.listed && s.version == s0.version
  }

  /** The room being visited has been found, with these members now. */
  ghost predicate AtRoom(s: State, k: Call, members: set<Client>) {
    k.name in s.rooms && s.rooms[k.name] == k.r && k.r < |s.objs| && s.objs[k.r].members == members
  }

  /** What has become of the state s0 in which a lone sweep started, by where the sweep is. */
  ghost predicate SweepAt(s0: State, s: State, k: Call) {
    var c, was := k.c, Occupants(s0, k.name);
    if k.pc == AllStart then k.sweep == Single && Unbooked(s0, s) && OutOf(s0, s, c, {}, {})
    else if k.pc == Finished then k.sweep == Single && Swept(s0, s, c)
    else
      k.sweep.All? &&
      var rest, left := k.sweep.rest, k.sweep.left;
      var before, after := Emptied(s0, c, Names(left)), Emptied(s0, c, Names(left) + {k.name});
      match k.pc
      case AllNext => Unbooked(s0, s) && Visits(s0, c, rest, left, {}) && OutOf(s0, s, c, Names(left), before)
      case AllUnlisted =>
        && rest == [] && Visits(s0, c, rest, left, {}) && OutOf(s0, s, c, Names(left), before)
        && s.listed == s0.listed[c := RoomsOf(s0, c) - Names(left)] && s.version == s0.version
      case LeaveStart =>
        Unbooked(s0, s) && Visits(s0, c, rest, left, {k.name}) && OutOf(s0, s, c, Names(left), before)
      case LeaveFound =>
        && Unbooked(s0, s) && Visits(s0, c, rest, left, {k.name}) && OutOf(s0, s, c, Names(left), before)
        && AtRoom(s, k, was)
      case LeaveSeen | LeaveRechecking =>
        && Unbooked(s0, s) && Visits(s0, c, rest, left, {k.name}) && OutOf(s0, s, c, Names(left), before)
        && AtRoom(s, k, was) && c in was
      case LeaveRemoved | LeaveSnapped | LeaveCounted =>
        && Unbooked(s0, s) && Visits(s0, c, rest, left, {k.name}) && OutOf(s0, s, c, Names(left) + {k.name}, before)
        && AtRoom(s, k, was - {c}) && c in was && (k.pc == LeaveCounted ==> k.empty == (was - {c} == {}))
      case DelStart | DelHasRooms | DelHasBoth =>
        && Unbooked(s0, s) && Visits(s0, c, rest, left, {}) && k.name in left && was == {c}
        && OutOf(s0, s, c, Names(left), before - {k.name}) && AtRoom(s, k, {})
      case DelUnlinked | DelDecided | DelReleasing =>
        Unbooked(s0, s) && Visits(s0, c, rest, left, {}) && OutOf(s0, s, c, Names(left), before)
      case _ => false
  }

  // ---------------------------------------------------------------- what one access does to the rooms

  /** Changing the members of the room of this name is all that SetMembers does. */
  lemma MembersChange(s: State, t: CallId, name: string, r: RoomId, members: set<Client>, a: State)
    requires References(s) && name in s.rooms && s.rooms[name] == r
    requires Does(s, t, SetMembers(r, members), a)
    ensures a.rooms == s.rooms
    ensures forall n :: Occupants(a, n) == if n == name then members else Occupants(s, n)
  {
    assert forall n :: n in s.rooms && n != name ==> s.rooms[n] != r;
  }

  lemma RoomsStand(s: State, t: CallId, op: Op, a: State)
    requires Does(s, t, op, a) && !op.SetMembers? && !op.Create? && !op.Unlink? && References(s)
    ensures a.rooms == s.rooms && (forall n :: Occupants(a, n) == Occupants(s, n))
    ensures |a.objs| == |s.objs| && forall r :: 0 <= r < |s.objs| ==> a.objs[r].members == s.objs[r].members
  {}

  lemma UnlinkDrops(s: State, t: CallId, name: string, a: State)
    requires Does(s, t, Unlink(name), a) && Occupants(s, name) == {}
    ensures a.rooms == s.rooms - {name} && forall n :: Occupants(a, n) == Occupants(s, n)
  {}

  // ---------------------------------------------------------------- the steps of the sweep

  lemma NothingToSweep(s0: State, s: State, c: Client)
    requires Unbooked(s0, s) && OutOf(s0, s, c, {}, {}) && RoomsOf(s0, c) == {}
    ensures Swept(s0, s, c)
  {
    assert InRooms(s0, c) == {} && Emptied(s0, c, {}) == {};
  }

  lemma AllToVisit(s0: State, c: Client, rest: seq<string>)
    requires Enumerates(rest, RoomsOf(s0, c))
    ensures Visits(s0, c, rest, [], {}) && Emptied(s0, c, Names([])) == {}
  {
    assert Names(rest) == RoomsOf(s0, c);
  }

  lemma StartSweep(s0: State, s: State, t: CallId, k: Call, op: Op, k': Call, a: State)
    requires Does(s, t, op, a) && LeaveMoves(s, k, op, k') && SweepAt(s0, s, k) && k.pc == AllStart
    ensures SweepAt(s0, a, k')
  {
    assert RoomsOf(s, k.c) == RoomsOf(s0, k.c);
    assert forall n :: Occupants(a, n) == Occupants(s, n);
    if RoomsOf(s, k.c) == {} {
      NothingToSweep(s0, a, k.c);
    } else {
      AllToVisit(s0, k.c, k'.sweep.rest);
      assert Names([]) == {};
    }
  }

  lemma PickNext(s0: State, s: State, t: CallId, k: Call, op: Op, k': Call, a: State)
    requires Does(s, t, op, a) && LeaveMoves(s, k, op, k') && SweepAt(s0, s, k)
    requires k.pc == AllNext && k.sweep.rest != []
    ensures SweepAt(s0, a, k')
  {
    var rest := k.sweep.rest;
    assert rest == [rest[0]] + rest[1..];
    assert Names(rest) == {rest[0]} + Names(rest[1..]);
    assert rest[0] !in Names(rest[1..]);
  }

  lemma EndSweep(s0: State, s: State, t: CallId, k: Call, op: Op, k': Call, a: State)
    requires Does(s, t, op, a) && LeaveMoves(s, k, op, k') && SweepAt(s0, s, k)
    requires k.pc == AllNext && k.sweep.rest == []
    ensures SweepAt(s0, a, k')
  {
    assert RoomsOf(s, k.c) == RoomsOf(s0, k.c);
    assert forall n :: Occupants(a, n) == Occupants(s, n);
  }

  lemma {:induction false} NamesCount(xs: seq<string>)
    requires Distinct(xs)
    ensures |Names(xs)| == |xs|
  {
    if |xs| > 0 {
      var n := |xs| - 1;
      NamesCount(xs[..n]);
      assert Names(xs) == Names(xs[..n]) + {xs[n]};
    }
  }

  lemma SweptAtLast(s0: State, s: State, c: Client, left: seq<string>)
    requires Visits(s0, c, [], left, {}) && OutOf(s0, s, c, Names(left), Emptied(s0, c, Names(left)))
    requires s.listed == s0.listed[c := RoomsOf(s0, c) - Names(left)] && s.version == s0.version + |left|
    ensures Swept(s0, s, c)
  {
    NamesCount(left);
    assert Names(left) == InRooms(s0, c);
  }

  lemma BumpSweep(s0: State, s: State, t: CallId, k: Call, op: Op, k': Call, a: State)
    requires References(s) && Does(s, t, op, a) && LeaveMoves(s, k, op, k') && SweepAt(s0, s, k) && k.pc == AllUnlisted
    ensures SweepAt(s0, a, k')
  {
    RoomsStand(s, t, op, a);
    SweptAtLast(s0, a, k.c, k.sweep.left);
  }

  lemma SeeRoom(s0: State, s: State, t: CallId, k: Call, op: Op, k': Call, a: State)
    requires References(s) && Does(s, t, op, a) && LeaveMoves(s, k, op, k') && SweepAt(s0, s, k)
    requires k.pc == LeaveStart || k.pc == LeaveFound
    ensures SweepAt(s0, a, k')
  {
    assert k.name in RoomsOf(s0, k.c);
    assert k.name !in Names(k.sweep.left);
  }

  lemma LockToLeave(s0: State, s: State, t: CallId, k: Call, op: Op, k': Call, a: State)
    requires References(s) && Does(s, t, op, a) && LeaveMoves(s, k, op, k') && SweepAt(s0, s, k)
    requires k.pc == LeaveSeen || k.pc == LeaveRemoved || k.pc == LeaveSnapped
    ensures SweepAt(s0, a, k')
  {
    RoomsStand(s, t, op, a);
  }

  lemma TakeOut(s0: State, s: State, t: CallId, k: Call, op: Op, k': Call, a: State)
    requires References(s) && Does(s, t, op, a) && LeaveMoves(s, k, op, k') && SweepAt(s0, s, k)
    requires k.pc == LeaveRechecking
    ensures SweepAt(s0, a, k')
  {
    MembersChange(s, t, k.name, k.r, Members(s, k.r) - {k.c}, a);
  }

  /** The room has been left: it joins those left, and is dropped next if the client was its last member. */
  lemma NoteOneMore(s0: State, c: Client, rest: seq<string>, left: seq<string>, name: string)
    requires Visits(s0, c, rest, left, {name}) && c in Occupants(s0, name)
    ensures Visits(s0, c, rest, left + [name], {}) && Names(left + [name]) == Names(left) + {name}
    ensures Emptied(s0, c, Names(left) + {name}) ==
            Emptied(s0, c, Names(left)) + if Occupants(s0, name) == {c} then {name} else {}
    ensures name !in Emptied(s0, c, Names(left))
  {
    assert name in InRooms(s0, c);
    assert name !in Names(left);
    assert Names(left + [name]) == Names(left) + {name};
    var more := left + [name];
    forall i, j | 0 <= i < j < |more|
      ensures more[i] != more[j]
    {
      assert i < |left| && left[i] in Names(left);
    }
  }

  lemma LeaveRoomBehind(s0: State, s: State, t: CallId, k: Call, op: Op, k': Call, a: State)
    requires References(s) && Does(s, t, op, a) && LeaveMoves(s, k, op, k') && SweepAt(s0, s, k)
    requires k.pc == LeaveCounted
    ensures SweepAt(s0, a, k')
  {
    RoomsStand(s, t, op, a);
    NoteOneMore(s0, k.c, k.sweep.rest, k.sweep.left, k.name);
    var was := Occupants(s0, k.name);
    assert was - {k.c} == {} <==> was == {k.c};
  }

  lemma LockToDelete(s0: State, s: State, t: CallId, k: Call, op: Op, k': Call, a: State)
    requires References(s) && Does(s, t, op, a) && DeleteMoves(s, k, op, k') && SweepAt(s0, s, k)
    requires k.pc == DelStart || k.pc == DelHasRooms
    ensures SweepAt(s0, a, k')
  {
    RoomsStand(s, t, op, a);
  }

  lemma DropRoom(s0: State, s: State, t: CallId, k: Call, op: Op, k': Call, a: State)
    requires References(s) && Does(s, t, op, a) && DeleteMoves(s, k, op, k') && SweepAt(s0, s, k)
    requires k.pc == DelHasBoth
    ensures SweepAt(s0, a, k')
  {
    UnlinkDrops(s, t, k.name, a);
    assert k.name in Emptied(s0, k.c, Names(k.sweep.left));
  }

  lemma ReleaseDropped(s0: State, s: State, t: CallId, k: Call, op: Op, k': Call, a: State)
    requires References(s) && Does(s, t, op, a) && DeleteMoves(s, k, op, k') && SweepAt(s0, s, k)
    requires k.pc == DelUnlinked || k.pc == DelDecided || k.pc == DelReleasing
    ensures SweepAt(s0, a, k')
  {
    RoomsStand(s, t, op, a);
  }

  // ---------------------------------------------------------------- the whole sweep

  lemma SweepItself(s0: State, s: State, t: CallId, k: Call, op: Op, k': Call, a: State)
    requires References(s) && Does(s, t, op, a) && LeaveMoves(s, k, op, k') && SweepAt(s0, s, k)
    requires k.pc.AllStart? || k.pc.AllNext? || k.pc.AllUnlisted?
    ensures SweepAt(s0, a, k')
  {
    if k.pc.AllStart? {
      StartSweep(s0, s, t, k, op, k', a);
    } else if k.pc.AllUnlisted? {
      BumpSweep(s0, s, t, k, op, k', a);
    } else if k.sweep.rest != [] {
      PickNext(s0, s, t, k, op, k', a);
    } else {
      EndSweep(s0, s, t, k, op, k', a);
    }
  }

  lemma SweepLeaves(s0: State, s: State, t: CallId, k: Call, op: Op, k': Call, a: State)
    requires References(s) && Does(s, t, op, a) && LeaveMoves(s, k, op, k') && SweepAt(s0, s, k)
    requires !(k.pc.AllStart? || k.pc.AllNext? || k.pc.AllUnlisted?)
    ensures SweepAt(s0, a, k')
  {
    if k.pc.LeaveStart? || k.pc.LeaveFound? {
      SeeRoom(s0, s, t, k, op, k', a);
    } else if k.pc.LeaveRechecking? {
      TakeOut(s0, s, t, k, op, k', a);
    } else if k.pc.LeaveCounted? {
      LeaveRoomBehind(s0, s, t, k, op, k', a);
    } else {
      LockToLeave(s0, s, t, k, op, k', a);
    }
  }

  lemma SweepDeletes(s0: State, s: State, t: CallId, k: Call, op: Op, k': Call, a: State)
    requires References(s) && Does(s, t, op, a) && DeleteMoves(s, k, op, k') && SweepAt(s0, s, k)
    ensures SweepAt(s0, a, k')
  {
    if k.pc.DelStart? || k.pc.DelHasRooms? {
      LockToDelete(s0, s, t, k, op, k', a);
    } else if k.pc.DelHasBoth? {
      DropRoom(s0, s, t, k, op, k', a);
    } else {
      ReleaseDropped(s0, s, t, k, op, k', a);
    }
  }

  lemma InSweep(s0: State, s: State, k: Call)
    requires SweepAt(s0, s, k)
    ensures Leaving(k.pc) || Deleting(k.pc) || k.pc == Finished
  {}

  lemma SweepProceeds(s0: State, s: State, t: CallId, op: Op, k': Call, m: State)
    requires References(s) && Proceeds(s, t, op, k', m) && SweepAt(s0, s, s.calls[t])
    ensures t < |m.calls| && SweepAt(s0, m, m.calls[t]) && m.calls[t].c == s.calls[t].c
  {
    var k := s.calls[t];
    WhoseMove(s, k, op, k');
    InSweep(s0, s, k);
    FinishedIsOver(s, k, op, k');
    if Deleting(k.pc) {
      SweepDeletes(s0, s, t, k, op, k', m);
    } else if k.pc.AllStart? || k.pc.AllNext? || k.pc.AllUnlisted? {
      SweepItself(s0, s, t, k, op, k', m);
    } else {
      SweepLeaves(s0, s, t, k, op, k', m);
    }
  }

  /** The sweep of client c, begun in state s0. */
  ghost function SweepsBy(s0: State, t: CallId, c: Client): State -> bool {
    (a: State) => References(a) && t < |a.calls| && SweepAt(s0, a, a.calls[t]) && a.calls[t].c == c
  }

  lemma SweepsStayBy(s0: State, t: CallId, c: Client, a: State, b: State)
    requires StepsOf(t)(a, b) && SweepsBy(s0, t, c)(a)
    ensures SweepsBy(s0, t, c)(b)
  {
    var op, k' :| Proceeds(a, t, op, k', b);
    MoveFacts(a, a.calls[t], op, k');
    ReferencesKept(a, t, op, k', b);
    SweepProceeds(s0, a, t, op, k', b);
  }

  lemma SweepBegins(s0: State, k: Call)
    requires k.pc == AllStart && k.sweep == Single
    ensures SweepAt(s0, s0, k)
  {}

  lemma SweepEnds(s0: State, t: CallId, c: Client, s: State)
    requires SweepsBy(s0, t, c)(s) && s.calls[t].pc == Finished
    ensures Swept(s0, s, c)
  {}

  /**
    A sweep that nothing interferes with takes the client out of every room it lists and is in, drops those
    that leaves empty, takes them off its list, and adds their number to the room version.
   */
  lemma LoneSweepAnswers(s: State, t: CallId, n: nat, s': State)
    requires References(s) && t < |s.calls| && s.calls[t].pc == AllStart && s.calls[t].sweep == Single
    requires Alone(s, t, n, s') && t < |s'.calls| && s'.calls[t].pc == Finished
    ensures Swept(s, s', s.calls[t].c)
  {
    var c := s.calls[t].c;
    SweepBegins(s, s.calls[t]);
    forall a, b | StepsOf(t)(a, b) && SweepsBy(s, t, c)(a)
      ensures SweepsBy(s, t, c)(b)
    {
      SweepsStayBy(s, t, c, a, b);
    }
    ReachesKeeps(StepsOf(t), SweepsBy(s, t, c), s, n, s');
    SweepEnds(s, t, c, s');
  }
}
