/** The room protocol never deadlocks: locks are only ever taken in the order roomsMu, then room.mu. */
module RoomProgress {
  import opened Options
  import opened Totals
  import opened RoomProtocol
  import opened RoomSafety
  import opened RoomRuns

  /** Sweeping states belong to sweeps, single leaves and starts do not. */
  ghost predicate SweepFits(k: Call) {
    match k.pc
    case AllNext | AllUnlisted => k.sweep.All?
    case JoinStart | JoinKnown | JoinHasRooms | JoinGot | JoinCounted | JoinFound => k.sweep.Single?
    case JoinAllowed | JoinRefused | JoinListed | JoinInserted | JoinSnapped | JoinUnlocked => k.sweep.Single?
    case AllStart | LeaveUnlisted => k.sweep.Single?
    case _ => true
  }

  ghost predicate SweepsFit(s: State) {
    forall t :: 0 <= t < |s.calls| ==> SweepFits(s.calls[t])
  }

  lemma JoinKeepsSweep(s: State, k: Call, op: Op, k': Call)
    requires JoinMoves(s, k, op, k') && SweepFits(k)
    ensures SweepFits(k')
  {}

  lemma LeaveKeepsSweep(s: State, k: Call, op: Op, k': Call)
    requires LeaveMoves(s, k, op, k') && SweepFits(k)
    ensures SweepFits(k')
  {}

  lemma DeleteKeepsSweep(s: State, k: Call, op: Op, k': Call)
    requires DeleteMoves(s, k, op, k') && SweepFits(k)
    ensures SweepFits(k')
  {}

  lemma MoveKeepsSweep(s: State, k: Call, op: Op, k': Call)
    requires Moves(s, k, op, k') && SweepFits(k)
    ensures SweepFits(k')
  {
    if JoinMoves(s, k, op, k') {
      JoinKeepsSweep(s, k, op, k');
    } else if LeaveMoves(s, k, op, k') {
      LeaveKeepsSweep(s, k, op, k');
    } else {
      DeleteKeepsSweep(s, k, op, k');
    }
  }

  lemma NextKeepsSweeps(s: State, s': State)
    requires Next(s, s') && SweepsFit(s)
    ensures SweepsFit(s')
  {
    if t: CallId, op, k' :| CallStep(s, t, op, k', s') {
      MoveKeepsSweep(s, s.calls[t], op, k');
    }
  }

  lemma {:induction false} RunKeepsSweeps(states: seq<State>, i: nat)
    requires Run(states) && i < |states|
    ensures SweepsFit(states[i])
  {
    if i > 0 {
      RunKeepsSweeps(states, i - 1);
      assert Next(states[i - 1], states[i - 1 + 1]);
      NextKeepsSweeps(states[i - 1], states[i]);
    }
  }

  // ---------------------------------------------------------------- who can move

  ghost predicate CanMove(s: State, k: Call) {
    exists op, k' :: Enabled(s, op) && Moves(s, k, op, k')
  }

  lemma {:induction false} SomeEnumeration<T(!new)>(members: set<T>) returns (xs: seq<T>)
    ensures Enumerates(xs, members)
    decreases |members|
  {
    if members == {} {
      xs := [];
    } else {
      var x :| x in members;
      xs := SomeEnumeration(members - {x});
      xs := xs + [x];
    }
  }

  /** Waiting for roomsMu. */
  ghost predicate NeedsRooms(pc: Pc) {
    match pc
    case JoinKnown | LeaveStart | DelStart => true
    case _ => false
  }

  lemma JoinerCanMove(s: State, k: Call)
    requires k.pc == JoinFound ==> RoomFree(s, k.r)
    requires NeedsRooms(k.pc) ==> Enabled(s, LockRooms)
    requires match k.pc
             case JoinStart | JoinKnown | JoinHasRooms | JoinGot | JoinCounted | JoinFound => true
             case _ => false
    ensures CanMove(s, k)
  {
    var op, k' := Read, k;
    match k.pc {
      case JoinStart => k' := k.(pc := if k.name == "" || k.c !in s.registered then Finished else JoinKnown);
      case JoinKnown => op, k' := LockRooms, k.(pc := JoinHasRooms);
      case JoinHasRooms =>
        if k.name in s.rooms {
          k' := k.(pc := JoinCounted, r := s.rooms[k.name], created := false);
        } else {
          op, k' := Create(k.name), k.(pc := JoinGot, r := |s.objs|, created := true);
        }
      case JoinGot => op, k' := CountRoom(true), k.(pc := JoinCounted);
      case JoinCounted => op, k' := UnlockRooms, k.(pc := JoinFound);
      case JoinFound =>
        op := LockRoom(k.r);
        var members := Members(s, k.r);
        k' := k.(pc := if RoomFull(s.limits, members) || k.c in members then JoinRefused else JoinAllowed);
    }
    assert JoinMoves(s, k, op, k');
    assert Moves(s, k, op, k');
  }

  lemma RoomJoinerCanMove(s: State, k: Call)
    requires HasRoom(k.pc) ==> k.r < |s.objs|
    requires match k.pc
             case JoinAllowed | JoinRefused | JoinListed | JoinInserted | JoinSnapped | JoinUnlocked => true
             case _ => false
    ensures CanMove(s, k)
  {
    var op, k' := Read, k;
    match k.pc {
      case JoinAllowed =>
        if AtRoomLimit(s, k.c) {
          k' := k.(pc := JoinRefused);
        } else {
          op, k' := SetListed(k.c, RoomsOf(s, k.c) + {k.name}), k.(pc := JoinListed);
        }
      case JoinRefused =>
        op, k' := UnlockRoom(k.r), k.(pc := if k.created && Members(s, k.r) == {} then DelStart else Finished);
      case JoinListed => op, k' := SetMembers(k.r, Members(s, k.r) + {k.c}), k.(pc := JoinInserted);
      case JoinInserted =>
        var xs := SomeEnumeration(Members(s, k.r));
        op, k' := StoreSnapshot(k.r, xs), k.(pc := JoinSnapped);
      case JoinSnapped => op, k' := UnlockRoom(k.r), k.(pc := JoinUnlocked);
      case JoinUnlocked => op, k' := Bump(1), k.(pc := Finished);
    }
    assert JoinMoves(s, k, op, k');
    assert Moves(s, k, op, k');
  }

  lemma LeaveCanMove(s: State, k: Call)
    requires HasRoom(k.pc) ==> k.r < |s.objs|
    requires k.pc == LeaveFound || k.pc == LeaveSeen ==> RoomFree(s, k.r)
    requires NeedsRooms(k.pc) ==> s.roomsMu.None?
    requires match k.pc
             case LeaveStart | LeaveFound | LeaveSeen | LeaveGone => true
             case LeaveRechecking | LeaveRemoved | LeaveSnapped => true
             case LeaveUnlisted => k.sweep.Single?
             case LeaveCounted => true
             case _ => false
    ensures CanMove(s, k)
  {
    var op, k' := Read, k;
    match k.pc {
      case LeaveStart =>
        if k.sweep.Single? && k.name == "" {
          k' := k.(pc := Finished);
        } else {
          k' := if k.name in s.rooms then k.(pc := LeaveFound, r := s.rooms[k.name]) else k.(pc := Resume(k.sweep));
        }
      case LeaveFound => k' := k.(pc := if k.c in Members(s, k.r) then LeaveSeen else Resume(k.sweep));
      case LeaveSeen =>
        op, k' := LockRoom(k.r), k.(pc := if k.c in Members(s, k.r) then LeaveRechecking else LeaveGone);
      case LeaveGone => op, k' := UnlockRoom(k.r), k.(pc := Resume(k.sweep));
      case LeaveRechecking => op, k' := SetMembers(k.r, Members(s, k.r) - {k.c}), k.(pc := LeaveRemoved);
      case LeaveRemoved =>
        var xs := SomeEnumeration(Members(s, k.r));
        op, k' := StoreSnapshot(k.r, xs), k.(pc := LeaveSnapped);
      case LeaveSnapped =>
        if k.sweep.Single? {
          op, k' := SetListed(k.c, RoomsOf(s, k.c) - {k.name}), k.(pc := LeaveUnlisted);
        } else {
          k' := k.(pc := LeaveCounted, empty := Members(s, k.r) == {});
        }
      case LeaveUnlisted => op, k' := Bump(1), k.(pc := LeaveCounted, empty := Members(s, k.r) == {});
      case LeaveCounted =>
        op := UnlockRoom(k.r);
        k' := k.(pc := if k.empty then DelStart else Resume(k.sweep), sweep := NoteLeft(k.sweep, k.name));
    }
    assert LeaveMoves(s, k, op, k');
    assert Moves(s, k, op, k');
  }

  lemma SweepCanMove(s: State, k: Call)
    requires SweepFits(k) && (k.pc == AllStart || k.pc == AllNext || k.pc == AllUnlisted)
    ensures CanMove(s, k)
  {
    var op, k' := Read, k;
    if k.pc == AllStart {
      if RoomsOf(s, k.c) == {} {
        k' := k.(pc := Finished);
      } else {
        var rest := SomeEnumeration(RoomsOf(s, k.c));
        k' := k.(pc := AllNext, sweep := All(rest, []));
      }
    } else if k.pc == AllUnlisted {
      op, k' := Bump(|k.sweep.left|), k.(pc := Finished, sweep := Single);
    } else if k.sweep.rest != [] {
      k' := k.(pc := LeaveStart, name := k.sweep.rest[0], sweep := All(k.sweep.rest[1..], k.sweep.left));
    } else {
      op, k' := SetListed(k.c, RoomsOf(s, k.c) - (set n | n in k.sweep.left)), k.(pc := AllUnlisted);
    }
    assert LeaveMoves(s, k, op, k');
    assert Moves(s, k, op, k');
  }

  lemma DeleteCanMove(s: State, k: Call)
    requires HasRoom(k.pc) ==> k.r < |s.objs|
    requires k.pc == DelHasRooms ==> RoomFree(s, k.r)
    requires NeedsRooms(k.pc) ==> Enabled(s, LockRooms)
    requires match k.pc
             case DelStart | DelHasRooms | DelHasBoth | DelUnlinked | DelDecided | DelReleasing => true
             case _ => false
    ensures CanMove(s, k)
  {
    var op, k' := Read, k;
    match k.pc {
      case DelStart => op, k' := LockRooms, k.(pc := DelHasRooms);
      case DelHasRooms => op, k' := LockRoom(k.r), k.(pc := DelHasBoth);
      case DelHasBoth =>
        if Members(s, k.r) == {} && k.name in s.rooms && s.rooms[k.name] == k.r {
          op, k' := Unlink(k.name), k.(pc := DelUnlinked);
        } else {
          k' := k.(pc := DelDecided);
        }
      case DelUnlinked => op, k' := CountRoom(false), k.(pc := DelDecided);
      case DelDecided => op, k' := UnlockRoom(k.r), k.(pc := DelReleasing);
      case DelReleasing => op, k' := UnlockRooms, k.(pc := Resume(k.sweep));
    }
    assert DeleteMoves(s, k, op, k');
    assert Moves(s, k, op, k');
  }

  /** Waiting for the mutex of its room. */
  ghost predicate NeedsRoom(pc: Pc) {
    match pc
    case JoinFound | LeaveFound | LeaveSeen | DelHasRooms => true
    case _ => false
  }

  lemma UnblockedCanMove(s: State, k: Call)
    requires k.pc != Finished && SweepFits(k)
    requires HasRoom(k.pc) ==> k.r < |s.objs|
    requires NeedsRoom(k.pc) ==> RoomFree(s, k.r)
    requires NeedsRooms(k.pc) ==> Enabled(s, LockRooms)
    ensures CanMove(s, k)
  {
    match k.pc
    case JoinStart | JoinKnown | JoinHasRooms | JoinGot | JoinCounted | JoinFound => JoinerCanMove(s, k);
    case JoinAllowed | JoinRefused | JoinListed | JoinInserted | JoinSnapped | JoinUnlocked => RoomJoinerCanMove(s, k);
    case LeaveStart | LeaveFound | LeaveSeen | LeaveGone | LeaveRechecking | LeaveRemoved => LeaveCanMove(s, k);
    case LeaveSnapped | LeaveUnlisted | LeaveCounted => LeaveCanMove(s, k);
    case AllStart | AllNext | AllUnlisted => SweepCanMove(s, k);
    case DelStart | DelHasRooms | DelHasBoth | DelUnlinked | DelDecided | DelReleasing => DeleteCanMove(s, k);
  }

  /** A step of a call already made, or of the gather that the publisher is making. */
  ghost predicate Works(s: State, s': State) {
    || (exists t, op, k' :: CallStep(s, t, op, k', s'))
    || (s.publisher.Gathering? && PublishStep(s, s'))
  }

  lemma MoveIsAStep(s: State, t: CallId) returns (s': State)
    requires t < |s.calls| && CanMove(s, s.calls[t])
    ensures Works(s, s') && Next(s, s')
  {
    var op, k' :| Enabled(s, op) && Moves(s, s.calls[t], op, k');
    s' := Perform(s, t, op).(calls := s.calls[t := k']);
    assert CallStep(s, t, op, k', s');
  }

  /** Nothing can stop a gather: it reads the rooms without their mutexes. */
  lemma GatherCanMove(s: State) returns (s': State)
    requires s.publisher.Gathering?
    ensures Works(s, s') && Next(s, s')
  {
    var todo, sizes := s.publisher.todo, s.publisher.sizes;
    if todo == {} {
      s' := s.(publisher := Resting, gathered := true, cache := s.cache.(sizes := sizes));
    } else {
      var name :| name in todo;
      s' := s.(publisher := Gathering(todo - {name}, sizes[name := LiveSize(s, name)]));
      assert GatherOne(s, name, s');
    }
    assert PublishStep(s, s');
  }

  /** A call inside a room's locked section waits for nothing. */
  lemma RoomHolderCanMove(s: State, r: RoomId) returns (t: CallId)
    requires References(s) && RoomLocks(s) && SweepsFit(s) && r < |s.objs| && s.objs[r].mu.Some?
    ensures t < |s.calls| && CanMove(s, s.calls[t])
  {
    t := s.objs[r].mu.value;
    assert HoldsRoom(s.calls[t].pc);
    UnblockedCanMove(s, s.calls[t]);
  }

  /** With every room unlocked, neither does the holder of roomsMu. */
  lemma RoomsHolderCanMove(s: State) returns (t: CallId)
    requires References(s) && RoomsLock(s) && SweepsFit(s) && s.roomsMu.Some?
    requires forall r :: 0 <= r < |s.objs| ==> s.objs[r].mu.None?
    ensures t < |s.calls| && CanMove(s, s.calls[t])
  {
    t := s.roomsMu.value;
    assert HoldsRooms(s.calls[t].pc);
    UnblockedCanMove(s, s.calls[t]);
  }

  /** With every lock free and no gather under way, any unfinished call can move. */
  lemma SomeCallCanMove(s: State) returns (t: CallId)
    requires References(s) && RoomLocks(s) && RoomsLock(s) && SweepsFit(s) && !Quiescent(s) && !s.publisher.Gathering?
    ensures t < |s.calls| && CanMove(s, s.calls[t])
  {
    if r :| 0 <= r < |s.objs| && s.objs[r].mu.Some? {
      t := RoomHolderCanMove(s, r);
    } else if s.roomsMu.Some? {
      t := RoomsHolderCanMove(s);
    } else {
      t :| 0 <= t < |s.calls| && s.calls[t].pc != Finished;
      UnblockedCanMove(s, s.calls[t]);
    }
  }

  /** No deadlock: while any join, leave or sweep is unfinished, one of them or the gather under way can take a step. */
  lemma SomethingCanMove(states: seq<State>, i: nat) returns (s': State)
    requires Run(states) && i < |states| && !Quiescent(states[i])
    ensures Works(states[i], s') && Next(states[i], s')
  {
    RunGood(states, i);
    RunKeepsSweeps(states, i);
    if states[i].publisher.Gathering? {
      s' := GatherCanMove(states[i]);
    } else {
      var t := SomeCallCanMove(states[i]);
      s' := MoveIsAStep(states[i], t);
    }
  }

  // ---------------------------------------------------------------- every call returns

  /** Steps left in the room a call is dealing with. */
  ghost function RoomWork(pc: Pc): nat {
    match pc
    case JoinStart => 29
    case JoinKnown => 28
    case JoinHasRooms => 27
    case JoinGot => 26
    case JoinCounted => 25
    case JoinFound => 24
    case JoinAllowed => 23
    case JoinRefused => 22
    case JoinListed => 21
    case JoinInserted => 20
    case JoinSnapped => 19
    case JoinUnlocked => 18
    case LeaveStart => 17
    case LeaveFound => 16
    case LeaveSeen => 15
    case LeaveRechecking => 14
    case LeaveGone => 13
    case LeaveRemoved => 12
    case LeaveSnapped => 11
    case LeaveUnlisted => 10
    case LeaveCounted => 9
    case DelStart => 8
    case DelHasRooms => 7
    case DelHasBoth => 6
    case DelUnlinked => 5
    case DelDecided => 4
    case DelReleasing => 3
    case AllStart => 0
    case AllNext => 2
    case AllUnlisted => 1
    case Finished => 0
  }

  ghost function CallWork(k: Call): nat {
    RoomWork(k.pc) + if k.sweep.All? then 20 * |k.sweep.rest| else 0
  }

  /** A sweep that has not looked up its client's list yet: how long that will be is not known. */
  ghost function Unlisted(k: Call): nat {
    if k.pc == AllStart then 1 else 0
  }

  ghost function GatherWork(p: Publisher): nat {
    if p.Gathering? then |p.todo| + 1 else 0
  }

  ghost function SweepsToStart(s: State): nat {
    Total(Unlisted, s.calls)
  }

  ghost function Work(s: State): nat {
    Total(CallWork, s.calls) + GatherWork(s.publisher)
  }

  /** The order on (SweepsToStart, Work) that every step descends. */
  ghost predicate Less(s': State, s: State) {
    || SweepsToStart(s') < SweepsToStart(s)
    || (SweepsToStart(s') == SweepsToStart(s) && Work(s') < Work(s))
  }

  lemma JoinShrinksOutside(s: State, k: Call, op: Op, k': Call)
    requires JoinMoves(s, k, op, k') && !HoldsRoom(k.pc)
    ensures CallWork(k') < CallWork(k) && Unlisted(k') == Unlisted(k)
  {}

  lemma JoinShrinksInside(s: State, k: Call, op: Op, k': Call)
    requires JoinMoves(s, k, op, k') && HoldsRoom(k.pc)
    ensures CallWork(k') < CallWork(k) && Unlisted(k') == Unlisted(k)
  {}

  lemma LeaveShrinksInside(s: State, k: Call, op: Op, k': Call)
    requires LeaveMoves(s, k, op, k') && HoldsRoom(k.pc)
    ensures CallWork(k') < CallWork(k) && Unlisted(k') == Unlisted(k)
  {}

  /** Between rooms a sweep goes on to one of fewer, and before it starts it has its list still to look up. */
  ghost predicate Sweeping(pc: Pc) {
    pc == AllStart || pc == AllNext || pc == AllUnlisted
  }

  lemma SweepShrinks(s: State, k: Call, op: Op, k': Call)
    requires LeaveMoves(s, k, op, k') && Sweeping(k.pc)
    ensures Unlisted(k') < Unlisted(k) || (CallWork(k') < CallWork(k) && Unlisted(k') == Unlisted(k))
  {}

  lemma LeaveShrinksOutside(s: State, k: Call, op: Op, k': Call)
    requires LeaveMoves(s, k, op, k') && !HoldsRoom(k.pc) && !Sweeping(k.pc)
    ensures CallWork(k') < CallWork(k) && Unlisted(k') == Unlisted(k)
  {}

  lemma DeleteShrinks(s: State, k: Call, op: Op, k': Call)
    requires DeleteMoves(s, k, op, k')
    ensures CallWork(k') < CallWork(k) && Unlisted(k') == Unlisted(k)
  {}

  lemma MoveShrinks(s: State, k: Call, op: Op, k': Call)
    requires Moves(s, k, op, k')
    ensures Unlisted(k') < Unlisted(k) || (CallWork(k') < CallWork(k) && Unlisted(k') == Unlisted(k))
  {
    if JoinMoves(s, k, op, k') {
      if HoldsRoom(k.pc) {
        JoinShrinksInside(s, k, op, k');
      } else {
        JoinShrinksOutside(s, k, op, k');
      }
    } else if LeaveMoves(s, k, op, k') {
      if HoldsRoom(k.pc) {
        LeaveShrinksInside(s, k, op, k');
      } else if Sweeping(k.pc) {
        SweepShrinks(s, k, op, k');
      } else {
        LeaveShrinksOutside(s, k, op, k');
      }
    } else {
      DeleteShrinks(s, k, op, k');
    }
  }

  lemma CallStepDescends(s: State, t: CallId, op: Op, k': Call, s': State)
    requires CallStep(s, t, op, k', s')
    ensures Less(s', s)
  {
    MoveShrinks(s, s.calls[t], op, k');
    TotalUpdate(Unlisted, s.calls, t, k');
    TotalUpdate(CallWork, s.calls, t, k');
    assert s'.publisher == s.publisher;
  }

  lemma WorksDescends(s: State, s': State)
    requires Works(s, s')
    ensures Less(s', s)
  {
    if t: CallId, op, k' :| CallStep(s, t, op, k', s') {
      CallStepDescends(s, t, op, k', s');
    } else if s.publisher.todo != {} {
      var name :| GatherOne(s, name, s');
    }
  }

  /** A pair of numbers cannot descend for ever. */
  lemma {:induction false} DescentEnds(a: nat -> nat, w: nat -> nat, i: nat) returns (j: nat)
    ensures i <= j && !(a(j + 1) < a(j) || (a(j + 1) == a(j) && w(j + 1) < w(j)))
    decreases a(i), w(i)
  {
    j := i;
    if a(i + 1) < a(i) || (a(i + 1) == a(i) && w(i + 1) < w(i)) {
      j := DescentEnds(a, w, i + 1);
    }
  }

  /**
    The calls already made cannot go on for ever: every sequence of their steps comes to an end, whatever
    the sweeps find listed when they start.
   */
  lemma NoEndlessRun(f: nat -> State, i: nat) returns (j: nat)
    ensures i <= j && !Works(f(j), f(j + 1))
  {
    j := DescentEnds(n => SweepsToStart(f(n)), n => Work(f(n)), i);
    if Works(f(j), f(j + 1)) {
      WorksDescends(f(j), f(j + 1));
    }
  }

  /** And where it ends every call has returned. */
  lemma StuckMeansReturned(states: seq<State>, i: nat)
    requires Run(states) && i < |states| && !exists s' :: Works(states[i], s')
    ensures Quiescent(states[i])
  {
    if !Quiescent(states[i]) {
      var s' := SomethingCanMove(states, i);
    }
  }
}
