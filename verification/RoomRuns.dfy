/** Whole runs of the room protocol: no leaked rooms, sound snapshots, limits, and the presence cache. */
module RoomRuns {
  import opened Options
  import opened Totals
  import opened RoomProtocol
  import opened RoomSafety

  // ---------------------------------------------------------------- the invariant over runs

  lemma CallStepKeepsInv(s: State, t: CallId, op: Op, k': Call, s': State)
    requires Inv(s) && CallStep(s, t, op, k', s')
    ensures Inv(s')
  {
    MoveFacts(s, s.calls[t], op, k');
    ReferencesKept(s, t, op, k', s');
    RoomLocksKept(s, t, op, k', s');
    RoomsLockKept(s, t, op, k', s');
    SnapshotsKept(s, t, op, k', s');
    MembersFitKept(s, t, op, k', s');
    JoinersFitKept(s, t, op, k', s');
    RoomLimitsKept(s, t, op, k', s');
    EmptinessKept(s, t, op, k', s');
    NoLeakKept(s, t, op, k', s');
    MetricsKept(s, t, op, k', s');
    VersionsKept(s, t, op, k', s');
  }

  lemma NewCallKeepsNoLeak(s: State, k: Call, s': State)
    requires NoLeak(s) && s' == s.(calls := s.calls + [k])
    ensures NoLeak(s')
  {
    forall n | n in s'.rooms && Members(s', s'.rooms[n]) == {}
      ensures Answered(s', s'.rooms[n])
    {
      assert Members(s, s.rooms[n]) == {};
      var u :| 0 <= u < |s.calls| && AnswersFor(s.calls[u], s.rooms[n]);
      assert s'.calls[u] == s.calls[u];
    }
  }

  lemma NewCallKeepsLocks(s: State, k: Call, s': State)
    requires References(s) && RoomLocks(s) && RoomsLock(s) && NewCall(s, k, s')
    ensures References(s') && RoomLocks(s') && RoomsLock(s')
  {}

  lemma NewCallKeepsSizes(s: State, k: Call, s': State)
    requires RoomLocks(s) && RoomsLock(s) && NewCall(s, k, s')
    requires Snapshots(s) && RoomSizes(s) && Emptiness(s) && Metrics(s)
    ensures Snapshots(s') && RoomSizes(s') && Emptiness(s') && Metrics(s')
  {
    assert forall r :: Members(s', r) == Members(s, r);
  }

  lemma NewCallKeepsInv(s: State, k: Call, s': State)
    requires Inv(s) && NewCall(s, k, s')
    ensures Inv(s')
  {
    TotalAppend(Unbumped, s.calls, k);
    NewCallKeepsLocks(s, k, s');
    NewCallKeepsSizes(s, k, s');
    NewCallKeepsNoLeak(s, k, s');
  }

  /** The publisher and registration touch nothing the room invariant mentions. */
  lemma QuietStepKeepsInv(s: State, s': State)
    requires Inv(s)
    requires s'.limits == s.limits && s'.rooms == s.rooms && s'.roomsMu == s.roomsMu && s'.objs == s.objs
    requires s'.listed == s.listed && s'.version == s.version && s'.calls == s.calls && s'.changes == s.changes
    requires s'.incremented == s.incremented && s'.decremented == s.decremented
    requires s'.publisher.Gathering? ==> s.publisher.Gathering? || s.roomsMu.None?
    ensures Inv(s')
  {
    assert forall r :: Members(s', r) == Members(s, r);
    assert forall r :: Answered(s, r) ==> Answered(s', r);
  }

  // ---------------------------------------------------------------- the presence cache

  /** The size reported for `name`; an absent room reads as 0. */
  ghost function SizeIn(sizes: map<string, nat>, name: string): nat {
    if name in sizes then sizes[name] else 0
  }

  /** What a full gather would report now. */
  ghost function FreshGather(s: State): map<string, nat> {
    map n | n in s.rooms :: LiveSize(s, n)
  }

  ghost predicate Agrees(sizes: map<string, nat>, s: State) {
    forall n :: SizeIn(sizes, n) == LiveSize(s, n)
  }

  ghost predicate BetweenGathers(s: State) {
    s.publisher.Resting? || s.publisher.CountLoaded?
  }

  /**
    The cache was gathered after `base` snapshot changes, and roomVersion was at most that. As long
    as no further change has happened, what was gathered is what a reader finds now.
   */
  ghost predicate CacheInv(s: State) {
    && s.cache.version <= s.cache.base <= s.changes
    && (s.gathered && s.changes == s.cache.base ==> Agrees(s.cache.sizes, s))
    && (BetweenGathers(s) ==> (s.gathered <==> s.cache.version >= 0))
    && (s.publisher.VersionLoaded? ==> !s.gathered && s.cache.version >= 0)
    && (s.publisher.Gathering? ==>
          && !s.gathered
          && s.publisher.todo + s.publisher.sizes.Keys == s.rooms.Keys
          && s.publisher.todo !! s.publisher.sizes.Keys
          && (s.changes == s.cache.base ==>
                forall n :: n in s.publisher.sizes ==> s.publisher.sizes[n] == LiveSize(s, n))
          && s.cache.version >= 0)
  }

  /** An unlink step belongs to a deleteRoomIfEmpty that holds that very room and finds it empty. */
  lemma UnlinkFacts(s: State, k: Call, op: Op, k': Call)
    requires DeleteMoves(s, k, op, k') && op.Unlink?
    ensures k.pc == DelHasBoth && op.name == k.name
    ensures op.name in s.rooms && s.rooms[op.name] == k.r && Members(s, k.r) == {}
  {}

  /** A duplicate-free enumeration is as long as the set is large. */
  lemma {:induction false} EnumerationSize<T(!new)>(xs: seq<T>, members: set<T>)
    requires Enumerates(xs, members)
    ensures |xs| == |members|
  {
    if |xs| == 0 {
      assert members == {};
    } else {
      var n := |xs| - 1;
      var x := xs[n];
      assert xs == xs[..n] + [x];
      EnumerationSize(xs[..n], members - {x});
    }
  }

  /** The room being unlinked is not only empty: readers already find it empty. */
  lemma UnlinkedReadsEmpty(s: State, t: CallId, op: Op, k': Call)
    requires References(s) && RoomLocks(s) && Snapshots(s) && t < |s.calls|
    requires DeleteMoves(s, s.calls[t], op, k') && op.Unlink?
    ensures op.name in s.rooms && s.rooms[op.name] < |s.objs| && s.objs[s.rooms[op.name]].snapshot == []
  {
    UnlinkFacts(s, s.calls[t], op, k');
    var r := s.calls[t].r;
    assert HoldsRoom(s.calls[t].pc);
    assert s.objs[r].mu == Some(t);
    EnumerationSize(s.objs[r].snapshot, {});
  }

  /** Rooms come and go only while a reader would find them empty. */
  lemma LiveSizeKept(s: State, t: CallId, op: Op, k': Call, s': State, n: string)
    requires References(s) && Accesses(s, t, op, k', s') && !op.StoreSnapshot?
    requires op.Create? ==> op.name !in s.rooms
    requires op.Unlink? ==> LiveSize(s, op.name) == 0
    ensures LiveSize(s', n) == LiveSize(s, n)
  {}

  lemma OnlyDeleteUnlinks(s: State, k: Call, op: Op, k': Call)
    requires Moves(s, k, op, k') && op.Unlink?
    ensures DeleteMoves(s, k, op, k')
  {}

  lemma CallStepKeepsCache(s: State, t: CallId, op: Op, k': Call, s': State)
    requires Inv(s) && CacheInv(s) && CallStep(s, t, op, k', s')
    ensures CacheInv(s')
  {
    MoveFacts(s, s.calls[t], op, k');
    if op.Unlink? {
      OnlyDeleteUnlinks(s, s.calls[t], op, k');
      UnlinkedReadsEmpty(s, t, op, k');
    }
    if !op.StoreSnapshot? {
      forall n ensures LiveSize(s', n) == LiveSize(s, n) {
        LiveSizeKept(s, t, op, k', s', n);
      }
    }
  }

  lemma GatherOneKeepsCache(s: State, name: string, s': State)
    requires CacheInv(s) && GatherOne(s, name, s')
    ensures CacheInv(s')
  {
    assert forall n :: LiveSize(s', n) == LiveSize(s, n);
  }

  lemma GatherEndKeepsCache(s: State, s': State)
    requires References(s) && CacheInv(s) && s.publisher.Gathering? && s.publisher.todo == {}
    requires s' == s.(publisher := Resting, gathered := true, cache := s.cache.(sizes := s.publisher.sizes))
    ensures CacheInv(s')
  {
    assert s.publisher.sizes.Keys == s.rooms.Keys;
    assert forall n :: n in s.publisher.sizes <==> n in s.rooms;
    assert forall n :: LiveSize(s', n) == LiveSize(s, n);
  }

  lemma PublishStepKeepsCache(s: State, s': State)
    requires References(s) && CacheInv(s) && PublishStep(s, s')
    requires s.version <= s.changes
    ensures CacheInv(s')
  {
    if s.publisher.Gathering? {
      if s.publisher.todo == {} {
        GatherEndKeepsCache(s, s');
      } else {
        var name :| GatherOne(s, name, s');
        GatherOneKeepsCache(s, name, s');
      }
    } else {
      assert forall n :: LiveSize(s', n) == LiveSize(s, n);
    }
  }

  // ---------------------------------------------------------------- every reachable state

  ghost predicate Good(s: State) {
    Inv(s) && CacheInv(s)
  }

  lemma NewCallKeepsGood(s: State, k: Call, s': State)
    requires Good(s) && NewCall(s, k, s')
    ensures Good(s')
  {
    NewCallKeepsInv(s, k, s');
    assert forall n :: LiveSize(s', n) == LiveSize(s, n);
  }

  lemma PublishStepKeepsGood(s: State, s': State)
    requires Good(s) && PublishStep(s, s')
    ensures Good(s')
  {
    QuietStepKeepsInv(s, s');
    PublishStepKeepsCache(s, s');
  }

  lemma RegistrationKeepsGood(s: State, s': State)
    requires Good(s) && Registration(s, s')
    ensures Good(s')
  {
    QuietStepKeepsInv(s, s');
    assert forall n :: LiveSize(s', n) == LiveSize(s, n);
  }

  lemma NextKeepsGood(s: State, s': State)
    requires Good(s) && Next(s, s')
    ensures Good(s')
  {
    if t, op, k' :| CallStep(s, t, op, k', s') {
      CallStepKeepsInv(s, t, op, k', s');
      CallStepKeepsCache(s, t, op, k', s');
    } else if k :| NewCall(s, k, s') {
      NewCallKeepsGood(s, k, s');
    } else if PublishStep(s, s') {
      PublishStepKeepsGood(s, s');
    } else {
      RegistrationKeepsGood(s, s');
    }
  }

  lemma {:induction false} RunGood(states: seq<State>, i: nat)
    requires Run(states) && i < |states|
    ensures Good(states[i])
  {
    if i == 0 {
      InitInv(states[0]);
    } else {
      RunGood(states, i - 1);
      assert Next(states[i - 1], states[i - 1 + 1]);
      NextKeepsGood(states[i - 1], states[i]);
    }
  }

  // ---------------------------------------------------------------- the main results

  ghost predicate Quiescent(s: State) {
    forall t :: 0 <= t < |s.calls| ==> s.calls[t].pc == Finished
  }

  /** No leaked rooms: an empty room in h.rooms always has a call in flight that answers for it. */
  lemma EmptyRoomIsAnsweredFor(states: seq<State>, i: nat, name: string)
    requires Run(states) && i < |states|
    requires name in states[i].rooms && Members(states[i], states[i].rooms[name]) == {}
    ensures exists t :: 0 <= t < |states[i].calls| && AnswersFor(states[i].calls[t], states[i].rooms[name])
    ensures !Quiescent(states[i])
  {
    RunGood(states, i);
    EmptyRoomHasAnswer(states[i], name);
  }

  lemma EmptyRoomHasAnswer(s: State, name: string)
    requires NoLeak(s) && name in s.rooms && Members(s, s.rooms[name]) == {}
    ensures exists t :: 0 <= t < |s.calls| && AnswersFor(s.calls[t], s.rooms[name])
    ensures !Quiescent(s)
  {
    assert Answered(s, s.rooms[name]);
    var t :| 0 <= t < |s.calls| && AnswersFor(s.calls[t], s.rooms[name]);
    assert s.calls[t].pc != Finished;
  }

  /**
    Every room object ever created: whenever its mutex is free, its snapshot is a duplicate-free
    list of its members, of exactly their number, within the limit.
   */
  lemma FreeRoomIsSound(states: seq<State>, i: nat, r: RoomId)
    requires Run(states) && i < |states| && r < |states[i].objs| && states[i].objs[r].mu.None?
    ensures Enumerates(states[i].objs[r].snapshot, states[i].objs[r].members)
    ensures |states[i].objs[r].snapshot| == |states[i].objs[r].members|
    ensures states[i].limits.maxClientsPerRoom > 0 ==>
              |states[i].objs[r].snapshot| <= states[i].limits.maxClientsPerRoom
  {
    RunGood(states, i);
    EnumerationSize(states[i].objs[r].snapshot, states[i].objs[r].members);
  }

  /** No client ever lists more rooms than allowed, even between the steps of a join. */
  lemma RoomsPerClientBounded(states: seq<State>, i: nat, c: Client)
    requires Run(states) && i < |states| && states[i].limits.maxRoomsPerClient > 0
    ensures |RoomsOf(states[i], c)| <= states[i].limits.maxRoomsPerClient
  {
    RunGood(states, i);
  }

  /** IncrementRooms minus DecrementRooms is the number of rooms whenever roomsMu is free. */
  lemma RoomMetricExact(states: seq<State>, i: nat)
    requires Run(states) && i < |states| && states[i].roomsMu.None?
    ensures states[i].incremented - states[i].decremented == |states[i].rooms|
  {
    RunGood(states, i);
  }

  lemma DeletingStep(s: State, t: CallId, op: Op, k': Call, s': State, name: string)
    requires References(s) && RoomLocks(s) && Snapshots(s) && CallStep(s, t, op, k', s') && name in s.rooms
    requires name !in s'.rooms || s'.rooms[name] != s.rooms[name]
    ensures name !in s'.rooms && s.rooms[name] < |s.objs|
    ensures s.calls[t].pc == DelHasBoth && s.calls[t].r == s.rooms[name]
    ensures Members(s, s.rooms[name]) == {} && s.objs[s.rooms[name]].snapshot == []
  {
    MoveFacts(s, s.calls[t], op, k');
    assert op == Unlink(name);
    OnlyDeleteUnlinks(s, s.calls[t], op, k');
    UnlinkFacts(s, s.calls[t], op, k');
    UnlinkedReadsEmpty(s, t, op, k');
  }

  lemma OnlyCallsChangeRooms(s: State, s': State)
    requires Next(s, s') && s'.rooms != s.rooms
    ensures exists t, op, k' :: CallStep(s, t, op, k', s')
  {}

  /** A name is only ever unlinked by a call that holds the linked object and finds it empty. */
  lemma {:induction false} OnlyEmptyRoomsAreDeleted(states: seq<State>, i: nat, name: string)
    requires Run(states) && i + 1 < |states| && name in states[i].rooms
    requires name !in states[i + 1].rooms || states[i + 1].rooms[name] != states[i].rooms[name]
    ensures name !in states[i + 1].rooms
    ensures Members(states[i], states[i].rooms[name]) == {}
    ensures states[i].rooms[name] < |states[i].objs| && states[i].objs[states[i].rooms[name]].snapshot == []
    ensures exists t :: 0 <= t < |states[i].calls| && states[i].calls[t].pc == DelHasBoth &&
                        states[i].calls[t].r == states[i].rooms[name]
  {
    RunGood(states, i);
    OnlyCallsChangeRooms(states[i], states[i + 1]);
    var t, op, k' :| CallStep(states[i], t, op, k', states[i + 1]);
    DeletingStep(states[i], t, op, k', states[i + 1], name);
  }

  /**
    Between two gathers: if roomVersion is still the cached one and no call owes a bump, the cached
    sizes are what a full gather would find now.
   */
  lemma CachedSizesAreFresh(states: seq<State>, i: nat, name: string)
    requires Run(states) && i < |states| && BetweenGathers(states[i])
    requires states[i].cache.version == states[i].version
    requires forall t :: 0 <= t < |states[i].calls| ==> Unbumped(states[i].calls[t]) == 0
    ensures SizeIn(states[i].cache.sizes, name) == SizeIn(FreshGather(states[i]), name)
  {
    RunGood(states, i);
    TotalIsZero(Unbumped, states[i].calls);
    assert Agrees(states[i].cache.sizes, states[i]);
  }
}
