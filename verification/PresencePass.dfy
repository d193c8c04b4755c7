/**
  What one whole pass of the presence publisher reports, however joins, leaves, sweeps and
  registrations interleave with it.
 */
module PresencePass {
  import opened Options
  import opened Totals
  import opened RoomProtocol
  import opened RoomSafety
  import opened RoomRuns

  /** One call of publishPresence, from the state in which it starts to the one in which its report is ready. */
  ghost predicate Pass(states: seq<State>, i: nat, j: nat) {
    && i + 1 < j < |states|
    && states[i].publisher == Resting && states[j].publisher == Resting
    && forall m :: i < m < j ==> states[m].publisher != Resting
  }

  /** The cached version is the roomVersion of some state from i to m. */
  ghost predicate VersionSeen(states: seq<State>, i: nat, m: nat)
    requires m < |states|
  {
    exists l :: i <= l <= m && states[m].cache.version == states[l].version
  }

  /** The size given for a name is the one a reader finds in some state from i to m. */
  ghost predicate SizeSeen(states: seq<State>, i: nat, m: nat, name: string, size: nat)
    requires m < |states|
  {
    exists l :: i <= l <= m && size == LiveSize(states[l], name)
  }

  /** The report of the pass before still stands: neither count nor version had changed. */
  ghost predicate Repeats(states: seq<State>, i: nat, m: nat)
    requires i < |states| && m < |states|
  {
    && states[m].cache == states[i].cache && states[m].gathered == states[i].gathered
    && states[i].cache.count == states[i].clientCount
  }

  // ---------------------------------------------------------------- one step

  ghost predicate StepAt(states: seq<State>, m: nat)
    requires m + 1 < |states|
  {
    Next(states[m], states[m + 1])
  }

  ghost predicate Steps(states: seq<State>) {
    forall m :: 0 <= m < |states| - 1 ==> StepAt(states, m)
  }

  lemma CallStepLeavesPublisher(s: State, t: CallId, op: Op, k': Call, s': State)
    requires Accesses(s, t, op, k', s')
    ensures s'.publisher == s.publisher && s'.cache == s.cache && s'.gathered == s.gathered
  {}

  /** A step of the run is one of the publisher, or leaves the publisher and its cache alone. */
  lemma StepOfPublisher(s: State, s': State)
    requires Next(s, s')
    ensures || PublishStep(s, s')
            || (s'.publisher == s.publisher && s'.cache == s.cache && s'.gathered == s.gathered)
  {
    if t, op, k' :| CallStep(s, t, op, k', s') {
      CallStepLeavesPublisher(s, t, op, k', s');
    }
  }

  lemma CallStepCountsUp(s: State, t: CallId, op: Op, k': Call, s': State)
    requires Accesses(s, t, op, k', s')
    ensures s.version <= s'.version && s.changes <= s'.changes
  {}

  lemma CountsUp(s: State, s': State)
    requires Next(s, s')
    ensures s.version <= s'.version && s.changes <= s'.changes
  {
    if t, op, k' :| CallStep(s, t, op, k', s') {
      CallStepCountsUp(s, t, op, k', s');
    } else if PublishStep(s, s') && s.publisher.Gathering? && s.publisher.todo != {} {
      var name :| GatherOne(s, name, s');
    }
  }

  lemma {:induction false} RunCountsUp(states: seq<State>, i: nat, j: nat)
    requires Steps(states) && i <= j < |states|
    ensures states[i].version <= states[j].version && states[i].changes <= states[j].changes
  {
    if i < j {
      RunCountsUp(states, i, j - 1);
      assert StepAt(states, j - 1);
      CountsUp(states[j - 1], states[j]);
    }
  }

  // ---------------------------------------------------------------- along the pass

  /** What holds in state m of a pass that began in state i. */
  ghost predicate Underway(states: seq<State>, i: nat, m: nat)
    requires i < m < |states|
  {
    var s := states[m];
    match s.publisher
    case CountLoaded(count) =>
      count == states[i].clientCount && s.cache == states[i].cache && s.gathered == states[i].gathered
    case VersionLoaded =>
      s.cache.count == states[i].clientCount && VersionSeen(states, i, m)
    case Gathering(todo, sizes) =>
      && s.cache.count == states[i].clientCount && VersionSeen(states, i, m)
      && (forall n :: n in sizes ==> SizeSeen(states, i, m, n, sizes[n]))
      && (forall n :: n !in sizes && n !in todo ==> SizeSeen(states, i, m, n, 0))
    case Resting => true
  }

  /** What holds when the pass is over. */
  ghost predicate Over(states: seq<State>, i: nat, m: nat)
    requires i < m < |states|
  {
    var s := states[m];
    && s.cache.count == states[i].clientCount && VersionSeen(states, i, m)
    && (Repeats(states, i, m) || forall n :: SizeSeen(states, i, m, n, SizeIn(s.cache.sizes, n)))
  }

  lemma SeenLater(states: seq<State>, i: nat, m: nat)
    requires i <= m && m + 1 < |states|
    ensures forall n, size :: SizeSeen(states, i, m, n, size) ==> SizeSeen(states, i, m + 1, n, size)
    ensures states[m + 1].cache.version == states[m].cache.version && VersionSeen(states, i, m) ==>
              VersionSeen(states, i, m + 1)
  {}

  lemma VersionIsSeen(states: seq<State>, i: nat, m: nat, l: nat)
    requires i <= l <= m < |states| && states[m].cache.version == states[l].version
    ensures VersionSeen(states, i, m)
  {}

  lemma SizeIsSeen(states: seq<State>, i: nat, m: nat, l: nat, name: string)
    requires i <= l <= m < |states|
    ensures SizeSeen(states, i, m, name, LiveSize(states[l], name))
  {}

  /** The publisher compares what it has loaded with what the last gather was made for. */
  lemma CompareStep(states: seq<State>, i: nat, m: nat)
    requires i < m && m + 1 < |states| && states[m].publisher.CountLoaded? && Underway(states, i, m)
    requires PublishStep(states[m], states[m + 1])
    ensures if states[m + 1].publisher.Resting? then Over(states, i, m + 1) else Underway(states, i, m + 1)
  {
    VersionIsSeen(states, i, m + 1, m);
  }

  lemma BeginGather(states: seq<State>, i: nat, m: nat)
    requires i < m && m + 1 < |states| && states[m].publisher.VersionLoaded? && Underway(states, i, m)
    requires PublishStep(states[m], states[m + 1])
    ensures Underway(states, i, m + 1) && states[m + 1].publisher != Resting
  {
    SeenLater(states, i, m);
    forall n | n !in states[m].rooms
      ensures SizeSeen(states, i, m + 1, n, 0)
    {
      SizeIsSeen(states, i, m + 1, m, n);
    }
  }

  lemma GatherOneMore(states: seq<State>, i: nat, m: nat, name: string)
    requires i < m && m + 1 < |states| && Underway(states, i, m) && GatherOne(states[m], name, states[m + 1])
    ensures Underway(states, i, m + 1) && states[m + 1].publisher != Resting
  {
    SeenLater(states, i, m);
    SizeIsSeen(states, i, m + 1, m, name);
  }

  lemma EndGather(states: seq<State>, i: nat, m: nat)
    requires i < m && m + 1 < |states| && Underway(states, i, m)
    requires states[m].publisher.Gathering? && states[m].publisher.todo == {} && PublishStep(states[m], states[m + 1])
    ensures Over(states, i, m + 1)
  {
    SeenLater(states, i, m);
  }

  /** The publisher's part of the run, from one state of the pass to the next. */
  lemma PassStep(states: seq<State>, i: nat, m: nat)
    requires i < m && m + 1 < |states| && states[m].publisher != Resting && Underway(states, i, m)
    requires Next(states[m], states[m + 1])
    ensures if states[m + 1].publisher.Resting? then Over(states, i, m + 1) else Underway(states, i, m + 1)
  {
    var s, s' := states[m], states[m + 1];
    StepOfPublisher(s, s');
    if s'.publisher == s.publisher && s'.cache == s.cache && s'.gathered == s.gathered {
      SeenLater(states, i, m);
    } else if s.publisher.CountLoaded? {
      CompareStep(states, i, m);
    } else if s.publisher.VersionLoaded? {
      BeginGather(states, i, m);
    } else if s.publisher.todo == {} {
      EndGather(states, i, m);
    } else {
      var name :| GatherOne(s, name, s');
      GatherOneMore(states, i, m, name);
    }
  }

  lemma PassBegins(states: seq<State>, i: nat)
    requires i + 1 < |states| && Next(states[i], states[i + 1])
    requires states[i].publisher.Resting? && !states[i + 1].publisher.Resting?
    ensures Underway(states, i, i + 1)
  {
    StepOfPublisher(states[i], states[i + 1]);
  }

  /** The publisher has not rested since the pass began. */
  lemma {:induction false} PassUnderway(states: seq<State>, i: nat, m: nat)
    requires Steps(states) && i < m < |states| && states[i].publisher.Resting?
    requires forall l :: i < l <= m ==> !states[l].publisher.Resting?
    ensures Underway(states, i, m)
  {
    assert StepAt(states, m - 1);
    if m == i + 1 {
      PassBegins(states, i);
    } else {
      PassUnderway(states, i, m - 1);
      PassStep(states, i, m - 1);
    }
  }

  lemma PassIsOver(states: seq<State>, i: nat, j: nat)
    requires Steps(states) && Pass(states, i, j)
    ensures Over(states, i, j)
  {
    PassUnderway(states, i, j - 1);
    assert StepAt(states, j - 1);
    PassStep(states, i, j - 1);
  }

  lemma GatheredOnce(s: State)
    requires CacheInv(s) && s.publisher.Resting? && s.cache.version >= 0
    ensures s.gathered
  {}

  // ---------------------------------------------------------------- the main results

  /**
    Every pass ends with a report made for the client count at its start and for a roomVersion of its
    own time. Either it repeats the report before, or every room's size, and the absence of every other
    room, was read during the pass.
   */
  lemma PassReports(states: seq<State>, i: nat, j: nat)
    requires Run(states) && Pass(states, i, j)
    ensures states[j].gathered && states[j].cache.count == states[i].clientCount
    ensures exists l :: i <= l <= j && states[j].cache.version == states[l].version
    ensures || states[j].cache == states[i].cache
            || forall n :: exists l :: i <= l <= j && SizeIn(states[j].cache.sizes, n) == LiveSize(states[l], n)
  {
    assert Steps(states);
    PassIsOver(states, i, j);
    RunGood(states, j);
    GatheredOnce(states[j]);
    if states[j].cache != states[i].cache {
      forall n
        ensures exists l :: i <= l <= j && SizeIn(states[j].cache.sizes, n) == LiveSize(states[l], n)
      {
        assert SizeSeen(states, i, j, n, SizeIn(states[j].cache.sizes, n));
      }
    }
  }

  /**
    A pass during which no room changes, begun when every change had been counted in roomVersion, reports
    every room as it is: a change that has been counted is never missed.
   */
  lemma QuietPassReportsRooms(states: seq<State>, i: nat, j: nat, name: string)
    requires Run(states) && Pass(states, i, j)
    requires forall t :: 0 <= t < |states[i].calls| ==> Unbumped(states[i].calls[t]) == 0
    requires states[j].changes == states[i].changes
    ensures states[j].cache.count == states[i].clientCount
    ensures SizeIn(states[j].cache.sizes, name) == LiveSize(states[j], name)
    ensures SizeIn(states[j].cache.sizes, name) == LiveSize(states[i], name)
  {
    PassReports(states, i, j);
    var l :| i <= l <= j && states[j].cache.version == states[l].version;
    RunGood(states, i);
    RunGood(states, j);
    TotalIsZero(Unbumped, states[i].calls);
    assert Steps(states);
    RunCountsUp(states, i, l);
    assert states[j].cache.base == states[j].changes;
    assert Agrees(states[j].cache.sizes, states[j]);
    SizesStand(states, i, j, name);
  }

  lemma CallStepKeepsSize(s: State, t: CallId, op: Op, k': Call, s': State, name: string)
    requires References(s) && RoomLocks(s) && Snapshots(s) && CallStep(s, t, op, k', s') && s'.changes == s.changes
    ensures LiveSize(s', name) == LiveSize(s, name)
  {
    MoveFacts(s, s.calls[t], op, k');
    if op.Unlink? {
      OnlyDeleteUnlinks(s, s.calls[t], op, k');
      UnlinkedReadsEmpty(s, t, op, k');
    }
    LiveSizeKept(s, t, op, k', s', name);
  }

  lemma QuietStepKeepsSize(s: State, s': State, name: string)
    requires PublishStep(s, s') || Registration(s, s') || exists k :: NewCall(s, k, s')
    ensures LiveSize(s', name) == LiveSize(s, name)
  {}

  lemma SizeStands(s: State, s': State, name: string)
    requires References(s) && RoomLocks(s) && Snapshots(s) && Next(s, s') && s'.changes == s.changes
    ensures LiveSize(s', name) == LiveSize(s, name)
  {
    if t, op, k' :| CallStep(s, t, op, k', s') {
      CallStepKeepsSize(s, t, op, k', s', name);
    } else {
      QuietStepKeepsSize(s, s', name);
    }
  }

  lemma ChangesStand(states: seq<State>, i: nat, j: nat, m: nat)
    requires Steps(states) && i <= m < j < |states| && states[j].changes == states[i].changes
    ensures states[m + 1].changes == states[m].changes
  {
    RunCountsUp(states, i, m);
    RunCountsUp(states, m, m + 1);
    RunCountsUp(states, m + 1, j);
  }

  lemma SizeStandsAt(states: seq<State>, m: nat, name: string)
    requires Run(states) && m + 1 < |states| && states[m + 1].changes == states[m].changes
    ensures LiveSize(states[m + 1], name) == LiveSize(states[m], name)
  {
    RunGood(states, m);
    SizeStands(states[m], states[m + 1], name);
  }

  lemma {:induction false} SizesAgree(states: seq<State>, i: nat, j: nat, name: string)
    requires i <= j < |states|
    requires forall m :: i <= m < j ==> LiveSize(states[m + 1], name) == LiveSize(states[m], name)
    ensures LiveSize(states[j], name) == LiveSize(states[i], name)
  {
    if i < j {
      SizesAgree(states, i, j - 1, name);
      assert LiveSize(states[j - 1 + 1], name) == LiveSize(states[j - 1], name);
    }
  }

  /** What readers find changes with the snapshots only. */
  lemma SizesStand(states: seq<State>, i: nat, j: nat, name: string)
    requires Run(states) && i <= j < |states| && states[j].changes == states[i].changes
    ensures LiveSize(states[j], name) == LiveSize(states[i], name)
  {
    assert Steps(states);
    forall m | i <= m < j
      ensures LiveSize(states[m + 1], name) == LiveSize(states[m], name)
    {
      ChangesStand(states, i, j, m);
      SizeStandsAt(states, m, name);
    }
    SizesAgree(states, i, j, name);
  }

  /** The publisher is held up only by a writer of the room map. */
  lemma PublisherIsHeldUpExactlyWhen(s: State)
    ensures (exists s' :: PublishStep(s, s')) <==> !(s.publisher == VersionLoaded && s.roomsMu.Some?)
  {
    match s.publisher {
      case Resting =>
        assert PublishStep(s, s.(publisher := CountLoaded(s.clientCount)));
      case CountLoaded(count) =>
        assert PublishStep(s, if count == s.cache.count && s.version == s.cache.version then s.(publisher := Resting)
                              else s.(publisher := VersionLoaded, gathered := false,
                                      cache := Cache(count, s.version, s.cache.sizes, s.changes)));
      case VersionLoaded =>
        assert s.roomsMu.None? ==> PublishStep(s, s.(publisher := Gathering(s.rooms.Keys, map[])));
      case Gathering(todo, sizes) =>
        if todo == {} {
          assert PublishStep(s, s.(publisher := Resting, gathered := true, cache := s.cache.(sizes := sizes)));
        } else {
          var name :| name in todo;
          var s' := s.(publisher := Gathering(todo - {name}, sizes[name := LiveSize(s, name)]));
          assert GatherOne(s, name, s') && PublishStep(s, s');
        }
    }
  }
}
