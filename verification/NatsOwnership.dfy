/** Who owns each NATS subscription, in every interleaving, and why every call returns. */
module NatsOwnership {
  import opened Options
  import opened Totals
  import opened NatsAdapter

  /** The call has taken over an installed subscription and will release and drain it. */
  ghost predicate Releasing(pc: Pc) {
    match pc
    case Release | Await | DrainTaken => true
    case _ => false
  }

  /** The call will drain the subscription it holds. */
  ghost predicate Holding(k: Call) {
    Releasing(k.pc) || k.pc == Decide || k.pc == Discard
  }

  ghost predicate Holds(k: Call, id: SubId) {
    Holding(k) && k.held == id
  }

  /** A Subscribe that has claimed its generation and not yet decided whether to install. */
  ghost predicate Claiming(k: Call) {
    match k.pc
    case Release | Await | DrainTaken | Connect | Decide => !k.closing
    case _ => false
  }

  ghost function Live(sub: Sub): nat {
    match sub.watcher
    case Unstarted | Watching | Leaving => 1
    case _ => 0
  }

  ghost predicate CurInv(s: State) {
    && (s.shared.closed ==> s.shared.cur == None)
    && (s.shared.cur.Some? ==> s.shared.cur.value < |s.subs| && s.subs[s.shared.cur.value].watcher != Discarded)
  }

  /** Generations are owned by one call each, and the newest one has not been installed yet. */
  ghost predicate GenInv(s: State) {
    && (forall t :: 0 <= t < |s.calls| ==> s.calls[t].gen <= s.shared.gen)
    && (forall t, u :: 0 <= t < u < |s.calls| && s.calls[t].gen == s.calls[u].gen ==> s.calls[t].gen == 0)
    && (forall t :: 0 <= t < |s.calls| && Claiming(s.calls[t]) ==>
          s.calls[t].gen > 0 && (s.calls[t].gen == s.shared.gen ==> s.shared.cur == None))
  }

  /** What a call knows about the subscription it holds. */
  ghost predicate CallInv(s: State, k: Call) {
    && (Releasing(k.pc) ==> k.held < |s.subs| && s.subs[k.held].watcher != Discarded)
    && (k.pc == Await ==> s.subs[k.held].stopped)
    && (k.pc == DrainTaken ==> s.subs[k.held].watcher == Exited)
    && (k.pc == Decide || k.pc == Discard ==> k.held < |s.subs| && s.subs[k.held].watcher == Discarded)
    && (k.pc == Spawn ==> k.held < |s.subs| && s.subs[k.held].watcher == Unstarted)
    && (k.pc == SubStart || k.pc == Connect || k.pc == Decide || k.pc == Discard || k.pc == Spawn ==> !k.closing)
  }

  ghost predicate HeldInv(s: State) {
    forall t :: 0 <= t < |s.calls| ==> CallInv(s, s.calls[t])
  }

  /** No subscription has two holders, or a holder while it is current; nor two spawning calls. */
  ghost predicate OneOwner(s: State) {
    && (forall t, u :: 0 <= t < u < |s.calls| && Holding(s.calls[t]) && Holding(s.calls[u]) ==>
          s.calls[t].held != s.calls[u].held)
    && (forall t :: 0 <= t < |s.calls| && Holding(s.calls[t]) ==> s.shared.cur != Some(s.calls[t].held))
    && (forall t, u :: 0 <= t < u < |s.calls| && s.calls[t].pc == Spawn && s.calls[u].pc == Spawn ==>
          s.calls[t].held != s.calls[u].held)
  }

  ghost predicate Held(s: State, id: SubId) {
    exists t :: 0 <= t < |s.calls| && Holds(s.calls[t], id)
  }

  /** Holder that has not yet seen the watcher exit. */
  ghost predicate Awaits(k: Call, id: SubId) {
    k.held == id && (k.pc == Release || k.pc == Await)
  }

  ghost predicate Awaited(s: State, id: SubId) {
    exists t :: 0 <= t < |s.calls| && Awaits(s.calls[t], id)
  }

  ghost predicate Spawns(k: Call, id: SubId) {
    k.held == id && k.pc == Spawn
  }

  ghost predicate Spawning(s: State, id: SubId) {
    exists t :: 0 <= t < |s.calls| && Spawns(s.calls[t], id)
  }

  ghost predicate SubInv(s: State, id: SubId)
    requires id < |s.subs|
  {
    && (s.subs[id].drainOnce || s.shared.cur == Some(id) || Held(s, id))
    && (s.subs[id].watcher == Discarded || s.subs[id].watcher == Exited || s.shared.cur == Some(id) || Awaited(s, id))
    && (s.subs[id].watcher == Unstarted ==> Spawning(s, id))
    && s.subs[id].drains == (if s.subs[id].drainOnce then 1 else 0)
  }

  ghost predicate SubsInv(s: State) {
    forall id :: 0 <= id < |s.subs| ==> SubInv(s, id)
  }

  ghost predicate CountInv(s: State) {
    s.shared.watchers == Total(Live, s.subs)
  }

  ghost predicate Inv(s: State) {
    CurInv(s) && GenInv(s) && HeldInv(s) && OneOwner(s) && SubsInv(s) && CountInv(s)
  }

  // ---------------------------------------------------------------- one step keeps the invariant

  /** Call t moved from k to k'; the other calls still hold, await and spawn what they did. */
  lemma OthersStay(s: State, t: CallId, s': State, id: SubId)
    requires t < |s.calls| && |s'.calls| == |s.calls| && s'.calls == s.calls[t := s'.calls[t]]
    ensures Held(s, id) ==> Held(s', id) || (Holds(s.calls[t], id) && !Holds(s'.calls[t], id))
    ensures Awaited(s, id) ==> Awaited(s', id) || (Awaits(s.calls[t], id) && !Awaits(s'.calls[t], id))
    ensures Spawning(s, id) ==> Spawning(s', id) || (Spawns(s.calls[t], id) && !Spawns(s'.calls[t], id))
    ensures Holds(s'.calls[t], id) ==> Held(s', id)
    ensures Awaits(s'.calls[t], id) ==> Awaited(s', id)
    ensures Spawns(s'.calls[t], id) ==> Spawning(s', id)
  {
    if Held(s, id) {
      var u :| 0 <= u < |s.calls| && Holds(s.calls[u], id);
      assert u != t ==> Holds(s'.calls[u], id);
    }
    if Awaited(s, id) {
      var u :| 0 <= u < |s.calls| && Awaits(s.calls[u], id);
      assert u != t ==> Awaits(s'.calls[u], id);
    }
    if Spawning(s, id) {
      var u :| 0 <= u < |s.calls| && Spawns(s.calls[u], id);
      assert u != t ==> Spawns(s'.calls[u], id);
    }
  }

  lemma EnterKeepsGens(s: State, t: CallId, s': State)
    requires CurInv(s) && GenInv(s) && HeldInv(s) && OneOwner(s) && t < |s.calls| && EnterStep(s, t, s')
    ensures CurInv(s') && GenInv(s')
  {}

  lemma EnterKeepsHeld(s: State, t: CallId, s': State)
    requires CurInv(s) && HeldInv(s) && OneOwner(s) && t < |s.calls| && EnterStep(s, t, s')
    ensures HeldInv(s')
  {}

  lemma EnterKeepsOwner(s: State, t: CallId, s': State)
    requires CurInv(s) && HeldInv(s) && OneOwner(s) && t < |s.calls| && EnterStep(s, t, s')
    ensures OneOwner(s')
  {}

  lemma EnterKeepsSubs(s: State, t: CallId, s': State)
    requires t < |s.calls| && CurInv(s) && CallInv(s, s.calls[t]) && SubsInv(s) && CountInv(s) && EnterStep(s, t, s')
    ensures SubsInv(s') && CountInv(s')
  {
    forall id | 0 <= id < |s'.subs|
      ensures SubInv(s', id)
    {
      OthersStay(s, t, s', id);
      assert id < |s.subs| ==> SubInv(s, id);
    }
  }

  /** Call t keeps its generation, and makes its subscription current only as the newest claim, which it gives up. */
  ghost predicate ClaimFollows(s: State, t: CallId, s': State)
    requires t < |s.calls| == |s'.calls|
  {
    var k, k' := s.calls[t], s'.calls[t];
    && s'.calls == s.calls[t := k'] && s'.shared.gen == s.shared.gen && k'.gen == k.gen
    && (Claiming(k') ==> Claiming(k) && s'.shared.cur == s.shared.cur)
    && (s'.shared.cur == s.shared.cur || (Claiming(k) && k.gen == s.shared.gen))
  }

  lemma ClaimKeepsGens(s: State, t: CallId, s': State)
    requires GenInv(s) && t < |s.calls| == |s'.calls| && ClaimFollows(s, t, s')
    ensures GenInv(s')
  {
    forall u | 0 <= u < |s.calls| && u != t
      ensures s'.calls[u] == s.calls[u]
      ensures Claiming(s.calls[t]) && Claiming(s.calls[u]) ==> s.calls[u].gen != s.calls[t].gen
    {
      var a, b := if u < t then u else t, if u < t then t else u;
      assert s.calls[a].gen == s.calls[b].gen ==> s.calls[a].gen == 0;
    }
  }

  lemma TakeOverKeepsCur(s: State, t: CallId, s': State)
    requires CurInv(s) && t < |s.calls| && TakeOverStep(s, t, s')
    ensures CurInv(s')
  {}

  lemma TakeOverFollows(s: State, t: CallId, s': State)
    requires t < |s.calls| && CallInv(s, s.calls[t]) && TakeOverStep(s, t, s')
    ensures |s'.calls| == |s.calls| && ClaimFollows(s, t, s')
  {}

  lemma TakeOverKeepsGens(s: State, t: CallId, s': State)
    requires GenInv(s) && t < |s.calls| && CallInv(s, s.calls[t]) && TakeOverStep(s, t, s')
    ensures GenInv(s')
  {
    TakeOverFollows(s, t, s');
    ClaimKeepsGens(s, t, s');
  }

  lemma TakeOverKeepsHeld(s: State, t: CallId, s': State)
    requires CurInv(s) && HeldInv(s) && OneOwner(s) && t < |s.calls| && TakeOverStep(s, t, s')
    ensures HeldInv(s')
  {}

  lemma TakeOverKeepsOwner(s: State, t: CallId, s': State)
    requires CurInv(s) && HeldInv(s) && OneOwner(s) && t < |s.calls| && TakeOverStep(s, t, s')
    ensures OneOwner(s')
  {}

  lemma TakeOverKeepsSubs(s: State, t: CallId, s': State)
    requires t < |s.calls| && CurInv(s) && CallInv(s, s.calls[t]) && SubsInv(s) && CountInv(s) && TakeOverStep(s, t, s')
    ensures SubsInv(s') && CountInv(s')
  {
    forall id | 0 <= id < |s'.subs|
      ensures SubInv(s', id)
    {
      OthersStay(s, t, s', id);
      assert id < |s.subs| ==> SubInv(s, id);
    }
    var held := s.calls[t].held;
    TotalUpdate(Live, s.subs, held, s'.subs[held]);
    assert s.subs[held := s.subs[held]] == s.subs;
  }

  lemma InstallKeepsCur(s: State, t: CallId, s': State)
    requires CurInv(s) && t < |s.calls| && InstallStep(s, t, s')
    ensures CurInv(s')
  {}

  lemma InstallFollows(s: State, t: CallId, s': State)
    requires t < |s.calls| && CallInv(s, s.calls[t]) && InstallStep(s, t, s')
    ensures |s'.calls| == |s.calls| && ClaimFollows(s, t, s')
  {}

  lemma InstallKeepsGens(s: State, t: CallId, s': State)
    requires GenInv(s) && t < |s.calls| && CallInv(s, s.calls[t]) && InstallStep(s, t, s')
    ensures GenInv(s')
  {
    InstallFollows(s, t, s');
    ClaimKeepsGens(s, t, s');
  }

  lemma InstallKeepsHeld(s: State, t: CallId, s': State)
    requires CurInv(s) && HeldInv(s) && OneOwner(s) && t < |s.calls| && InstallStep(s, t, s')
    ensures HeldInv(s')
  {}

  lemma InstallKeepsOwner(s: State, t: CallId, s': State)
    requires CurInv(s) && HeldInv(s) && OneOwner(s) && t < |s.calls| && InstallStep(s, t, s')
    ensures OneOwner(s')
  {}

  lemma InstallKeepsSubs(s: State, t: CallId, s': State)
    requires t < |s.calls| && CurInv(s) && CallInv(s, s.calls[t]) && SubsInv(s) && CountInv(s) && InstallStep(s, t, s')
    requires Claiming(s.calls[t]) && s.calls[t].gen == s.shared.gen ==> s.shared.cur == None
    ensures SubsInv(s') && CountInv(s')
  {
    forall id | 0 <= id < |s'.subs|
      ensures SubInv(s', id)
    {
      OthersStay(s, t, s', id);
      assert id < |s.subs| ==> SubInv(s, id);
    }
    var held := s.calls[t].held;
    TotalUpdate(Live, s.subs, held, s'.subs[held]);
    assert s.subs[held := s.subs[held]] == s.subs;
  }

  lemma ConnectKeepsGens(s: State, t: CallId, c: bool, s': State)
    requires CurInv(s) && GenInv(s) && HeldInv(s) && OneOwner(s) && t < |s.calls| && ConnectStep(s, t, c, s')
    ensures CurInv(s') && GenInv(s')
  {}

  lemma ConnectKeepsHeld(s: State, t: CallId, c: bool, s': State)
    requires CurInv(s) && HeldInv(s) && OneOwner(s) && t < |s.calls| && ConnectStep(s, t, c, s')
    ensures HeldInv(s')
  {}

  lemma ConnectKeepsOwner(s: State, t: CallId, c: bool, s': State)
    requires CurInv(s) && HeldInv(s) && OneOwner(s) && t < |s.calls| && ConnectStep(s, t, c, s')
    ensures OneOwner(s')
  {}

  lemma ConnectKeepsSubs(s: State, t: CallId, c: bool, s': State)
    requires SubsInv(s) && CountInv(s) && t < |s.calls| && ConnectStep(s, t, c, s')
    ensures SubsInv(s') && CountInv(s')
  {
    forall id | 0 <= id < |s'.subs|
      ensures SubInv(s', id)
    {
      OthersStay(s, t, s', id);
      assert id < |s.subs| ==> SubInv(s, id);
    }
    TotalAppend(Live, s.subs, Sub(Discarded, c, false, false, 0));
  }

  lemma WatcherKeepsGens(s: State, id: SubId, s': State)
    requires CurInv(s) && GenInv(s) && HeldInv(s) && OneOwner(s) && id < |s.subs| && WatcherStep(s, id, s')
    ensures CurInv(s') && GenInv(s')
  {}

  lemma WatcherKeepsHeld(s: State, id: SubId, s': State)
    requires CurInv(s) && GenInv(s) && HeldInv(s) && OneOwner(s) && id < |s.subs| && WatcherStep(s, id, s')
    ensures HeldInv(s')
  {}

  lemma WatcherKeepsOwner(s: State, id: SubId, s': State)
    requires CurInv(s) && GenInv(s) && HeldInv(s) && OneOwner(s) && id < |s.subs| && WatcherStep(s, id, s')
    ensures OneOwner(s')
  {}

  lemma SameCallsStay(s: State, s': State, id: SubId)
    requires s'.calls == s.calls
    ensures (Held(s, id) ==> Held(s', id)) && (Awaited(s, id) ==> Awaited(s', id))
    ensures Spawning(s, id) ==> Spawning(s', id)
  {}

  lemma WatcherKeepsSubs(s: State, id: SubId, s': State)
    requires SubsInv(s) && CountInv(s) && id < |s.subs| && WatcherStep(s, id, s')
    ensures SubsInv(s') && CountInv(s')
  {
    TotalUpdate(Live, s.subs, id, s'.subs[id]);
    forall j | 0 <= j < |s'.subs|
      ensures SubInv(s', j)
    {
      assert SubInv(s, j);
      SameCallsStay(s, s', j);
    }
  }

  lemma CancelKeepsHeld(s: State, id: SubId, s': State)
    requires CurInv(s) && GenInv(s) && HeldInv(s) && OneOwner(s) && Cancel(s, id, s')
    ensures CurInv(s') && GenInv(s') && HeldInv(s') && OneOwner(s')
  {}

  lemma CancelKeepsSubs(s: State, id: SubId, s': State)
    requires SubsInv(s) && CountInv(s) && Cancel(s, id, s')
    ensures SubsInv(s') && CountInv(s')
  {
    TotalUpdate(Live, s.subs, id, s'.subs[id]);
    forall j | 0 <= j < |s'.subs|
      ensures SubInv(s', j)
    {
      assert SubInv(s, j);
      SameCallsStay(s, s', j);
    }
  }

  lemma CancelKeepsInv(s: State, id: SubId, s': State)
    requires Inv(s) && Cancel(s, id, s')
    ensures Inv(s')
  {
    CancelKeepsHeld(s, id, s');
    CancelKeepsSubs(s, id, s');
  }

  lemma NewCallKeepsGens(s: State, s': State)
    requires CurInv(s) && GenInv(s) && HeldInv(s) && OneOwner(s) && NewCall(s, s')
    ensures CurInv(s') && GenInv(s')
  {}

  lemma NewCallKeepsHeld(s: State, s': State)
    requires CurInv(s) && GenInv(s) && HeldInv(s) && OneOwner(s) && NewCall(s, s')
    ensures HeldInv(s')
  {}

  lemma NewCallKeepsOwner(s: State, s': State)
    requires CurInv(s) && GenInv(s) && HeldInv(s) && OneOwner(s) && NewCall(s, s')
    ensures OneOwner(s')
  {}

  lemma NewCallKeepsSubs(s: State, s': State)
    requires SubsInv(s) && CountInv(s) && NewCall(s, s')
    ensures SubsInv(s') && CountInv(s')
  {
    forall j | 0 <= j < |s'.subs|
      ensures SubInv(s', j)
    {
      assert SubInv(s, j);
      if Held(s, j) {
        var u :| 0 <= u < |s.calls| && Holds(s.calls[u], j);
        assert Holds(s'.calls[u], j);
      }
      if Awaited(s, j) {
        var u :| 0 <= u < |s.calls| && Awaits(s.calls[u], j);
        assert Awaits(s'.calls[u], j);
      }
      if Spawning(s, j) {
        var u :| 0 <= u < |s.calls| && Spawns(s.calls[u], j);
        assert Spawns(s'.calls[u], j);
      }
    }
  }

  lemma CallStepKeepsInv(s: State, t: CallId, s': State)
    requires Inv(s) && CallStep(s, t, s')
    ensures Inv(s')
  {
    if EnterStep(s, t, s') {
      EnterKeepsGens(s, t, s');
      EnterKeepsHeld(s, t, s');
      EnterKeepsOwner(s, t, s');
      EnterKeepsSubs(s, t, s');
    } else if TakeOverStep(s, t, s') {
      TakeOverKeepsCur(s, t, s');
      TakeOverKeepsGens(s, t, s');
      TakeOverKeepsHeld(s, t, s');
      TakeOverKeepsOwner(s, t, s');
      TakeOverKeepsSubs(s, t, s');
    } else if InstallStep(s, t, s') {
      InstallKeepsCur(s, t, s');
      InstallKeepsGens(s, t, s');
      InstallKeepsHeld(s, t, s');
      InstallKeepsOwner(s, t, s');
      InstallKeepsSubs(s, t, s');
    } else {
      var c :| ConnectStep(s, t, c, s');
      ConnectKeepsGens(s, t, c, s');
      ConnectKeepsHeld(s, t, c, s');
      ConnectKeepsOwner(s, t, c, s');
      ConnectKeepsSubs(s, t, c, s');
    }
  }

  lemma WatcherKeepsInv(s: State, id: SubId, s': State)
    requires Inv(s) && id < |s.subs| && WatcherStep(s, id, s')
    ensures Inv(s')
  {
    WatcherKeepsGens(s, id, s');
    WatcherKeepsHeld(s, id, s');
    WatcherKeepsOwner(s, id, s');
    WatcherKeepsSubs(s, id, s');
  }

  lemma NewCallKeepsInv(s: State, s': State)
    requires Inv(s) && NewCall(s, s')
    ensures Inv(s')
  {
    NewCallKeepsGens(s, s');
    NewCallKeepsHeld(s, s');
    NewCallKeepsOwner(s, s');
    NewCallKeepsSubs(s, s');
  }

  lemma NextKeepsInv(s: State, s': State)
    requires Inv(s) && Next(s, s')
    ensures Inv(s')
  {
    if t :| CallStep(s, t, s') {
      CallStepKeepsInv(s, t, s');
    } else if id :| 0 <= id < |s.subs| && WatcherStep(s, id, s') {
      WatcherKeepsInv(s, id, s');
    } else if NewCall(s, s') {
      NewCallKeepsInv(s, s');
    } else {
      var id :| Cancel(s, id, s');
      CancelKeepsInv(s, id, s');
    }
  }

  lemma {:induction false} RunInv(states: seq<State>, i: nat)
    requires Run(states) && i < |states|
    ensures Inv(states[i])
  {
    if i > 0 {
      RunInv(states, i - 1);
      assert Next(states[i - 1], states[i - 1 + 1]);
      NextKeepsInv(states[i - 1], states[i]);
    }
  }

  // ---------------------------------------------------------------- the main results

  /**
    Each subscription ever created has been drained, or is the current one, or is held by a call
    that will drain it; never by two calls, and never by a call while it is current.
   */
  lemma EverySubscriptionIsOwned(states: seq<State>, i: nat, id: SubId)
    requires Run(states) && i < |states| && id < |states[i].subs|
    ensures states[i].subs[id].drains == 1 || states[i].shared.cur == Some(id) || Held(states[i], id)
    ensures states[i].subs[id].drains <= 1
    ensures !(states[i].shared.cur == Some(id) && Held(states[i], id))
    ensures forall t, u :: 0 <= t < u < |states[i].calls| && Holds(states[i].calls[t], id) ==>
              !Holds(states[i].calls[u], id)
  {
    RunInv(states, i);
    assert SubInv(states[i], id);
  }

  /** An install never overwrites a current subscription, and a closed adapter has none. */
  lemma InstallNeverOverwrites(states: seq<State>, i: nat)
    requires Run(states) && i + 1 < |states|
    ensures states[i + 1].shared.cur.Some? && states[i + 1].shared.cur != states[i].shared.cur ==>
              states[i].shared.cur == None
    ensures states[i].shared.closed ==> states[i].shared.cur == None
    ensures states[i].shared.closed ==> states[i + 1].shared.closed
  {
    RunInv(states, i);
    assert Next(states[i], states[i + 1]);
  }

  ghost predicate AllReturned(s: State) {
    forall t :: 0 <= t < |s.calls| ==> s.calls[t].pc == Returned
  }

  /** No call is at work: those that have begun have returned. */
  ghost predicate NoneUnderWay(s: State) {
    forall t :: 0 <= t < |s.calls| ==>
      s.calls[t].pc == Returned || s.calls[t].pc == SubStart || s.calls[t].pc == CloseStart
  }

  /**
    Once closed, with no call under way, each subscription was drained exactly once and no watcher is left.
    Calls that begin later find the adapter closed.
   */
  lemma ClosedMeansReleased(states: seq<State>, i: nat)
    requires Run(states) && i < |states| && states[i].shared.closed && NoneUnderWay(states[i])
    ensures forall id :: 0 <= id < |states[i].subs| ==> states[i].subs[id].drains == 1
    ensures states[i].shared.watchers == 0
  {
    RunInv(states, i);
    var s := states[i];
    forall id | 0 <= id < |s.subs|
      ensures s.subs[id].drains == 1 && Live(s.subs[id]) == 0
    {
      assert SubInv(s, id);
    }
    TotalIsZero(Live, s.subs);
  }

  // ---------------------------------------------------------------- every call returns

  ghost function CallWork(k: Call): nat {
    match k.pc
    case SubStart => 20
    case CloseStart => 20
    case Release => 18
    case Await => 17
    case DrainTaken => 16
    case Connect => 15
    case Decide => 4
    case Discard => 1
    case Spawn => 1
    case Returned => 0
  }

  ghost function SubWork(sub: Sub): nat {
    match sub.watcher
    case Discarded => 5
    case Unstarted => 4
    case Watching => 3
    case Leaving => 2
    case Closing => 1
    case Exited => 0
  }

  /** The steps that the calls made so far and their watchers can still take. */
  ghost function Work(s: State): nat {
    Total(CallWork, s.calls) + Total(SubWork, s.subs)
  }

  /** Each call step trades work for less work, even when it creates a subscription or starts a watcher. */
  lemma CallStepTrade(s: State, t: CallId, s': State)
    requires HeldInv(s) && CallStep(s, t, s')
    ensures s'.calls == s.calls[t := s'.calls[t]]
    ensures
      || (s'.subs == s.subs && CallWork(s'.calls[t]) < CallWork(s.calls[t]))
      || (|s'.subs| == |s.subs| + 1 && s'.subs == s.subs + [s'.subs[|s.subs|]] &&
          CallWork(s'.calls[t]) + SubWork(s'.subs[|s.subs|]) < CallWork(s.calls[t]))
      || (s.calls[t].held < |s.subs| && |s'.subs| == |s.subs| &&
          s'.subs == s.subs[s.calls[t].held := s'.subs[s.calls[t].held]] &&
          CallWork(s'.calls[t]) + SubWork(s'.subs[s.calls[t].held]) <
          CallWork(s.calls[t]) + SubWork(s.subs[s.calls[t].held]))
  {}

  lemma CallStepShrinksWork(s: State, t: CallId, s': State)
    requires Inv(s) && CallStep(s, t, s')
    ensures Work(s') < Work(s)
  {
    CallStepTrade(s, t, s');
    TotalUpdate(CallWork, s.calls, t, s'.calls[t]);
    if |s'.subs| > |s.subs| {
      TotalAppend(SubWork, s.subs, s'.subs[|s.subs|]);
    } else if s'.subs != s.subs {
      var held := s.calls[t].held;
      TotalUpdate(SubWork, s.subs, held, s'.subs[held]);
    }
  }

  lemma WatcherStepShrinksWork(s: State, id: SubId, s': State)
    requires id < |s.subs| && WatcherStep(s, id, s')
    ensures Work(s') < Work(s)
  {
    TotalUpdate(SubWork, s.subs, id, s'.subs[id]);
  }

  /** No deadlock: while some call has not returned, a call or a watcher can move. */
  lemma SomethingCanMove(s: State, t: CallId) returns (s': State)
    requires Inv(s) && t < |s.calls| && s.calls[t].pc != Returned
    ensures Works(s, s')
  {
    var k := s.calls[t];
    match k.pc {
      case SubStart =>
        s' := if s.shared.closed then Goto(s, t, k.(pc := Returned))
              else Goto(s, t, WithTaken(false, s.shared.gen + 1, s.shared.cur)).(shared := Claim(s.shared));
        assert EnterStep(s, t, s');
      case CloseStart =>
        s' := if s.shared.closed then Goto(s, t, k.(pc := Returned))
              else Goto(s, t, WithTaken(true, 0, s.shared.cur)).(shared := Shut(s.shared));
        assert EnterStep(s, t, s');
      case Release =>
        s' := Goto(PutSub(s, k.held, s.subs[k.held].(stopped := true)), t, k.(pc := Await));
        assert TakeOverStep(s, t, s');
      case Await =>
        s' := AwaitedWatcherCanMove(s, t);
      case DrainTaken =>
        s' := Goto(PutSub(s, k.held, Drained(s.subs[k.held])), t, k.(pc := if k.closing then Returned else Connect));
        assert TakeOverStep(s, t, s');
      case Connect =>
        s' := Goto(s, t, k.(pc := Returned));
        assert ConnectStep(s, t, true, s');
      case Decide =>
        s' := if MayInstall(s.shared, k.gen)
              then Goto(PutSub(s, k.held, s.subs[k.held].(watcher := Unstarted)), t, k.(pc := Spawn)).(
                        shared := Install(s.shared, k.held))
              else Goto(s, t, k.(pc := Discard));
        assert InstallStep(s, t, s');
      case Discard =>
        s' := Goto(PutSub(s, k.held, Drained(s.subs[k.held])), t, k.(pc := Returned));
        assert InstallStep(s, t, s');
      case Spawn =>
        s' := Goto(PutSub(s, k.held, s.subs[k.held].(watcher := Watching)), t, k.(pc := Returned));
        assert InstallStep(s, t, s');
    }
    assert !s.calls[t].pc.Await? ==> CallStep(s, t, s');
  }

  /** A call waiting on done waits for a watcher that can move, or that another call is about to start. */
  lemma AwaitedWatcherCanMove(s: State, t: CallId) returns (s': State)
    requires Inv(s) && t < |s.calls| && s.calls[t].pc == Await
    ensures Works(s, s')
  {
    var k := s.calls[t];
    assert CallInv(s, k);
    var id := k.held;
    var sub := s.subs[id];
    assert SubInv(s, id);
    match sub.watcher {
      case Exited =>
        s' := Goto(s, t, k.(pc := DrainTaken));
        assert TakeOverStep(s, t, s');
        assert CallStep(s, t, s');
      case Unstarted =>
        var u :| 0 <= u < |s.calls| && Spawns(s.calls[u], id);
        s' := Goto(PutSub(s, id, sub.(watcher := Watching)), u, s.calls[u].(pc := Returned));
        assert InstallStep(s, u, s');
        assert CallStep(s, u, s');
      case Watching =>
        s' := PutSub(s, id, sub.(watcher := Leaving));
        assert WatcherStep(s, id, s');
      case Leaving =>
        s' := PutSub(s, id, sub.(watcher := Closing)).(shared := s.shared.(watchers := s.shared.watchers - 1));
        assert WatcherStep(s, id, s');
      case Closing =>
        s' := PutSub(s, id, sub.(watcher := Exited));
        assert WatcherStep(s, id, s');
    }
  }

  /** A run of steps of the calls already made, from s. */
  ghost predicate WorkRun(states: seq<State>, s: State) {
    && |states| > 0 && states[0] == s
    && forall i :: 0 <= i < |states| - 1 ==> Works(states[i], states[i + 1])
  }

  /** Such runs cannot go on for ever: none is longer than the work outstanding at its start. */
  lemma {:induction false} WorkRunsAreBounded(states: seq<State>, s: State)
    requires Inv(s) && WorkRun(states, s)
    ensures |states| <= Work(s) + 1
    decreases |states|
  {
    if |states| > 1 {
      var s' := states[1];
      assert Works(states[0], states[0 + 1]);
      assert WorkRun(states[1..], s');
      if t :| CallStep(s, t, s') {
        CallStepKeepsInv(s, t, s');
        CallStepShrinksWork(s, t, s');
      } else {
        var id :| 0 <= id < |s.subs| && WatcherStep(s, id, s');
        WatcherKeepsInv(s, id, s');
        WatcherStepShrinksWork(s, id, s');
      }
      WorkRunsAreBounded(states[1..], s');
    }
  }

  /** And one that cannot be extended has every call returned. */
  lemma StuckMeansReturned(s: State)
    requires Inv(s) && !exists s' :: Works(s, s')
    ensures AllReturned(s)
  {
    forall t | 0 <= t < |s.calls|
      ensures s.calls[t].pc == Returned
    {
      if s.calls[t].pc != Returned {
        var s' := SomethingCanMove(s, t);
      }
    }
  }
}
