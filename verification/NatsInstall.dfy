/**
  Which subscription a NATS adapter ends up with: when the second locked section of a Subscribe
  installs, told by what else happened in the run, and what becomes of the current subscription.
 */
module NatsInstall {
  import opened Options
  import opened NatsAdapter
  import opened NatsOwnership

  /** Call u runs its first locked section in step m: the only one of Close, the claim of Subscribe. */
  ghost predicate Enters(states: seq<State>, m: nat, u: CallId)
    requires m + 1 < |states|
  {
    && u < |states[m].calls| && u < |states[m + 1].calls|
    && Entering(states[m].calls[u].pc) && !Entering(states[m + 1].calls[u].pc)
  }

  /** No call enters between states i and j. */
  ghost predicate NobodyEnters(states: seq<State>, i: nat, j: nat)
    requires i <= j < |states|
  {
    forall m, u :: i <= m < j ==> !Enters(states, m, u)
  }

  // ---------------------------------------------------------------- generations along a run

  ghost predicate Entering(pc: Pc) {
    pc == SubStart || pc == CloseStart
  }

  /** What a step of call u does to its entry and to the fields that tell generations apart. */
  lemma CallStepFacts(s: State, u: CallId, s': State)
    requires u < |s.calls| && CallInv(s, s.calls[u]) && CallStep(s, u, s')
    ensures u < |s'.calls| && s'.calls == s.calls[u := s'.calls[u]] && !Entering(s'.calls[u].pc)
    ensures !Entering(s.calls[u].pc) ==>
              s'.calls[u].gen == s.calls[u].gen && s'.shared.gen == s.shared.gen && s'.shared.closed == s.shared.closed
    ensures s.calls[u].pc == SubStart && !s.shared.closed ==>
              s'.shared.gen == s.shared.gen + 1 == s'.calls[u].gen && !s'.shared.closed
    ensures s.calls[u].pc == CloseStart || s.shared.closed ==> s'.shared.closed && s'.shared.gen == s.shared.gen
    ensures s.calls[u].pc == SubStart && s.shared.closed ==> s'.calls[u].pc == Returned
  {}

  /** Watchers, cancellations and new calls leave the calls there are and the generations alone. */
  lemma OtherStepFacts(s: State, s': State)
    requires || NewCall(s, s') || (exists id :: Cancel(s, id, s'))
             || exists id :: 0 <= id < |s.subs| && WatcherStep(s, id, s')
    ensures |s.calls| <= |s'.calls| && s'.calls[..|s.calls|] == s.calls
    ensures s'.shared.gen == s.shared.gen && s'.shared.closed == s.shared.closed && s'.shared.cur == s.shared.cur
  {}

  lemma CallStands(s: State, s': State, t: CallId)
    requires t < |s.calls| <= |s'.calls| && s'.calls[..|s.calls|] == s.calls
    ensures s'.calls[t] == s.calls[t]
  {
    assert s'.calls[..|s.calls|][t] == s'.calls[t];
  }

  /** Calls are only added, and keep their generation from their first step on. */
  lemma CallsStay(s: State, s': State, t: CallId)
    requires HeldInv(s) && Next(s, s') && t < |s.calls|
    ensures t < |s'.calls|
    ensures !Entering(s.calls[t].pc) ==> s'.calls[t].gen == s.calls[t].gen && !Entering(s'.calls[t].pc)
  {
    if u: CallId :| CallStep(s, u, s') {
      CallStepFacts(s, u, s');
    } else {
      OtherStepFacts(s, s');
      CallStands(s, s', t);
    }
  }

  lemma GensGrow(s: State, s': State)
    requires HeldInv(s) && Next(s, s')
    ensures s.shared.gen <= s'.shared.gen && (s.shared.closed ==> s'.shared.closed)
  {
    if u: CallId :| CallStep(s, u, s') {
      CallStepFacts(s, u, s');
    } else {
      OtherStepFacts(s, s');
    }
  }

  /** Only an entering call changes the generation or closes the adapter. */
  lemma OnlyEnteringChangesGens(s: State, s': State)
    requires HeldInv(s) && Next(s, s')
    requires s'.shared.gen != s.shared.gen || s'.shared.closed != s.shared.closed
    ensures exists u :: 0 <= u < |s.calls| && u < |s'.calls| && Entering(s.calls[u].pc) && !Entering(s'.calls[u].pc)
  {
    if u: CallId :| CallStep(s, u, s') {
      CallStepFacts(s, u, s');
    } else {
      OtherStepFacts(s, s');
    }
  }

  /** A call that enters finds the adapter closed, closes it, or claims a new generation. */
  lemma EnteringSupersedes(s: State, u: CallId, s': State)
    requires HeldInv(s) && Next(s, s') && u < |s.calls| && u < |s'.calls|
    requires Entering(s.calls[u].pc) && !Entering(s'.calls[u].pc)
    ensures s'.shared.closed || s'.shared.gen == s.shared.gen + 1
  {
    if t: CallId :| CallStep(s, t, s') {
      CallStepFacts(s, t, s');
    } else {
      OtherStepFacts(s, s');
      CallStands(s, s', u);
    }
  }

  // ---------------------------------------------------------------- between the claim and the second section

  ghost predicate StepAt(states: seq<State>, m: nat)
    requires m + 1 < |states|
  {
    Inv(states[m]) && Next(states[m], states[m + 1])
  }

  ghost predicate Steps(states: seq<State>) {
    forall m :: 0 <= m < |states| - 1 ==> StepAt(states, m)
  }

  lemma RunSteps(states: seq<State>)
    requires Run(states)
    ensures Steps(states)
  {
    forall m | 0 <= m < |states| - 1
      ensures StepAt(states, m)
    {
      RunInv(states, m);
    }
  }

  lemma ChangeMeansEntry(states: seq<State>, m: nat)
    requires Steps(states) && m + 1 < |states|
    requires states[m + 1].shared.gen != states[m].shared.gen || states[m + 1].shared.closed != states[m].shared.closed
    ensures exists u :: Enters(states, m, u)
  {
    assert StepAt(states, m);
    OnlyEnteringChangesGens(states[m], states[m + 1]);
    var s, s' := states[m], states[m + 1];
    var u :| 0 <= u < |s.calls| && u < |s'.calls| && Entering(s.calls[u].pc) && !Entering(s'.calls[u].pc);
    assert Enters(states, m, u);
  }

  /** While nobody enters, generation and closed flag stand still. */
  lemma {:induction false} GensStand(states: seq<State>, i: nat, j: nat)
    requires Steps(states) && i <= j < |states| && NobodyEnters(states, i, j)
    ensures states[j].shared.gen == states[i].shared.gen && states[j].shared.closed == states[i].shared.closed
  {
    if i < j {
      GensStand(states, i, j - 1);
      if states[j].shared.gen != states[j - 1].shared.gen || states[j].shared.closed != states[j - 1].shared.closed {
        ChangeMeansEntry(states, j - 1);
      }
    }
  }

  lemma {:induction false} RunGensGrow(states: seq<State>, i: nat, j: nat)
    requires Steps(states) && i <= j < |states|
    ensures states[i].shared.gen <= states[j].shared.gen && (states[i].shared.closed ==> states[j].shared.closed)
  {
    if i < j {
      RunGensGrow(states, i, j - 1);
      assert StepAt(states, j - 1);
      GensGrow(states[j - 1], states[j]);
    }
  }

  lemma {:induction false} CallKeepsGen(states: seq<State>, i: nat, j: nat, t: CallId)
    requires Steps(states) && i <= j < |states| && t < |states[i].calls| && !Entering(states[i].calls[t].pc)
    ensures t < |states[j].calls| && states[j].calls[t].gen == states[i].calls[t].gen
    ensures !Entering(states[j].calls[t].pc)
  {
    if i < j {
      CallKeepsGen(states, i, j - 1, t);
      assert StepAt(states, j - 1);
      CallsStay(states[j - 1], states[j], t);
    }
  }

  /** Subscribe t claims its generation in step i. */
  ghost predicate Claims(states: seq<State>, i: nat, t: CallId)
    requires i + 1 < |states|
  {
    Enters(states, i, t) && states[i].calls[t].pc == SubStart && !states[i].shared.closed
  }

  lemma ClaimStep(states: seq<State>, i: nat, t: CallId)
    requires Steps(states) && i + 1 < |states| && Claims(states, i, t)
    ensures states[i + 1].calls[t].gen == states[i + 1].shared.gen && !states[i + 1].shared.closed
  {
    assert StepAt(states, i);
    var s, s' := states[i], states[i + 1];
    if u: CallId :| CallStep(s, u, s') {
      CallStepFacts(s, u, s');
    } else {
      OtherStepFacts(s, s');
      CallStands(s, s', t);
    }
  }

  /** The claim is the newest and the adapter open exactly as long as nobody enters after it. */
  lemma NewestExactlyWhenAlone(states: seq<State>, i: nat, j: nat, t: CallId)
    requires Steps(states) && i < j < |states| && Claims(states, i, t)
    ensures t < |states[j].calls|
    ensures !states[j].shared.closed && states[j].shared.gen == states[j].calls[t].gen <==>
            NobodyEnters(states, i + 1, j)
  {
    ClaimStep(states, i, t);
    CallKeepsGen(states, i + 1, j, t);
    if NobodyEnters(states, i + 1, j) {
      GensStand(states, i + 1, j);
    } else {
      var m, u :| i + 1 <= m < j && Enters(states, m, u);
      RunGensGrow(states, i + 1, m);
      assert StepAt(states, m);
      EnteringSupersedes(states[m], u, states[m + 1]);
      RunGensGrow(states, m + 1, j);
    }
  }

  /** What the second locked section does, told by the adapter's fields. */
  lemma DecideStep(s: State, t: CallId, s': State)
    requires Inv(s) && Next(s, s') && t < |s.calls| && t < |s'.calls|
    requires s.calls[t].pc == Decide && s'.calls[t].pc != Decide
    ensures s.shared.cur != Some(s.calls[t].held)
    ensures s'.shared.cur == Some(s.calls[t].held) <==> !s.shared.closed && s.shared.gen == s.calls[t].gen
    ensures s'.shared.cur != Some(s.calls[t].held) ==> s'.shared == s.shared && s'.calls[t].pc == Discard
  {
    if u: CallId :| CallStep(s, u, s') {
      CallStepFacts(s, u, s');
      assert u == t;
      assert InstallStep(s, t, s');
    } else {
      OtherStepFacts(s, s');
      CallStands(s, s', t);
    }
  }

  /**
    A Subscribe that gets as far as its second locked section makes its subscription current if and only
    if no other Subscribe or Close has entered since it claimed its generation; if one has, it changes
    nothing there and goes on to drain what it holds.
   */
  lemma InstalledExactlyWhenLast(states: seq<State>, i: nat, j: nat, t: CallId)
    requires Run(states) && i < j && j + 1 < |states| && Claims(states, i, t)
    requires t < |states[j].calls| && t < |states[j + 1].calls|
    requires states[j].calls[t].pc == Decide && states[j + 1].calls[t].pc != Decide
    ensures states[j].shared.cur != Some(states[j].calls[t].held)
    ensures states[j + 1].shared.cur == Some(states[j].calls[t].held) <==>
            forall m, u :: i < m < j ==> !Enters(states, m, u)
    ensures (exists m, u :: i < m < j && Enters(states, m, u)) ==>
              states[j + 1].shared == states[j].shared && states[j + 1].calls[t].pc == Discard
  {
    RunSteps(states);
    NewestExactlyWhenAlone(states, i, j, t);
    RunInv(states, j);
    DecideStep(states[j], t, states[j + 1]);
  }

  // ---------------------------------------------------------------- the current subscription

  /** Before it is installed a subscription has been neither stopped nor drained. */
  ghost predicate UntouchedInv(s: State) {
    forall t :: 0 <= t < |s.calls| && s.calls[t].pc == Decide ==>
      s.calls[t].held < |s.subs| && !s.subs[s.calls[t].held].drainOnce && !s.subs[s.calls[t].held].stopped
  }

  /** The current one has a watcher that waits for its context, or has drained it because of the context. */
  ghost predicate CurrentInv(s: State) {
    s.shared.cur.Some? ==>
      && s.shared.cur.value < |s.subs|
      && var sub := s.subs[s.shared.cur.value];
         !sub.stopped && if sub.drainOnce then sub.cancelled else sub.watcher == Unstarted || sub.watcher == Watching
  }

  lemma EnterKeepsCurrent(s: State, t: CallId, s': State)
    requires UntouchedInv(s) && CurrentInv(s) && t < |s.calls| && EnterStep(s, t, s')
    ensures UntouchedInv(s') && CurrentInv(s')
  {}

  lemma TakeOverKeepsCurrent(s: State, t: CallId, s': State)
    requires OneOwner(s) && UntouchedInv(s) && CurrentInv(s) && t < |s.calls| && TakeOverStep(s, t, s')
    ensures UntouchedInv(s') && CurrentInv(s')
  {}

  lemma InstallKeepsCurrent(s: State, t: CallId, s': State)
    requires HeldInv(s) && OneOwner(s) && UntouchedInv(s) && CurrentInv(s) && t < |s.calls| && InstallStep(s, t, s')
    ensures UntouchedInv(s') && CurrentInv(s')
  {
    assert CallInv(s, s.calls[t]);
  }

  lemma ConnectKeepsCurrent(s: State, t: CallId, c: bool, s': State)
    requires UntouchedInv(s) && CurrentInv(s) && t < |s.calls| && ConnectStep(s, t, c, s')
    ensures UntouchedInv(s') && CurrentInv(s')
  {}

  lemma WatcherKeepsCurrent(s: State, id: SubId, s': State)
    requires HeldInv(s) && UntouchedInv(s) && CurrentInv(s) && id < |s.subs| && WatcherStep(s, id, s')
    ensures UntouchedInv(s') && CurrentInv(s')
  {
    forall t | 0 <= t < |s.calls| && s.calls[t].pc == Decide
      ensures s.calls[t].held != id
    {
      assert CallInv(s, s.calls[t]);
    }
  }

  lemma CancelKeepsCurrent(s: State, id: SubId, s': State)
    requires UntouchedInv(s) && CurrentInv(s) && Cancel(s, id, s')
    ensures UntouchedInv(s') && CurrentInv(s')
  {}

  lemma NextKeepsCurrent(s: State, s': State)
    requires HeldInv(s) && OneOwner(s) && UntouchedInv(s) && CurrentInv(s) && Next(s, s')
    ensures UntouchedInv(s') && CurrentInv(s')
  {
    if t: CallId :| CallStep(s, t, s') {
      if EnterStep(s, t, s') {
        EnterKeepsCurrent(s, t, s');
      } else if TakeOverStep(s, t, s') {
        TakeOverKeepsCurrent(s, t, s');
      } else if InstallStep(s, t, s') {
        InstallKeepsCurrent(s, t, s');
      } else {
        var c :| ConnectStep(s, t, c, s');
        ConnectKeepsCurrent(s, t, c, s');
      }
    } else if id :| 0 <= id < |s.subs| && WatcherStep(s, id, s') {
      WatcherKeepsCurrent(s, id, s');
    } else if id :| Cancel(s, id, s') {
      CancelKeepsCurrent(s, id, s');
    }
  }

  lemma {:induction false} RunCurrent(states: seq<State>, i: nat)
    requires Run(states) && i < |states|
    ensures UntouchedInv(states[i]) && CurrentInv(states[i])
  {
    if i > 0 {
      RunCurrent(states, i - 1);
      RunInv(states, i - 1);
      assert Next(states[i - 1], states[i - 1 + 1]);
      NextKeepsCurrent(states[i - 1], states[i]);
    }
  }

  /** The current subscription has been drained only if its context was cancelled; until then it is watched. */
  lemma CurrentIsDrainedOnlyIfCancelled(states: seq<State>, i: nat, id: SubId)
    requires Run(states) && i < |states| && states[i].shared.cur == Some(id)
    ensures id < |states[i].subs|
    ensures states[i].subs[id].drains > 0 ==> states[i].subs[id].cancelled
    ensures states[i].subs[id].drains == 0 ==>
              states[i].subs[id].watcher == Unstarted || states[i].subs[id].watcher == Watching
  {
    RunCurrent(states, i);
    RunInv(states, i);
    assert SubInv(states[i], id);
  }

  /** Where nothing can move any more, every subscription whose context was cancelled has been drained. */
  lemma CancelledMeansDrained(states: seq<State>, i: nat, id: SubId)
    requires Run(states) && i < |states| && id < |states[i].subs| && states[i].subs[id].cancelled
    requires !exists s' :: Works(states[i], s')
    ensures states[i].subs[id].drains == 1
  {
    RunCurrent(states, i);
    RunInv(states, i);
    var s := states[i];
    StuckMeansReturned(s);
    assert SubInv(s, id);
    if s.subs[id].watcher == Watching {
      var s' := PutSub(s, id, Drained(s.subs[id]).(watcher := Leaving));
      assert WatcherStep(s, id, s') && Works(s, s');
    }
  }

  // ---------------------------------------------------------------- the last Subscribe

  /** A call that has connected and whose subscription, once installed, has stayed current. */
  ghost predicate InPlace(s: State, t: CallId) {
    t < |s.calls| &&
    match s.calls[t].pc
    case Decide => true
    case Spawn | Returned => s.shared.cur == Some(s.calls[t].held)
    case _ => false
  }

  lemma CurrentStands(s: State, u: CallId, s': State)
    requires u < |s.calls| && CallStep(s, u, s') && !EnterStep(s, u, s')
    ensures s'.shared.cur == s.shared.cur || (s.calls[u].pc == Decide && MayInstall(s.shared, s.calls[u].gen))
  {}

  /** Another call that could install now would have the same generation. */
  lemma NobodyElseInstalls(s: State, t: CallId, u: CallId)
    requires GenInv(s) && t < |s.calls| && u < |s.calls| && t != u
    requires s.calls[t].gen == s.shared.gen && s.calls[u].pc == Decide && !s.calls[u].closing
    ensures !MayInstall(s.shared, s.calls[u].gen)
  {
    var a, b := if t < u then t else u, if t < u then u else t;
    assert s.calls[a].gen == s.calls[b].gen ==> s.calls[a].gen == 0;
    assert Claiming(s.calls[u]);
  }

  lemma StaysInPlace(s: State, t: CallId, s': State)
    requires Inv(s) && Next(s, s') && InPlace(s, t) && !s.shared.closed && s.calls[t].gen == s.shared.gen
    requires forall u :: 0 <= u < |s.calls| && u < |s'.calls| && Entering(s.calls[u].pc) ==> Entering(s'.calls[u].pc)
    ensures InPlace(s', t) && s'.calls[t].held == s.calls[t].held
  {
    if u: CallId :| CallStep(s, u, s') {
      CallStepFacts(s, u, s');
      CurrentStands(s, u, s');
      if u == t {
        OwnStepStaysInPlace(s, t, s');
      } else {
        assert CallInv(s, s.calls[u]);
        if s.calls[u].pc == Decide {
          NobodyElseInstalls(s, t, u);
        }
      }
    } else {
      OtherStepFacts(s, s');
      CallStands(s, s', t);
    }
  }

  lemma OwnStepStaysInPlace(s: State, t: CallId, s': State)
    requires CallStep(s, t, s') && InPlace(s, t) && !s.shared.closed && s.calls[t].gen == s.shared.gen
    ensures InPlace(s', t) && s'.calls[t].held == s.calls[t].held
  {}

  /** From a successful connect on, while nobody enters. */
  lemma {:induction false} RunStaysInPlace(states: seq<State>, i: nat, m: nat, j: nat, t: CallId)
    requires Steps(states) && i < m <= j < |states| && Claims(states, i, t) && NobodyEnters(states, i + 1, j)
    requires t < |states[m].calls| && states[m].calls[t].pc == Decide
    ensures InPlace(states[j], t) && states[j].calls[t].held == states[m].calls[t].held
  {
    if m < j {
      RunStaysInPlace(states, i, m, j - 1, t);
      NewestExactlyWhenAlone(states, i, j - 1, t);
      StepStaysInPlace(states, j - 1, t);
    }
  }

  lemma StepStaysInPlace(states: seq<State>, m: nat, t: CallId)
    requires Steps(states) && m + 1 < |states| && NobodyEnters(states, m, m + 1)
    requires InPlace(states[m], t) && !states[m].shared.closed && states[m].calls[t].gen == states[m].shared.gen
    ensures InPlace(states[m + 1], t) && states[m + 1].calls[t].held == states[m].calls[t].held
  {
    assert StepAt(states, m);
    var s, s' := states[m], states[m + 1];
    forall u | 0 <= u < |s.calls| && u < |s'.calls| && Entering(s.calls[u].pc)
      ensures Entering(s'.calls[u].pc)
    {
      assert !Enters(states, m, u);
    }
    StaysInPlace(s, t, s');
  }

  /**
    The last Subscribe to enter an open adapter returns, if it could connect, with its own subscription
    current: watched, and not drained unless its context was cancelled.
   */
  lemma LastSubscribeIsCurrent(states: seq<State>, i: nat, m: nat, j: nat, t: CallId)
    requires Run(states) && i < m < j < |states| && Claims(states, i, t)
    requires forall l, u :: i < l < j ==> !Enters(states, l, u)
    requires t < |states[m].calls| && states[m].calls[t].pc == Decide
    requires t < |states[j].calls| && states[j].calls[t].pc == Returned
    ensures var id := states[m].calls[t].held;
            && states[j].shared.cur == Some(id) && id < |states[j].subs|
            && (states[j].subs[id].drains > 0 ==> states[j].subs[id].cancelled)
  {
    RunSteps(states);
    RunStaysInPlace(states, i, m, j, t);
    CurrentIsDrainedOnlyIfCancelled(states, j, states[m].calls[t].held);
  }
}
