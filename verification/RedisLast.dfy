/**
  Which subscription a Redis adapter goes on listening to: the last one to enter, until its context is
  cancelled; every other one is released.
 */
module RedisLast {
  import opened Options
  import opened RedisAdapter
  import opened RedisSlots

  /** Call u runs its locked section in step m. */
  ghost predicate Enters(states: seq<State>, m: nat, u: CallId)
    requires m + 1 < |states|
  {
    && u < |states[m].calls| && u < |states[m + 1].calls|
    && Entering(states[m].calls[u].pc) && !Entering(states[m + 1].calls[u].pc)
  }

  /** About to run its locked section. */
  ghost predicate Entering(pc: Pc) {
    pc == SubLock || pc == CloseLock
  }

  /** Subscribe t finds the adapter open in step i and reserves its slots. */
  ghost predicate Reserves(states: seq<State>, i: nat, t: CallId)
    requires i + 1 < |states|
  {
    Enters(states, i, t) && states[i].calls[t].pc == SubLock && !states[i].shared.closed
  }

  // ---------------------------------------------------------------- contexts that are not cancelled

  ghost predicate Waiting(g: Goroutine) {
    g == Unstarted || g == Alive
  }

  /** What a.cancel and the calls that will cancel refer to has reserved slots. */
  ghost predicate TargetsInv(s: State) {
    && (s.shared.cancel.Some? ==> s.shared.cancel.value < |s.ctxs| && s.ctxs[s.shared.cancel.value].reserved)
    && forall t :: 0 <= t < |s.calls| && (s.calls[t].pc == CancelPrev || s.calls[t].pc == CancelLast) ==>
         s.calls[t].target < |s.ctxs| && s.ctxs[s.calls[t].target].reserved
  }

  /** The goroutines of a context stop only once it is cancelled. */
  ghost predicate LivesInv(s: State) {
    && (forall id :: 0 <= id < |s.ctxs| && !s.ctxs[id].cancelled ==>
          Waiting(s.ctxs[id].watcher) && Waiting(s.ctxs[id].reader) && !s.ctxs[id].pubSubClosed)
    && (forall t :: 0 <= t < |s.calls| && s.calls[t].pc == AbortRelease ==>
          s.calls[t].own < |s.ctxs| && s.ctxs[s.calls[t].own].cancelled)
  }

  lemma EnterKeepsLives(s: State, t: CallId, s': State)
    requires KnowsInv(s) && TargetsInv(s) && LivesInv(s) && t < |s.calls| && EnterStep(s, t, s')
    ensures TargetsInv(s') && LivesInv(s')
  {}

  lemma CancelStepKeepsLives(s: State, t: CallId, s': State)
    requires TargetsInv(s) && LivesInv(s) && t < |s.calls| && CancelStep(s, t, s')
    ensures TargetsInv(s') && LivesInv(s')
  {}

  lemma StartKeepsLives(s: State, t: CallId, s': State)
    requires TargetsInv(s) && LivesInv(s) && t < |s.calls| && StartStep(s, t, s')
    ensures TargetsInv(s') && LivesInv(s')
  {}

  lemma GoroutineKeepsLives(s: State, id: CtxId, s': State)
    requires TargetsInv(s) && LivesInv(s) && GoroutineStep(s, id, s')
    ensures TargetsInv(s') && LivesInv(s')
  {}

  lemma NextKeepsLives(s: State, s': State)
    requires KnowsInv(s) && TargetsInv(s) && LivesInv(s) && Next(s, s')
    ensures TargetsInv(s') && LivesInv(s')
  {
    if t: CallId :| CallStep(s, t, s') {
      if EnterStep(s, t, s') {
        EnterKeepsLives(s, t, s');
      } else if CancelStep(s, t, s') {
        CancelStepKeepsLives(s, t, s');
      } else {
        StartKeepsLives(s, t, s');
      }
    } else if id :| GoroutineStep(s, id, s') {
      GoroutineKeepsLives(s, id, s');
    }
  }

  /** One step of the run, from a state with every invariant. */
  ghost predicate StepAt(states: seq<State>, m: nat)
    requires m + 1 < |states|
  {
    Inv(states[m]) && TargetsInv(states[m]) && LivesInv(states[m]) && Next(states[m], states[m + 1])
  }

  ghost predicate Steps(states: seq<State>) {
    forall m :: 0 <= m < |states| - 1 ==> StepAt(states, m)
  }

  lemma {:induction false} RunLives(states: seq<State>, i: nat)
    requires Run(states) && i < |states|
    ensures Inv(states[i]) && TargetsInv(states[i]) && LivesInv(states[i])
  {
    RunInv(states, i);
    if i > 0 {
      RunLives(states, i - 1);
      assert Next(states[i - 1], states[i - 1 + 1]);
      NextKeepsLives(states[i - 1], states[i]);
    }
  }

  lemma RunSteps(states: seq<State>)
    requires Run(states)
    ensures Steps(states)
  {
    forall m | 0 <= m < |states| - 1
      ensures StepAt(states, m)
    {
      RunLives(states, m);
    }
  }

  // ---------------------------------------------------------------- from the reservation on

  /** The adapter is open, a.cancel is for call t's context, and nobody is about to cancel that. */
  ghost predicate Newest(s: State, t: CallId, own: CtxId) {
    && t < |s.calls| && s.calls[t].own == own && own < |s.ctxs| && s.ctxs[own].reserved
    && !s.shared.closed && s.shared.cancel == Some(own)
    && (forall u :: 0 <= u < |s.calls| ==> !Cancels(s.calls[u], own))
    && (Starting(s.calls[t].pc) || s.calls[t].pc == Returned)
    && (forall u :: 0 <= u < |s.calls| && u != t && OwnsCtx(s.calls[u].pc) ==> s.calls[u].own != own)
  }

  lemma OwnsAlone(s: State, t: CallId)
    requires OwnersInv(s) && t < |s.calls| && OwnsCtx(s.calls[t].pc)
    ensures forall u :: 0 <= u < |s.calls| && u != t && OwnsCtx(s.calls[u].pc) ==> s.calls[u].own != s.calls[t].own
  {
    forall u | 0 <= u < |s.calls| && u != t && OwnsCtx(s.calls[u].pc)
      ensures s.calls[u].own != s.calls[t].own
    {
      var a, b := if t < u then t else u, if t < u then u else t;
      assert s.calls[a].own != s.calls[b].own;
    }
  }

  lemma ItselfSteps(s: State, s': State, t: CallId)
    requires Next(s, s') && t < |s.calls| && t < |s'.calls| && s'.calls[t] != s.calls[t]
    ensures CallStep(s, t, s')
  {
    if u: CallId :| CallStep(s, u, s') {
      assert u == t;
    }
  }

  lemma ReservedNow(s: State, t: CallId, s': State)
    requires CallsInv(s) && TargetsInv(s) && t < |s.calls| && CallStep(s, t, s')
    requires s.calls[t].pc == SubLock && !s.shared.closed
    ensures s.calls[t].own < |s.ctxs| && Newest(s', t, s.calls[t].own)
    ensures s'.ctxs[s.calls[t].own].cancelled == s.ctxs[s.calls[t].own].cancelled
  {
    assert CallInv(s, s.calls[t]);
    OwnsAlone(s, t);
  }

  lemma ReserveStep(states: seq<State>, i: nat, t: CallId)
    requires Steps(states) && i + 1 < |states| && Reserves(states, i, t)
    ensures states[i].calls[t].own < |states[i].ctxs| && Newest(states[i + 1], t, states[i].calls[t].own)
    ensures states[i + 1].ctxs[states[i].calls[t].own].cancelled == states[i].ctxs[states[i].calls[t].own].cancelled
  {
    assert StepAt(states, i);
    ItselfSteps(states[i], states[i + 1], t);
    ReservedNow(states[i], t, states[i + 1]);
  }

  /** A call that does not enter leaves closed and a.cancel alone and takes nobody's context over. */
  lemma OtherCallStays(s: State, u: CallId, s': State, id: CtxId)
    requires u < |s.calls| && CallStep(s, u, s') && !Entering(s.calls[u].pc) && !Cancels(s.calls[u], id)
    ensures |s'.calls| == |s.calls| && s'.calls == s.calls[u := s'.calls[u]] && |s.ctxs| <= |s'.ctxs|
    ensures s'.shared.closed == s.shared.closed && s'.shared.cancel == s.shared.cancel && !Cancels(s'.calls[u], id)
    ensures id < |s.ctxs| && s'.ctxs[id].cancelled && !s.ctxs[id].cancelled ==>
              s.calls[u].own == id && (s.calls[u].pc == AbortCancel || s.calls[u].pc == SubRefused)
    ensures id < |s.ctxs| ==> s'.ctxs[id].reserved == s.ctxs[id].reserved
    ensures Starting(s.calls[u].pc) ==>
              s'.calls[u].own == s.calls[u].own && (Starting(s'.calls[u].pc) || s'.calls[u].pc == Returned)
    ensures OwnsCtx(s'.calls[u].pc) ==>
              (OwnsCtx(s.calls[u].pc) && s'.calls[u].own == s.calls[u].own) || s'.calls[u].own == |s.ctxs|
    ensures s.calls[u].pc != Returned
  {}

  lemma CallStaysNewest(s: State, u: CallId, s': State, t: CallId, own: CtxId)
    requires CallsInv(s) && u < |s.calls| && CallStep(s, u, s') && !Entering(s.calls[u].pc) && Newest(s, t, own)
    ensures Newest(s', t, own)
    ensures s'.ctxs[own].cancelled ==> s.ctxs[own].cancelled || s.calls[t].pc == AbortCancel
  {
    OtherCallStays(s, u, s', own);
    assert CallInv(s, s.calls[u]);
  }

  lemma OtherStepStaysNewest(s: State, s': State, t: CallId, own: CtxId)
    requires NewCall(s, s') || (exists id :: OuterCancel(s, id, s')) || exists id :: GoroutineStep(s, id, s')
    requires Newest(s, t, own)
    ensures Newest(s', t, own)
    ensures s'.ctxs[own].cancelled ==> s.ctxs[own].cancelled || OuterCancel(s, own, s')
  {}

  /** What may cancel call t's context in a step. */
  ghost predicate CancelledBy(s: State, s': State, t: CallId, own: CtxId) {
    OuterCancel(s, own, s') || (t < |s.calls| && s.calls[t].pc == AbortCancel)
  }

  lemma StaysNewest(s: State, s': State, t: CallId, own: CtxId)
    requires CallsInv(s) && Next(s, s') && Newest(s, t, own)
    requires forall u :: 0 <= u < |s.calls| && u < |s'.calls| && Entering(s.calls[u].pc) ==> Entering(s'.calls[u].pc)
    ensures Newest(s', t, own)
    ensures s'.ctxs[own].cancelled ==> s.ctxs[own].cancelled || CancelledBy(s, s', t, own)
  {
    if u: CallId :| CallStep(s, u, s') {
      EnteringLeaves(s, u, s');
      CallStaysNewest(s, u, s', t, own);
    } else {
      OtherStepStaysNewest(s, s', t, own);
    }
  }

  lemma EnteringLeaves(s: State, u: CallId, s': State)
    requires u < |s.calls| && CallStep(s, u, s')
    ensures u < |s'.calls| && (Entering(s.calls[u].pc) ==> !Entering(s'.calls[u].pc))
  {}

  ghost predicate CancelledSince(states: seq<State>, i: nat, j: nat, t: CallId, own: CtxId)
    requires j < |states|
  {
    exists m :: i <= m < j && CancelledBy(states[m], states[m + 1], t, own)
  }

  lemma StepStaysNewest(states: seq<State>, m: nat, t: CallId, own: CtxId)
    requires Steps(states) && m + 1 < |states| && Newest(states[m], t, own)
    requires forall u :: !Enters(states, m, u)
    ensures Newest(states[m + 1], t, own)
    ensures states[m + 1].ctxs[own].cancelled ==>
              states[m].ctxs[own].cancelled || CancelledBy(states[m], states[m + 1], t, own)
  {
    assert StepAt(states, m);
    var s, s' := states[m], states[m + 1];
    forall u | 0 <= u < |s.calls| && u < |s'.calls| && Entering(s.calls[u].pc)
      ensures Entering(s'.calls[u].pc)
    {
      assert !Enters(states, m, u);
    }
    StaysNewest(s, s', t, own);
  }

  lemma {:induction false} RunStaysNewest(states: seq<State>, i: nat, j: nat, t: CallId, own: CtxId)
    requires Steps(states) && i <= j < |states| && Newest(states[i], t, own)
    requires forall m, u :: i <= m < j ==> !Enters(states, m, u)
    ensures Newest(states[j], t, own)
    ensures states[j].ctxs[own].cancelled ==> states[i].ctxs[own].cancelled || CancelledSince(states, i, j, t, own)
  {
    if i < j {
      RunStaysNewest(states, i, j - 1, t, own);
      StepStaysNewest(states, j - 1, t, own);
      if CancelledBy(states[j - 1], states[j], t, own) {
        assert CancelledBy(states[j - 1], states[j - 1 + 1], t, own);
      }
    }
  }

  /** With its Subscribe returned, an uncancelled context has both goroutines running. */
  lemma ReturnedRuns(s: State, t: CallId, own: CtxId)
    requires Inv(s) && LivesInv(s) && Newest(s, t, own) && s.calls[t].pc == Returned && !s.ctxs[own].cancelled
    ensures s.ctxs[own].watcher == Alive && s.ctxs[own].reader == Alive
  {
    assert CtxInv(s, own);
  }

  /**
    The last Subscribe to enter an open adapter keeps a.cancel. Its context is cancelled only by its caller's
    own context or by itself, when it could not connect; and once it has returned with the context live, both
    its goroutines are running.
   */
  lemma LastSubscribeLives(states: seq<State>, i: nat, j: nat, t: CallId)
    requires Run(states) && i < j < |states| && Reserves(states, i, t)
    requires forall m, u :: i < m < j ==> !Enters(states, m, u)
    ensures var own, s := states[i].calls[t].own, states[j];
            && own < |states[i].ctxs| && own < |s.ctxs| && s.shared.cancel == Some(own) && !s.shared.closed
            && t < |s.calls| && s.calls[t].own == own
            && (s.ctxs[own].cancelled ==> states[i].ctxs[own].cancelled || CancelledSince(states, i + 1, j, t, own))
            && (s.calls[t].pc == Returned && !s.ctxs[own].cancelled ==>
                  s.ctxs[own].watcher == Alive && s.ctxs[own].reader == Alive)
  {
    RunSteps(states);
    RunLives(states, j);
    StaysNewestFrom(states, i, j, t);
    if states[j].calls[t].pc == Returned && !states[j].ctxs[states[i].calls[t].own].cancelled {
      ReturnedRuns(states[j], t, states[i].calls[t].own);
    }
  }

  lemma StaysNewestFrom(states: seq<State>, i: nat, j: nat, t: CallId)
    requires Steps(states) && i < j < |states| && Reserves(states, i, t)
    requires forall m, u :: i < m < j ==> !Enters(states, m, u)
    ensures var own := states[i].calls[t].own;
            && own < |states[i].ctxs| && Newest(states[j], t, own)
            && (states[j].ctxs[own].cancelled ==>
                  states[i].ctxs[own].cancelled || CancelledSince(states, i + 1, j, t, own))
  {
    ReserveStep(states, i, t);
    RunStaysNewest(states, i + 1, j, t, states[i].calls[t].own);
  }

  /**
    Where nothing can move any more, only the context in a.cancel can be live, and only while the adapter is
    open; every other one that reserved slots is cancelled and has neither goroutine left.
   */
  lemma OnlyTheLastLives(s: State, id: CtxId)
    requires Inv(s) && !(exists s' :: Works(s, s'))
    requires id < |s.ctxs| && s.ctxs[id].reserved && (s.shared.cancel != Some(id) || s.shared.closed)
    ensures s.ctxs[id].cancelled && s.ctxs[id].watcher == Done && s.ctxs[id].reader == Done
  {
    StuckMeansReturned(s);
    assert CtxInv(s, id);
    CancelledEnds(s, id);
  }

  /** A goroutine of a cancelled context that has not ended can move. */
  lemma CancelledEnds(s: State, id: CtxId)
    requires !(exists s' :: Works(s, s')) && id < |s.ctxs| && s.ctxs[id].cancelled && CtxInv(s, id)
    requires s.ctxs[id].watcher != Unstarted && s.ctxs[id].reader != Unstarted
    ensures s.ctxs[id].watcher == Done && s.ctxs[id].reader == Done
  {
    var c, left := s.ctxs[id], s.shared.(wg := s.shared.wg - 1);
    if c.watcher != Done || c.reader != Done {
      var s' := if c.watcher == Alive then PutCtx(s, id, c.(watcher := Closing, pubSubClosed := true))
                else if c.watcher == Closing then PutCtx(s, id, c.(watcher := Done)).(shared := left)
                else PutCtx(s, id, c.(reader := Done)).(shared := left);
      assert GoroutineStep(s, id, s') && Works(s, s');
    }
  }
}
