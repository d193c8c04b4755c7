/** Slot accounting of the Redis adapter in every interleaving, and why Close's wait ends. */
module RedisSlots {
  import opened Options
  import opened Totals
  import opened RedisAdapter

  /** The slots a subscription has reserved and not given back. */
  ghost function Slots(c: Ctx): nat {
    if !c.reserved then 0
    else (if c.watcher == Done then 0 else 1) + (if c.reader == Done then 0 else 1)
  }

  /** A Subscribe with reserved slots whose goroutines are not all running yet. */
  ghost predicate Starting(pc: Pc) {
    match pc
    case CancelPrev | Connect | AbortCancel | AbortRelease | SpawnWatcher | SpawnReader => true
    case _ => false
  }

  ghost predicate Starts(k: Call, id: CtxId) {
    Starting(k.pc) && k.own == id
  }

  /** The call's next step cancels the context. */
  ghost predicate Cancels(k: Call, id: CtxId) {
    (k.pc == CancelPrev || k.pc == CancelLast) && k.target == id
  }

  ghost predicate BeingStarted(s: State, id: CtxId) {
    exists t :: 0 <= t < |s.calls| && Starts(s.calls[t], id)
  }

  ghost predicate AboutToBeCancelled(s: State, id: CtxId) {
    exists t :: 0 <= t < |s.calls| && Cancels(s.calls[t], id)
  }

  ghost predicate WgInv(s: State) {
    s.shared.wg == Total(Slots, s.ctxs)
  }

  ghost predicate CallInv(s: State, k: Call) {
    && (k.pc == SubLock || k.pc == SubRefused ==> k.own < |s.ctxs| && !s.ctxs[k.own].reserved)
    && (Starting(k.pc) ==>
          k.own < |s.ctxs| && s.ctxs[k.own].reserved && s.ctxs[k.own].reader == Unstarted &&
          (k.pc != SpawnReader ==> s.ctxs[k.own].watcher == Unstarted) &&
          (k.pc == SpawnReader ==> s.ctxs[k.own].watcher != Unstarted))
    && (k.pc == CancelPrev || k.pc == CancelLast ==> k.target < |s.ctxs|)
    && (k.pc == Wait || k.pc == CancelLast ==> s.shared.closed)
  }

  ghost predicate KnowsInv(s: State) {
    forall t :: 0 <= t < |s.calls| ==> CallInv(s, s.calls[t])
  }

  /** Each call owns a context of its own. */
  ghost predicate OwnersInv(s: State) {
    forall t, u :: 0 <= t < u < |s.calls| && OwnsCtx(s.calls[t].pc) && OwnsCtx(s.calls[u].pc) ==>
      s.calls[t].own != s.calls[u].own
  }

  ghost predicate CallsInv(s: State) {
    KnowsInv(s) && OwnersInv(s)
  }

  ghost predicate OwnsCtx(pc: Pc) {
    pc == SubLock || pc == SubRefused || Starting(pc)
  }

  ghost predicate CtxInv(s: State, id: CtxId)
    requires id < |s.ctxs|
  {
    var c := s.ctxs[id];
    && (c.reserved && !c.cancelled ==> s.shared.cancel == Some(id) || AboutToBeCancelled(s, id))
    && (c.reserved && !c.cancelled && s.shared.closed ==> AboutToBeCancelled(s, id))
    && (c.reserved && (c.watcher == Unstarted || c.reader == Unstarted) ==> BeingStarted(s, id))
    && (c.watcher == Closing || (c.watcher == Done && c.reader != Done) ==> c.pubSubClosed)
    && (c.reader != Closing)
    && (!c.reserved ==> c.watcher == Unstarted && c.reader == Unstarted)
  }

  ghost predicate CtxsInv(s: State) {
    && (s.shared.cancel.Some? ==> s.shared.cancel.value < |s.ctxs|)
    && forall id :: 0 <= id < |s.ctxs| ==> CtxInv(s, id)
  }

  ghost predicate Inv(s: State) {
    WgInv(s) && CallsInv(s) && CtxsInv(s)
  }

  // ---------------------------------------------------------------- one step keeps the invariant

  lemma OthersStay(s: State, t: CallId, s': State, id: CtxId)
    requires t < |s.calls| && |s'.calls| == |s.calls| && s'.calls == s.calls[t := s'.calls[t]]
    ensures BeingStarted(s, id) ==> BeingStarted(s', id) || (Starts(s.calls[t], id) && !Starts(s'.calls[t], id))
    ensures AboutToBeCancelled(s, id) ==>
              AboutToBeCancelled(s', id) || (Cancels(s.calls[t], id) && !Cancels(s'.calls[t], id))
    ensures Starts(s'.calls[t], id) ==> BeingStarted(s', id)
    ensures Cancels(s'.calls[t], id) ==> AboutToBeCancelled(s', id)
  {
    if BeingStarted(s, id) {
      var u :| 0 <= u < |s.calls| && Starts(s.calls[u], id);
      assert u != t ==> Starts(s'.calls[u], id);
    }
    if AboutToBeCancelled(s, id) {
      var u :| 0 <= u < |s.calls| && Cancels(s.calls[u], id);
      assert u != t ==> Cancels(s'.calls[u], id);
    }
  }

  lemma EnterKeepsKnows(s: State, t: CallId, s': State)
    requires CallsInv(s) && CtxsInv(s) && t < |s.calls| && EnterStep(s, t, s')
    ensures KnowsInv(s')
  {
    var k := s.calls[t];
    assert CallInv(s, k);
    if k.pc == SubLock {
      assert CtxInv(s, k.own);
    }
  }

  lemma EnterKeepsOwners(s: State, t: CallId, s': State)
    requires CallsInv(s) && t < |s.calls| && EnterStep(s, t, s')
    ensures OwnersInv(s')
  {
    assert CallInv(s, s.calls[t]);
  }

  lemma EnterKeepsCalls(s: State, t: CallId, s': State)
    requires CallsInv(s) && CtxsInv(s) && t < |s.calls| && EnterStep(s, t, s')
    ensures CallsInv(s')
  {
    EnterKeepsKnows(s, t, s');
    EnterKeepsOwners(s, t, s');
  }

  lemma EnterKeepsCtxs(s: State, t: CallId, s': State)
    requires CallsInv(s) && CtxsInv(s) && t < |s.calls| && EnterStep(s, t, s')
    ensures CtxsInv(s')
  {
    forall id | 0 <= id < |s'.ctxs|
      ensures CtxInv(s', id)
    {
      OthersStay(s, t, s', id);
      assert id < |s.ctxs| ==> CtxInv(s, id);
    }
  }

  lemma CancelKeepsCalls(s: State, t: CallId, s': State)
    requires CallsInv(s) && CtxsInv(s) && t < |s.calls| && CancelStep(s, t, s')
    ensures CallsInv(s')
  {}

  lemma CancelKeepsCtxs(s: State, t: CallId, s': State)
    requires CallsInv(s) && CtxsInv(s) && t < |s.calls| && CancelStep(s, t, s')
    ensures CtxsInv(s')
  {
    forall id | 0 <= id < |s'.ctxs|
      ensures CtxInv(s', id)
    {
      OthersStay(s, t, s', id);
      assert id < |s.ctxs| ==> CtxInv(s, id);
    }
  }

  lemma StartKeepsCalls(s: State, t: CallId, s': State)
    requires CallsInv(s) && CtxsInv(s) && t < |s.calls| && StartStep(s, t, s')
    ensures CallsInv(s')
  {}

  lemma StartKeepsCtxs(s: State, t: CallId, s': State)
    requires CallsInv(s) && CtxsInv(s) && t < |s.calls| && StartStep(s, t, s')
    ensures CtxsInv(s')
  {
    forall id | 0 <= id < |s'.ctxs|
      ensures CtxInv(s', id)
    {
      OthersStay(s, t, s', id);
      assert id < |s.ctxs| ==> CtxInv(s, id);
    }
  }

  /** A call step leaves the contexts and the counter alone, appends a context, or changes both together. */
  ghost predicate SlotChange(s: State, s': State, id: CtxId) {
    && id < |s.ctxs| && |s'.ctxs| == |s.ctxs| && s'.ctxs == s.ctxs[id := s'.ctxs[id]]
    && s'.shared.wg - s.shared.wg == Slots(s'.ctxs[id]) - Slots(s.ctxs[id])
  }

  lemma CallStepShape(s: State, t: CallId, s': State)
    requires CallsInv(s) && CtxsInv(s) && CallStep(s, t, s')
    ensures
      || (s'.ctxs == s.ctxs && s'.shared.wg == s.shared.wg)
      || (|s'.ctxs| == |s.ctxs| + 1 && s'.ctxs == s.ctxs + [s'.ctxs[|s.ctxs|]] && Slots(s'.ctxs[|s.ctxs|]) == 0 &&
          s'.shared.wg == s.shared.wg)
      || SlotChange(s, s', s.calls[t].own)
      || SlotChange(s, s', s.calls[t].target)
  {
    var k := s.calls[t];
    assert CallInv(s, k);
    if k.pc == SubLock {
      assert CtxInv(s, k.own);
    }
  }

  lemma CallStepKeepsWg(s: State, t: CallId, s': State)
    requires WgInv(s) && CallsInv(s) && CtxsInv(s) && CallStep(s, t, s')
    ensures WgInv(s')
  {
    CallStepShape(s, t, s');
    if |s'.ctxs| > |s.ctxs| {
      TotalAppend(Slots, s.ctxs, s'.ctxs[|s.ctxs|]);
    } else if s'.ctxs != s.ctxs {
      var id := if SlotChange(s, s', s.calls[t].own) then s.calls[t].own else s.calls[t].target;
      TotalUpdate(Slots, s.ctxs, id, s'.ctxs[id]);
    }
  }

  lemma SameCallsStay(s: State, s': State, id: CtxId)
    requires s'.calls == s.calls
    ensures BeingStarted(s, id) ==> BeingStarted(s', id)
    ensures AboutToBeCancelled(s, id) ==> AboutToBeCancelled(s', id)
  {}

  lemma GoroutineKeepsCalls(s: State, id: CtxId, s': State)
    requires CallsInv(s) && GoroutineStep(s, id, s')
    ensures CallsInv(s')
  {}

  lemma GoroutineKeepsCtxs(s: State, id: CtxId, s': State)
    requires WgInv(s) && CtxsInv(s) && GoroutineStep(s, id, s')
    ensures CtxsInv(s') && WgInv(s')
  {
    assert CtxInv(s, id);
    TotalUpdate(Slots, s.ctxs, id, s'.ctxs[id]);
    forall j | 0 <= j < |s'.ctxs|
      ensures CtxInv(s', j)
    {
      SameCallsStay(s, s', j);
      assert CtxInv(s, j);
    }
  }

  lemma OuterCancelKeepsInv(s: State, id: CtxId, s': State)
    requires Inv(s) && OuterCancel(s, id, s')
    ensures Inv(s')
  {
    TotalUpdate(Slots, s.ctxs, id, s'.ctxs[id]);
    forall j | 0 <= j < |s'.ctxs|
      ensures CtxInv(s', j)
    {
      SameCallsStay(s, s', j);
      assert CtxInv(s, j);
    }
  }

  lemma NewCallKeepsInv(s: State, s': State)
    requires Inv(s) && NewCall(s, s')
    ensures Inv(s')
  {
    forall j | 0 <= j < |s'.ctxs|
      ensures CtxInv(s', j)
    {
      assert CtxInv(s, j);
      if BeingStarted(s, j) {
        var u :| 0 <= u < |s.calls| && Starts(s.calls[u], j);
        assert Starts(s'.calls[u], j);
      }
      if AboutToBeCancelled(s, j) {
        var u :| 0 <= u < |s.calls| && Cancels(s.calls[u], j);
        assert Cancels(s'.calls[u], j);
      }
    }
  }

  lemma CallStepKeepsInv(s: State, t: CallId, s': State)
    requires Inv(s) && CallStep(s, t, s')
    ensures Inv(s')
  {
    CallStepKeepsWg(s, t, s');
    if EnterStep(s, t, s') {
      EnterKeepsCalls(s, t, s');
      EnterKeepsCtxs(s, t, s');
    } else if CancelStep(s, t, s') {
      CancelKeepsCalls(s, t, s');
      CancelKeepsCtxs(s, t, s');
    } else {
      StartKeepsCalls(s, t, s');
      StartKeepsCtxs(s, t, s');
    }
  }

  lemma GoroutineKeepsInv(s: State, id: CtxId, s': State)
    requires Inv(s) && GoroutineStep(s, id, s')
    ensures Inv(s')
  {
    GoroutineKeepsCalls(s, id, s');
    GoroutineKeepsCtxs(s, id, s');
  }

  lemma NextKeepsInv(s: State, s': State)
    requires Inv(s) && Next(s, s')
    ensures Inv(s')
  {
    if t :| CallStep(s, t, s') {
      CallStepKeepsInv(s, t, s');
    } else if id :| GoroutineStep(s, id, s') {
      GoroutineKeepsInv(s, id, s');
    } else if NewCall(s, s') {
      NewCallKeepsInv(s, s');
    } else {
      var id :| OuterCancel(s, id, s');
      OuterCancelKeepsInv(s, id, s');
    }
  }

  lemma {:induction false} RunInv(states: seq<State>, i: nat)
    requires Run(states) && i < |states|
    ensures Inv(states[i])
  {
    if i > 0 {
      RunInv(states, i - 1);
      assert Next(states[i - 1], states[i - 1 + 1]);
      NextKeepsInv(states[i - 1], states[i]);
    }
  }

  // ---------------------------------------------------------------- the main results

  /** The WaitGroup counter is exactly the reserved slots not yet given back, so it is never negative. */
  lemma CounterIsReservedSlots(states: seq<State>, i: nat)
    requires Run(states) && i < |states|
    ensures states[i].shared.wg == Total(Slots, states[i].ctxs)
    ensures states[i].shared.wg >= 0
    ensures states[i].shared.wg == 0 <==>
              forall id :: 0 <= id < |states[i].ctxs| ==> Slots(states[i].ctxs[id]) == 0
  {
    RunInv(states, i);
    TotalIsZero(Slots, states[i].ctxs);
  }

  lemma CallStepAfterClose(s: State, t: CallId, s': State)
    requires CallStep(s, t, s') && s.shared.closed
    ensures s'.shared.closed && s'.shared.wg <= s.shared.wg && s'.shared.cancel == s.shared.cancel
  {}

  /** After the adapter is closed no slot is ever reserved again, so Add cannot race with Close's Wait. */
  lemma CounterNeverRisesOnceClosed(states: seq<State>, i: nat)
    requires Run(states) && i + 1 < |states| && states[i].shared.closed
    ensures states[i + 1].shared.closed
    ensures states[i + 1].shared.wg <= states[i].shared.wg
  {
    var s, s' := states[i], states[i + 1];
    assert Next(s, s');
    if t :| CallStep(s, t, s') {
      CallStepAfterClose(s, t, s');
    }
  }

  /**
    A context that reserved slots and is not cancelled is the one in a.cancel or a call is about to
    cancel it; once the adapter is closed, a call is about to cancel it.
   */
  lemma NoStrandedContext(states: seq<State>, i: nat, id: CtxId)
    requires Run(states) && i < |states| && id < |states[i].ctxs|
    requires states[i].ctxs[id].reserved && !states[i].ctxs[id].cancelled
    ensures states[i].shared.cancel == Some(id) || AboutToBeCancelled(states[i], id)
    ensures states[i].shared.closed ==> AboutToBeCancelled(states[i], id)
  {
    RunInv(states, i);
    assert CtxInv(states[i], id);
  }

  ghost predicate AllReturned(s: State) {
    forall t :: 0 <= t < |s.calls| ==> s.calls[t].pc == Returned
  }

  /** A Close that has returned from its wait left no goroutine behind. */
  lemma WaitedMeansDone(states: seq<State>, i: nat, t: CallId)
    requires Run(states) && i + 1 < |states| && t < |states[i].calls|
    requires states[i].calls[t].pc == Wait
    requires t < |states[i + 1].calls| && states[i + 1].calls[t].pc == Returned
    ensures forall id :: 0 <= id < |states[i].ctxs| && states[i].ctxs[id].reserved ==>
              states[i].ctxs[id].watcher == Done && states[i].ctxs[id].reader == Done
    ensures states[i].shared.closed
  {
    RunInv(states, i);
    var s, s' := states[i], states[i + 1];
    assert CallInv(s, s.calls[t]);
    assert Next(s, s');
    assert s.shared.wg == 0;
    TotalIsZero(Slots, s.ctxs);
    assert forall id :: 0 <= id < |s.ctxs| ==> Slots(s.ctxs[id]) == 0;
  }

  // ---------------------------------------------------------------- every call returns

  ghost function CallWork(k: Call): nat {
    match k.pc
    case SubStart => 20
    case SubLock => 8
    case SubRefused => 1
    case CancelPrev => 6
    case Connect => 5
    case AbortCancel => 2
    case AbortRelease => 1
    case SpawnWatcher => 4
    case SpawnReader => 2
    case CloseLock => 3
    case CancelLast => 2
    case Wait => 1
    case Returned => 0
  }

  ghost function GoroutineWork(g: Goroutine): nat {
    match g
    case Unstarted => 3
    case Alive => 2
    case Closing => 1
    case Done => 0
  }

  ghost function CtxWork(c: Ctx): nat {
    GoroutineWork(c.watcher) + GoroutineWork(c.reader)
  }

  ghost function Work(s: State): nat {
    Total(CallWork, s.calls) + Total(CtxWork, s.ctxs)
  }

  ghost predicate WorkTrade(s: State, t: CallId, s': State, id: CtxId)
    requires t < |s.calls| && t < |s'.calls|
  {
    && id < |s.ctxs| && |s'.ctxs| == |s.ctxs| && s'.ctxs == s.ctxs[id := s'.ctxs[id]]
    && CallWork(s'.calls[t]) + CtxWork(s'.ctxs[id]) < CallWork(s.calls[t]) + CtxWork(s.ctxs[id])
  }

  lemma CallStepTrade(s: State, t: CallId, s': State)
    requires CallsInv(s) && CallStep(s, t, s')
    ensures |s'.calls| == |s.calls| && s'.calls == s.calls[t := s'.calls[t]]
    ensures
      || (s'.ctxs == s.ctxs && CallWork(s'.calls[t]) < CallWork(s.calls[t]))
      || (|s'.ctxs| == |s.ctxs| + 1 && s'.ctxs == s.ctxs + [s'.ctxs[|s.ctxs|]] &&
          CallWork(s'.calls[t]) + CtxWork(s'.ctxs[|s.ctxs|]) < CallWork(s.calls[t]))
      || WorkTrade(s, t, s', s.calls[t].own)
      || WorkTrade(s, t, s', s.calls[t].target)
  {
    assert CallInv(s, s.calls[t]);
  }

  lemma CallStepShrinksWork(s: State, t: CallId, s': State)
    requires CallsInv(s) && CallStep(s, t, s')
    ensures Work(s') < Work(s)
  {
    CallStepTrade(s, t, s');
    TotalUpdate(CallWork, s.calls, t, s'.calls[t]);
    if |s'.ctxs| > |s.ctxs| {
      TotalAppend(CtxWork, s.ctxs, s'.ctxs[|s.ctxs|]);
    } else if s'.ctxs != s.ctxs {
      var id := if WorkTrade(s, t, s', s.calls[t].own) then s.calls[t].own else s.calls[t].target;
      TotalUpdate(CtxWork, s.ctxs, id, s'.ctxs[id]);
    }
  }

  lemma GoroutineStepShrinksWork(s: State, id: CtxId, s': State)
    requires GoroutineStep(s, id, s')
    ensures Work(s') < Work(s)
  {
    TotalUpdate(CtxWork, s.ctxs, id, s'.ctxs[id]);
  }

  /** A call that is not waiting on the WaitGroup can always take its next step. */
  lemma UnblockedCallCanMove(s: State, t: CallId) returns (s': State)
    requires CallsInv(s) && t < |s.calls| && s.calls[t].pc != Returned && s.calls[t].pc != Wait
    ensures CallStep(s, t, s')
  {
    var k := s.calls[t];
    assert CallInv(s, k);
    match k.pc {
      case SubStart =>
        s' := Goto(s, t, k.(pc := SubLock, own := |s.ctxs|)).(
              ctxs := s.ctxs + [Ctx(false, false, false, Unstarted, Unstarted)]);
      case SubLock =>
        s' := if s.shared.closed then Goto(s, t, k.(pc := SubRefused))
              else Goto(PutCtx(s, k.own, s.ctxs[k.own].(reserved := true)), t, AfterReserve(k, s.shared.cancel)).(
                        shared := Reserve(s.shared, k.own));
      case CloseLock =>
        s' := if s.shared.closed then Goto(s, t, k.(pc := Returned))
              else Goto(s, t, AfterShut(k, s.shared.cancel)).(shared := Shut(s.shared));
      case SubRefused => s' := Goto(Cancelled(s, k.own), t, k.(pc := Returned));
      case CancelPrev => s' := Goto(Cancelled(s, k.target), t, k.(pc := Connect));
      case CancelLast => s' := Goto(Cancelled(s, k.target), t, k.(pc := Wait));
      case AbortCancel => s' := Goto(Cancelled(s, k.own), t, k.(pc := AbortRelease));
      case Connect => s' := Goto(s, t, k.(pc := SpawnWatcher));
      case AbortRelease =>
        s' := Goto(PutCtx(s, k.own, s.ctxs[k.own].(watcher := Done, reader := Done)), t, k.(pc := Returned)).(
              shared := s.shared.(wg := s.shared.wg - 2));
      case SpawnWatcher => s' := Goto(PutCtx(s, k.own, s.ctxs[k.own].(watcher := Alive)), t, k.(pc := SpawnReader));
      case SpawnReader => s' := Goto(PutCtx(s, k.own, s.ctxs[k.own].(reader := Alive)), t, k.(pc := Returned));
    }
  }

  /** While Close waits with the counter above zero, some goroutine or some other call can move. */
  lemma WaitCannotHang(s: State, t: CallId) returns (s': State)
    requires Inv(s) && t < |s.calls| && s.calls[t].pc == Wait
    ensures Works(s, s')
  {
    assert CallInv(s, s.calls[t]);
    TotalIsZero(Slots, s.ctxs);
    if s.shared.wg == 0 {
      s' := Goto(s, t, s.calls[t].(pc := Returned));
      assert CancelStep(s, t, s');
      assert CallStep(s, t, s');
    } else {
      var id :| 0 <= id < |s.ctxs| && Slots(s.ctxs[id]) != 0;
      var c := s.ctxs[id];
      assert CtxInv(s, id);
      if !c.cancelled {
        var u :| 0 <= u < |s.calls| && Cancels(s.calls[u], id);
        s' := UnblockedCallCanMove(s, u);
      } else if c.watcher == Unstarted || c.reader == Unstarted {
        var u :| 0 <= u < |s.calls| && Starts(s.calls[u], id);
        s' := UnblockedCallCanMove(s, u);
      } else {
        var left := s.shared.(wg := s.shared.wg - 1);
        s' := if c.watcher == Alive then PutCtx(s, id, c.(watcher := Closing, pubSubClosed := true))
              else if c.watcher == Closing then PutCtx(s, id, c.(watcher := Done)).(shared := left)
              else PutCtx(s, id, c.(reader := Done)).(shared := left);
        assert GoroutineStep(s, id, s');
      }
    }
  }

  /** A run of steps of the calls already made and their goroutines, from s. */
  ghost predicate WorkRun(states: seq<State>, s: State) {
    && |states| > 0 && states[0] == s
    && forall i :: 0 <= i < |states| - 1 ==> Works(states[i], states[i + 1])
  }

  /** Such runs cannot go on for ever. */
  lemma {:induction false} WorkRunsAreBounded(states: seq<State>, s: State)
    requires Inv(s) && WorkRun(states, s)
    ensures |states| <= Work(s) + 1
    decreases |states|
  {
    if |states| > 1 {
      var s' := states[1];
      assert Works(states[0], states[0 + 1]);
      assert WorkRun(states[1..], s');
      if t :| CallStep(s, t, s') {
        CallStepKeepsInv(s, t, s');
        CallStepShrinksWork(s, t, s');
      } else {
        var id :| GoroutineStep(s, id, s');
        GoroutineKeepsInv(s, id, s');
        GoroutineStepShrinksWork(s, id, s');
      }
      WorkRunsAreBounded(states[1..], s');
    }
  }

  /** And one that cannot be extended has every call returned: Close's wait always completes. */
  lemma StuckMeansReturned(s: State)
    requires Inv(s) && !exists s' :: Works(s, s')
    ensures AllReturned(s)
  {
    forall t | 0 <= t < |s.calls|
      ensures s.calls[t].pc == Returned
    {
      if s.calls[t].pc == Wait {
        var s' := WaitCannotHang(s, t);
      } else if s.calls[t].pc != Returned {
        var s' := UnblockedCallCanMove(s, t);
        assert Works(s, s');
      }
    }
  }
}
