/**
  The Redis adapter: Subscribe, Close, context cancellation and the two goroutines of each
  subscription, interleaved freely. The class Adapter holds the locked sections; the protocol
  interleaves them with everything that happens outside the lock.
 */
module RedisAdapter {
  import opened Options

  type CtxId = nat
  type CallId = nat

  /** The fields guarded by the adapter's mutex, and the WaitGroup counter. */
  datatype Shared = Shared(cancel: Option<CtxId>, closed: bool, wg: int)

  /** The locked section of Subscribe: replace the cancel function and reserve two slots. */
  ghost function Reserve(a: Shared, own: CtxId): Shared {
    a.(cancel := Some(own), wg := a.wg + 2)
  }

  /** The locked section of Close. */
  ghost function Shut(a: Shared): Shared {
    a.(closed := true)
  }

  class Adapter {
    var cancel: Option<CtxId>
    var closed: bool
    var wg: int

    ghost function State(): Shared
      reads this
    {
      Shared(cancel, closed, wg)
    }

    constructor ()
      ensures State() == Shared(None, false, 0)
    {
      cancel, closed, wg := None, false, 0;
    }

    method BeginSubscribe(own: CtxId) returns (ok: bool, prev: Option<CtxId>)
      modifies this
      ensures ok == !old(closed) == !closed
      ensures ok ==> cancel == Some(own) && wg == old(wg) + 2
      ensures State() == if ok then Reserve(old(State()), own) else old(State())
      ensures prev == if ok then old(cancel) else None
    {
      if closed {
        return false, None;
      }
      prev := cancel;
      cancel := Some(own);
      wg := wg + 2;
      ok := true;
    }

    method BeginClose() returns (won: bool, last: Option<CtxId>)
      modifies this
      ensures won == !old(closed) && closed && cancel == old(cancel) && wg == old(wg)
      ensures State() == if won then Shut(old(State())) else old(State())
      ensures last == if won then old(cancel) else None
    {
      if closed {
        return false, None;
      }
      closed := true;
      last := cancel;
      won := true;
    }
  }

  // ---------------------------------------------------------------- the protocol

  datatype Goroutine = Unstarted | Alive | Closing | Done

  /** A subscription's derived context, its PubSub, and the two goroutines that wait on them. */
  datatype Ctx = Ctx(cancelled: bool, reserved: bool, pubSubClosed: bool, watcher: Goroutine, reader: Goroutine)

  datatype Pc =
    | SubStart
    | SubLock      // context created
    | SubRefused   // adapter closed: cancel the new context
    | CancelPrev   // slots reserved; target is the replaced context
    | Connect      // client.Subscribe and Receive
    | AbortCancel  // Receive failed
    | AbortRelease
    | SpawnWatcher
    | SpawnReader
    | CloseLock
    | CancelLast   // target is the context in a.cancel
    | Wait         // wg.Wait
    | Returned

  datatype Call = Call(pc: Pc, own: CtxId, target: CtxId)

  datatype State = State(shared: Shared, ctxs: seq<Ctx>, calls: seq<Call>)

  ghost predicate Init(s: State) {
    s == State(Shared(None, false, 0), [], [])
  }

  ghost function Goto(s: State, t: CallId, k: Call): State
    requires t < |s.calls|
  {
    s.(calls := s.calls[t := k])
  }

  ghost function PutCtx(s: State, id: CtxId, c: Ctx): State
    requires id < |s.ctxs|
  {
    s.(ctxs := s.ctxs[id := c])
  }

  ghost function Cancelled(s: State, id: CtxId): State
    requires id < |s.ctxs|
  {
    PutCtx(s, id, s.ctxs[id].(cancelled := true))
  }

  ghost function AfterReserve(k: Call, prev: Option<CtxId>): Call {
    if prev.Some? then k.(pc := CancelPrev, target := prev.value) else k.(pc := Connect)
  }

  ghost function AfterShut(k: Call, last: Option<CtxId>): Call {
    if last.Some? then k.(pc := CancelLast, target := last.value) else k.(pc := Wait)
  }

  /** Up to and including the locked sections. */
  ghost predicate EnterStep(s: State, t: CallId, s': State)
    requires t < |s.calls|
  {
    var k := s.calls[t];
    match k.pc
    case SubStart =>
      s' == Goto(s, t, k.(pc := SubLock, own := |s.ctxs|)).(
            ctxs := s.ctxs + [Ctx(false, false, false, Unstarted, Unstarted)])
    case SubLock =>
      k.own < |s.ctxs| &&
      if s.shared.closed then s' == Goto(s, t, k.(pc := SubRefused))
      else s' == Goto(PutCtx(s, k.own, s.ctxs[k.own].(reserved := true)), t, AfterReserve(k, s.shared.cancel)).(
                 shared := Reserve(s.shared, k.own))
    case CloseLock =>
      if s.shared.closed then s' == Goto(s, t, k.(pc := Returned))
      else s' == Goto(s, t, AfterShut(k, s.shared.cancel)).(shared := Shut(s.shared))
    case _ => false
  }

  /** Cancelling a context outside the lock, and the wait of Close. */
  ghost predicate CancelStep(s: State, t: CallId, s': State)
    requires t < |s.calls|
  {
    var k := s.calls[t];
    match k.pc
    case SubRefused => k.own < |s.ctxs| && s' == Goto(Cancelled(s, k.own), t, k.(pc := Returned))
    case CancelPrev => k.target < |s.ctxs| && s' == Goto(Cancelled(s, k.target), t, k.(pc := Connect))
    case CancelLast => k.target < |s.ctxs| && s' == Goto(Cancelled(s, k.target), t, k.(pc := Wait))
    case AbortCancel => k.own < |s.ctxs| && s' == Goto(Cancelled(s, k.own), t, k.(pc := AbortRelease))
    case Wait => s.shared.wg == 0 && s' == Goto(s, t, k.(pc := Returned))
    case _ => false
  }

  /** Connecting, and either starting the goroutines or giving the slots back. */
  ghost predicate StartStep(s: State, t: CallId, s': State)
    requires t < |s.calls|
  {
    var k := s.calls[t];
    k.own < |s.ctxs| &&
    match k.pc
    case Connect =>
      s' == Goto(s, t, k.(pc := AbortCancel)) || s' == Goto(s, t, k.(pc := SpawnWatcher))
    case AbortRelease =>
      s' == Goto(PutCtx(s, k.own, s.ctxs[k.own].(watcher := Done, reader := Done)), t, k.(pc := Returned)).(
            shared := s.shared.(wg := s.shared.wg - 2))
    case SpawnWatcher =>
      s' == Goto(PutCtx(s, k.own, s.ctxs[k.own].(watcher := Alive)), t, k.(pc := SpawnReader))
    case SpawnReader =>
      s' == Goto(PutCtx(s, k.own, s.ctxs[k.own].(reader := Alive)), t, k.(pc := Returned))
    case _ => false
  }

  ghost predicate CallStep(s: State, t: CallId, s': State) {
    t < |s.calls| && (EnterStep(s, t, s') || CancelStep(s, t, s') || StartStep(s, t, s'))
  }

  /** The watcher closes the PubSub once its context is done; the reader ends once the PubSub is closed. */
  ghost predicate GoroutineStep(s: State, id: CtxId, s': State) {
    id < |s.ctxs| &&
    var c := s.ctxs[id];
    var done := s.shared.(wg := s.shared.wg - 1);
    || (c.watcher == Alive && c.cancelled && s' == PutCtx(s, id, c.(watcher := Closing, pubSubClosed := true)))
    || (c.watcher == Closing && s' == PutCtx(s, id, c.(watcher := Done)).(shared := done))
    || (c.reader == Alive && c.pubSubClosed && s' == PutCtx(s, id, c.(reader := Done)).(shared := done))
  }

  ghost predicate NewCall(s: State, s': State) {
    || s' == s.(calls := s.calls + [Call(SubStart, 0, 0)])
    || s' == s.(calls := s.calls + [Call(CloseLock, 0, 0)])
  }

  /** The caller's own context is cancelled, and with it the derived one. */
  ghost predicate OuterCancel(s: State, id: CtxId, s': State) {
    id < |s.ctxs| && s' == Cancelled(s, id)
  }

  /** A step of a call already made or of a goroutine. */
  ghost predicate Works(s: State, s': State) {
    (exists t :: CallStep(s, t, s')) || (exists id :: GoroutineStep(s, id, s'))
  }

  ghost predicate Next(s: State, s': State) {
    Works(s, s') || NewCall(s, s') || exists id :: OuterCancel(s, id, s')
  }

  ghost predicate Run(states: seq<State>) {
    && |states| > 0 && Init(states[0])
    && forall i :: 0 <= i < |states| - 1 ==> Next(states[i], states[i + 1])
  }
}
