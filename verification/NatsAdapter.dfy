/**
  The NATS adapter: Subscribe, Close, context cancellation and the watcher goroutines, interleaved
  freely. The adapter's fields under `mu` are the class Adapter; the protocol interleaves exactly
  the locked sections of that class with everything that happens between them.
 */
module NatsAdapter {
  import opened Options

  type SubId = nat
  type CallId = nat

  /** The fields guarded by the adapter's mutex, and the live-watcher counter. */
  datatype Shared = Shared(cur: Option<SubId>, closed: bool, gen: nat, watchers: int)

  /** First section of Subscribe: claim a generation and take over the current subscription. */
  ghost function Claim(a: Shared): Shared
    requires !a.closed
  {
    a.(gen := a.gen + 1, cur := None)
  }

  /** Whether the second section of Subscribe, run by the owner of generation g, may install. */
  ghost predicate MayInstall(a: Shared, g: nat) {
    !a.closed && a.gen == g
  }

  ghost function Install(a: Shared, id: SubId): Shared {
    a.(cur := Some(id), watchers := a.watchers + 1)
  }

  /** The locked section of Close. */
  ghost function Shut(a: Shared): Shared {
    a.(closed := true, cur := None)
  }

  class Adapter {
    var cur: Option<SubId>
    var closed: bool
    var gen: nat
    var watchers: int

    ghost function State(): Shared
      reads this
    {
      Shared(cur, closed, gen, watchers)
    }

    constructor ()
      ensures State() == Shared(None, false, 0, 0)
    {
      cur, closed, gen, watchers := None, false, 0, 0;
    }

    /** Refused once closed; otherwise the caller owns what it took and the generation it was given. */
    method BeginSubscribe() returns (ok: bool, myGen: nat, prev: Option<SubId>)
      modifies this
      ensures ok == !old(closed) == !closed
      ensures ok ==> State() == Claim(old(State())) && myGen == gen == old(gen) + 1 && prev == old(cur) && cur == None
      ensures !ok ==> State() == old(State())
    {
      if closed {
        return false, 0, None;
      }
      gen := gen + 1;
      myGen, prev := gen, cur;
      cur := None;
      ok := true;
    }

    method FinishSubscribe(myGen: nat, id: SubId) returns (installed: bool)
      modifies this
      ensures installed <==> !old(closed) && old(gen) == myGen
      ensures cur == if installed then Some(id) else old(cur)
      ensures gen == old(gen) && closed == old(closed) && watchers == old(watchers) + if installed then 1 else 0
      ensures State() == if installed then Install(old(State()), id) else old(State())
    {
      if closed || gen != myGen {
        return false;
      }
      cur := Some(id);
      watchers := watchers + 1;
      installed := true;
    }

    method BeginClose() returns (won: bool, taken: Option<SubId>)
      modifies this
      ensures won == !old(closed) && closed && cur == if won then None else old(cur)
      ensures State() == if won then Shut(old(State())) else old(State())
      ensures taken == if won then old(cur) else None
    {
      if closed {
        return false, None;
      }
      closed := true;
      taken := cur;
      cur := None;
      won := true;
    }
  }

  // ---------------------------------------------------------------- the protocol

  /** The watcher goroutine of a subscription; Discarded means it was never installed. */
  datatype Watcher =
    | Discarded
    | Unstarted  // counted in watchers, goroutine not yet running
    | Watching
    | Leaving    // past the select, deferred watchers.Add(-1) outstanding
    | Closing    // deferred close(done) outstanding
    | Exited     // done is closed

  /** A subscription object: the stop channel, both once-guards, and how often Drain was really called. */
  datatype Sub = Sub(watcher: Watcher, cancelled: bool, stopped: bool, drainOnce: bool, drains: nat)

  datatype Pc =
    | SubStart
    | CloseStart
    | Release     // holds a subscription taken from cur: close its stop channel
    | Await       // holds it: wait for its done channel
    | DrainTaken  // holds it: drain it
    | Connect     // conn.Subscribe
    | Decide      // holds the new subscription: second locked section
    | Discard     // holds the new subscription: closed or superseded, drain it
    | Spawn       // installed: start the watcher
    | Returned

  /** One call of Subscribe (closing is false) or Close. */
  datatype Call = Call(pc: Pc, closing: bool, gen: nat, held: SubId)

  datatype State = State(shared: Shared, subs: seq<Sub>, calls: seq<Call>)

  ghost predicate Init(s: State) {
    s == State(Shared(None, false, 0, 0), [], [])
  }

  ghost function Goto(s: State, t: CallId, k: Call): State
    requires t < |s.calls|
  {
    s.(calls := s.calls[t := k])
  }

  ghost function PutSub(s: State, id: SubId, sub: Sub): State
    requires id < |s.subs|
  {
    s.(subs := s.subs[id := sub])
  }

  /** drain(): the once-guard lets only the first caller through to the NATS subscription. */
  ghost function Drained(sub: Sub): Sub {
    if sub.drainOnce then sub else sub.(drainOnce := true, drains := sub.drains + 1)
  }

  /** Where a call goes with what it took from cur; a Close that took nothing is done. */
  ghost function WithTaken(closing: bool, gen: nat, taken: Option<SubId>): Call {
    match taken
    case Some(id) => Call(Release, closing, gen, id)
    case None => Call(if closing then Returned else Connect, closing, gen, 0)
  }

  /** The first locked section of Subscribe and the only one of Close. */
  ghost predicate EnterStep(s: State, t: CallId, s': State)
    requires t < |s.calls|
  {
    var k := s.calls[t];
    match k.pc
    case SubStart =>
      if s.shared.closed then s' == Goto(s, t, k.(pc := Returned))
      else s' == Goto(s, t, WithTaken(false, s.shared.gen + 1, s.shared.cur)).(shared := Claim(s.shared))
    case CloseStart =>
      if s.shared.closed then s' == Goto(s, t, k.(pc := Returned))
      else s' == Goto(s, t, WithTaken(true, 0, s.shared.cur)).(shared := Shut(s.shared))
    case _ => false
  }

  /** release() and drain() of a subscription taken from cur, outside the lock. */
  ghost predicate TakeOverStep(s: State, t: CallId, s': State)
    requires t < |s.calls|
  {
    var k := s.calls[t];
    k.held < |s.subs| &&
    match k.pc
    case Release =>
      s' == Goto(PutSub(s, k.held, s.subs[k.held].(stopped := true)), t, k.(pc := Await))
    case Await =>
      s.subs[k.held].watcher == Exited && s' == Goto(s, t, k.(pc := DrainTaken))
    case DrainTaken =>
      s' == Goto(PutSub(s, k.held, Drained(s.subs[k.held])), t, k.(pc := if k.closing then Returned else Connect))
    case _ => false
  }

  /** conn.Subscribe, which may fail; the new subscription's context may be cancelled already. */
  ghost predicate ConnectStep(s: State, t: CallId, cancelled: bool, s': State)
    requires t < |s.calls|
  {
    s.calls[t].pc == Connect &&
    (|| s' == Goto(s, t, s.calls[t].(pc := Returned))
     || s' == Goto(s, t, s.calls[t].(pc := Decide, held := |s.subs|)).(
                   subs := s.subs + [Sub(Discarded, cancelled, false, false, 0)]))
  }

  /** The second locked section of Subscribe and what follows it. */
  ghost predicate InstallStep(s: State, t: CallId, s': State)
    requires t < |s.calls|
  {
    var k := s.calls[t];
    k.held < |s.subs| &&
    match k.pc
    case Decide =>
      if MayInstall(s.shared, k.gen) then
        s' == Goto(PutSub(s, k.held, s.subs[k.held].(watcher := Unstarted)), t, k.(pc := Spawn)).(
              shared := Install(s.shared, k.held))
      else
        s' == Goto(s, t, k.(pc := Discard))
    case Discard =>
      s' == Goto(PutSub(s, k.held, Drained(s.subs[k.held])), t, k.(pc := Returned))
    case Spawn =>
      s' == Goto(PutSub(s, k.held, s.subs[k.held].(watcher := Watching)), t, k.(pc := Returned))
    case _ => false
  }

  ghost predicate WatcherStep(s: State, id: SubId, s': State)
    requires id < |s.subs|
  {
    var sub := s.subs[id];
    match sub.watcher
    case Watching =>
      || (sub.cancelled && s' == PutSub(s, id, Drained(sub).(watcher := Leaving)))
      || (sub.stopped && s' == PutSub(s, id, sub.(watcher := Leaving)))
    case Leaving =>
      s' == PutSub(s, id, sub.(watcher := Closing)).(shared := s.shared.(watchers := s.shared.watchers - 1))
    case Closing =>
      s' == PutSub(s, id, sub.(watcher := Exited))
    case _ => false
  }

  ghost predicate NewCall(s: State, s': State) {
    || s' == s.(calls := s.calls + [Call(SubStart, false, 0, 0)])
    || s' == s.(calls := s.calls + [Call(CloseStart, true, 0, 0)])
  }

  ghost predicate Cancel(s: State, id: SubId, s': State) {
    id < |s.subs| && s' == PutSub(s, id, s.subs[id].(cancelled := true))
  }

  ghost predicate CallStep(s: State, t: CallId, s': State) {
    t < |s.calls| &&
    (|| EnterStep(s, t, s') || TakeOverStep(s, t, s') || InstallStep(s, t, s')
     || ConnectStep(s, t, true, s') || ConnectStep(s, t, false, s'))
  }

  /** A step of a call already made or of a watcher. */
  ghost predicate Works(s: State, s': State) {
    || (exists t :: CallStep(s, t, s'))
    || (exists id :: 0 <= id < |s.subs| && WatcherStep(s, id, s'))
  }

  ghost predicate Next(s: State, s': State) {
    Works(s, s') || NewCall(s, s') || exists id :: Cancel(s, id, s')
  }

  ghost predicate Run(states: seq<State>) {
    && |states| > 0 && Init(states[0])
    && forall i :: 0 <= i < |states| - 1 ==> Next(states[i], states[i + 1])
  }
}
