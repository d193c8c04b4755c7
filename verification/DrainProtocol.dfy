/**
  Drain, Shutdown, registration and the end of handleUnregister: a store/load handshake over the
  hub state and the client counter that must never lose the completion signal.
 */
module DrainProtocol {

  datatype Mode = Running | Draining | Stopped

  /** The atomics, the once-guarded channel, and how often the channel was really closed. */
  datatype Shared = Shared(mode: Mode, count: nat, once: bool, closings: nat)

  /** drainOnce.Do(close(drainDone)) */
  ghost function Signalled(a: Shared): Shared {
    if a.once then a else a.(once := true, closings := a.closings + 1)
  }

  ghost predicate DoneClosed(a: Shared) {
    a.closings > 0
  }

  /** The compare-and-swap of Drain, when it succeeds. */
  ghost function Began(a: Shared): Shared {
    a.(mode := Draining)
  }

  ghost function Halted(a: Shared): Shared {
    a.(mode := Stopped)
  }

  ghost function Joined(a: Shared): Shared {
    a.(count := a.count + 1)
  }

  ghost function Parted(a: Shared): Shared
    requires a.count > 0
  {
    a.(count := a.count - 1)
  }

  /** A hub that is draining and has no clients has said so, and it never says so twice. */
  ghost predicate Announced(a: Shared) {
    && a.closings == (if a.once then 1 else 0)
    && (a.mode == Draining && a.count == 0 ==> DoneClosed(a))
  }

  /**
    The same operations when each runs undisturbed. The protocol below takes them apart into their
    accesses to shared state.
   */
  class Lifecycle {
    var mode: Mode
    var count: nat
    var once: bool
    ghost var closings: nat

    ghost function State(): Shared
      reads this
    {
      Shared(mode, count, once, closings)
    }

    constructor ()
      ensures State() == Shared(Running, 0, false, 0) && Announced(State())
    {
      mode, count, once, closings := Running, 0, false, 0;
    }

    /** drainOnce.Do */
    method Signal()
      modifies this`once, this`closings
      ensures State() == Signalled(old(State()))
    {
      if !once {
        once := true;
        closings := closings + 1;
      }
    }

    /** Drain up to its wait: whether it returns nil at once, and if not, whether it starts the drain. */
    method Drain() returns (done: bool, initiated: bool)
      requires Announced(State())
      modifies this
      ensures Announced(State()) && mode != Running
      ensures done <==> old(mode) == Stopped || (old(mode) == Running && old(count) == 0)
      ensures initiated == (old(mode) == Running)
      ensures State() == if old(mode) != Running then old(State())
                         else if old(count) == 0 then Signalled(Began(old(State()))) else Began(old(State()))
    {
      if mode != Running {
        return mode == Stopped, false;
      }
      mode := Draining;
      if count == 0 {
        Signal();
        return true, true;
      }
      return false, true;
    }

    method Register()
      requires Announced(State())
      modifies this`count
      ensures Announced(State()) && State() == Joined(old(State()))
    {
      count := count + 1;
    }

    /** The end of handleUnregister: the last client of a draining hub completes the drain. */
    method Unregister()
      requires Announced(State()) && count > 0
      modifies this`count, this`once, this`closings
      ensures Announced(State()) && mode == old(mode) && count == old(count) - 1
      ensures old(mode) == Draining && old(count) == 1 ==> DoneClosed(State())
      ensures !(old(mode) == Draining && old(count) == 1) ==> State() == Parted(old(State()))
    {
      count := count - 1;
      if mode == Draining && count == 0 {
        Signal();
      }
    }

    /** The beginning of Shutdown: every Drain still waiting is released. */
    method Shutdown()
      requires Announced(State())
      modifies this
      ensures Announced(State()) && DoneClosed(State())
      ensures State() == Signalled(Halted(old(State())))
    {
      mode := Stopped;
      Signal();
    }
  }

  // ---------------------------------------------------------------- the protocol

  datatype Pc =
    | DrainStart
    | DrainWon      // compare-and-swap won, client count still to be checked
    | DrainLost     // compare-and-swap lost, state still to be loaded
    | DrainClosing  // count was zero
    | DrainWaiting
    | DrainNil      // returned nil
    | DrainErr      // returned the context's error
    | ShutStart
    | ShutStored    // state is Stopped, signal outstanding
    | ShutReturned

  /** The Run goroutine, the only one that registers and unregisters clients. */
  datatype Runner =
    | Idle
    | Decremented   // counter decremented, state still to be loaded
    | SawDraining   // state was Draining, counter still to be loaded
    | Closing       // counter was zero

  /** `expired` are the calls whose context is done. */
  datatype State = State(shared: Shared, runner: Runner, calls: seq<Pc>, expired: set<nat>)

  ghost predicate Init(s: State) {
    s == State(Shared(Running, 0, false, 0), Idle, [], {})
  }

  ghost predicate DrainStep(s: State, t: nat, s': State)
    requires t < |s.calls|
  {
    match s.calls[t]
    case DrainStart =>
      if s.shared.mode == Running then
        s' == s.(calls := s.calls[t := DrainWon], shared := Began(s.shared))
      else s' == s.(calls := s.calls[t := DrainLost])
    case DrainLost =>
      s' == s.(calls := s.calls[t := if s.shared.mode == Stopped then DrainNil else DrainWaiting])
    case DrainWon =>
      s' == s.(calls := s.calls[t := if s.shared.count == 0 then DrainClosing else DrainWaiting])
    case DrainClosing =>
      s' == s.(calls := s.calls[t := DrainNil], shared := Signalled(s.shared))
    case DrainWaiting =>
      || (DoneClosed(s.shared) && s' == s.(calls := s.calls[t := DrainNil]))
      || (t in s.expired && s' == s.(calls := s.calls[t := DrainErr]))
    case _ => false
  }

  ghost predicate ShutdownStep(s: State, t: nat, s': State)
    requires t < |s.calls|
  {
    match s.calls[t]
    case ShutStart => s' == s.(calls := s.calls[t := ShutStored], shared := Halted(s.shared))
    case ShutStored => s' == s.(calls := s.calls[t := ShutReturned], shared := Signalled(s.shared))
    case _ => false
  }

  ghost predicate RunnerStep(s: State, s': State) {
    match s.runner
    case Idle =>
      || s' == s.(shared := Joined(s.shared))
      || (s.shared.count > 0 && s' == s.(runner := Decremented, shared := Parted(s.shared)))
    case Decremented => s' == s.(runner := if s.shared.mode == Draining then SawDraining else Idle)
    case SawDraining => s' == s.(runner := if s.shared.count == 0 then Closing else Idle)
    case Closing => s' == s.(runner := Idle, shared := Signalled(s.shared))
  }

  ghost predicate NewCall(s: State, s': State) {
    s' == s.(calls := s.calls + [DrainStart]) || s' == s.(calls := s.calls + [ShutStart])
  }

  ghost predicate Expire(s: State, t: nat, s': State) {
    t < |s.calls| && s' == s.(expired := s.expired + {t})
  }

  ghost predicate CallStep(s: State, t: nat, s': State) {
    t < |s.calls| && (DrainStep(s, t, s') || ShutdownStep(s, t, s'))
  }

  /** A step of a call already made, or of an unregistration under way. */
  ghost predicate Works(s: State, s': State) {
    (exists t :: CallStep(s, t, s')) || (s.runner != Idle && RunnerStep(s, s'))
  }

  ghost predicate Next(s: State, s': State) {
    (exists t :: CallStep(s, t, s')) || RunnerStep(s, s') || NewCall(s, s') || exists t :: Expire(s, t, s')
  }

  ghost predicate Run(states: seq<State>) {
    && |states| > 0 && Init(states[0])
    && forall i :: 0 <= i < |states| - 1 ==> Next(states[i], states[i + 1])
  }

  // ---------------------------------------------------------------- the invariant

  /** Between the compare-and-swap and the end of the check it entails. */
  ghost predicate Checking(pc: Pc) {
    pc == DrainWon || pc == DrainClosing
  }

  ghost predicate SomeoneChecks(s: State) {
    s.runner != Idle || exists t :: 0 <= t < |s.calls| && Checking(s.calls[t])
  }

  ghost predicate NoLostWakeUp(s: State) {
    s.shared.mode == Draining && s.shared.count == 0 ==> DoneClosed(s.shared) || SomeoneChecks(s)
  }

  /** The hub had no client after draining began, or shutdown had begun. */
  ghost predicate Settled(s: State) {
    s.shared.mode == Stopped || (s.shared.mode == Draining && s.shared.count == 0)
  }

  ghost predicate WasSettled(states: seq<State>, i: int) {
    exists j :: 0 <= j <= i && j < |states| && Settled(states[j])
  }

  /** Whoever is about to signal, has signalled or has returned nil does so because the hub was settled. */
  ghost predicate Justified(s: State, was: bool) {
    && (DoneClosed(s.shared) || s.runner == Closing ==> was)
    && (forall t :: 0 <= t < |s.calls| && (s.calls[t] == DrainClosing || s.calls[t] == DrainNil) ==> was)
    && (forall t :: 0 <= t < |s.calls| && s.calls[t] == ShutStored ==> s.shared.mode == Stopped)
  }

  /** A stopped hub has closed drainDone, or the Shutdown that stopped it is about to. */
  ghost predicate StopIsSignalled(s: State) {
    s.shared.mode == Stopped ==> DoneClosed(s.shared) || exists t :: 0 <= t < |s.calls| && s.calls[t] == ShutStored
  }

  ghost predicate Inv(s: State) {
    && NoLostWakeUp(s) && StopIsSignalled(s)
    && s.shared.closings == (if s.shared.once then 1 else 0)
    && (forall t :: 0 <= t < |s.calls| && s.calls[t] != DrainStart && s.calls[t] != ShutStart ==>
          s.shared.mode != Running)
    && (s.runner == SawDraining || s.runner == Closing ==> s.shared.mode != Running)
    && (forall t :: 0 <= t < |s.calls| && s.calls[t] == DrainErr ==> t in s.expired)
  }

  lemma CallStepKeepsInv(s: State, t: nat, s': State)
    requires Inv(s) && CallStep(s, t, s')
    ensures Inv(s')
  {
    if Checking(s'.calls[t]) {
      assert SomeoneChecks(s');
    }
    if u :| 0 <= u < |s.calls| && Checking(s.calls[u]) && u != t {
      assert Checking(s'.calls[u]);
      assert SomeoneChecks(s');
    }
    CallStepKeepsStop(s, t, s');
  }

  lemma CallStepKeepsStop(s: State, t: nat, s': State)
    requires StopIsSignalled(s) && CallStep(s, t, s') && s.shared.closings == (if s.shared.once then 1 else 0)
    ensures StopIsSignalled(s')
  {
    assert s.calls[t] == ShutStart ==> s'.calls[t] == ShutStored;
    if u :| 0 <= u < |s.calls| && s.calls[u] == ShutStored && u != t {
      assert s'.calls[u] == ShutStored;
    }
  }

  lemma ExpireKeepsInv(s: State, t: nat, s': State)
    requires Inv(s) && Expire(s, t, s')
    ensures Inv(s')
  {
    assert SomeoneChecks(s) ==> SomeoneChecks(s');
  }

  lemma RunnerStepKeepsInv(s: State, s': State)
    requires Inv(s) && RunnerStep(s, s')
    ensures Inv(s')
  {}

  lemma NewCallKeepsInv(s: State, s': State)
    requires Inv(s) && NewCall(s, s')
    ensures Inv(s')
  {
    if u :| 0 <= u < |s.calls| && Checking(s.calls[u]) {
      assert Checking(s'.calls[u]);
    }
    if u :| 0 <= u < |s.calls| && s.calls[u] == ShutStored {
      assert s'.calls[u] == ShutStored;
    }
  }

  lemma NextKeepsInv(s: State, s': State)
    requires Inv(s) && Next(s, s')
    ensures Inv(s')
  {
    if t :| CallStep(s, t, s') {
      CallStepKeepsInv(s, t, s');
    } else if RunnerStep(s, s') {
      RunnerStepKeepsInv(s, s');
    } else if NewCall(s, s') {
      NewCallKeepsInv(s, s');
    } else {
      var t :| Expire(s, t, s');
      ExpireKeepsInv(s, t, s');
    }
  }

  lemma {:induction false} RunInv(states: seq<State>, i: nat)
    requires Run(states) && i < |states|
    ensures Inv(states[i])
  {
    if i > 0 {
      RunInv(states, i - 1);
      assert Next(states[i - 1], states[i - 1 + 1]);
      NextKeepsInv(states[i - 1], states[i]);
    }
  }

  lemma CallStepKeepsJustified(s: State, t: nat, s': State, was: bool)
    requires Inv(s) && CallStep(s, t, s') && Justified(s, was) && (Settled(s) ==> was)
    ensures Justified(s', was || Settled(s'))
  {}

  lemma NextKeepsJustified(s: State, s': State, was: bool)
    requires Inv(s) && Next(s, s') && Justified(s, was) && (Settled(s) ==> was)
    ensures Justified(s', was || Settled(s'))
  {
    if t :| CallStep(s, t, s') {
      CallStepKeepsJustified(s, t, s', was);
    }
  }

  lemma WasSettledGrows(states: seq<State>, i: nat)
    requires 0 < i < |states|
    ensures WasSettled(states, i) <==> WasSettled(states, i - 1) || Settled(states[i])
  {}

  lemma RunStepKeepsJustified(states: seq<State>, i: nat, was: bool)
    requires Run(states) && i + 1 < |states| && Justified(states[i], was) && (Settled(states[i]) ==> was)
    ensures Justified(states[i + 1], was || Settled(states[i + 1]))
  {
    RunInv(states, i);
    assert Next(states[i], states[i + 1]);
    NextKeepsJustified(states[i], states[i + 1], was);
  }

  lemma {:induction false} RunJustified(states: seq<State>, i: nat)
    requires Run(states) && i < |states|
    ensures Justified(states[i], WasSettled(states, i))
  {
    if i > 0 {
      var j := i - 1;
      RunJustified(states, j);
      WasSettledGrows(states, i);
      assert Settled(states[j]) ==> WasSettled(states, j);
      RunStepKeepsJustified(states, j, WasSettled(states, j));
    }
  }

  // ---------------------------------------------------------------- the main results

  /**
    No lost wake-up: a draining hub without clients has closed drainDone, unless some thread is still
    between its update of the state or the counter and the end of the check that follows it.
   */
  lemma DrainIsSignalled(states: seq<State>, i: nat)
    requires Run(states) && i < |states|
    requires states[i].shared.mode == Draining && states[i].shared.count == 0 && !SomeoneChecks(states[i])
    ensures DoneClosed(states[i].shared)
  {
    RunInv(states, i);
  }

  lemma DoneClosedAtMostOnce(states: seq<State>, i: nat)
    requires Run(states) && i < |states|
    ensures states[i].shared.closings <= 1
  {
    RunInv(states, i);
  }

  ghost function Rank(m: Mode): nat {
    match m
    case Running => 0
    case Draining => 1
    case Stopped => 2
  }

  /** The state only moves forward, over any stretch of any run. */
  lemma {:induction false} StateOnlyMovesForward(states: seq<State>, i: nat, j: nat)
    requires Run(states) && i <= j < |states|
    ensures Rank(states[i].shared.mode) <= Rank(states[j].shared.mode)
    decreases j
  {
    if i < j {
      StateOnlyMovesForward(states, i, j - 1);
      assert Next(states[j - 1], states[j - 1 + 1]);
    }
  }

  /** Drain returns nil only if the hub was empty at some instant after draining began, or was shut down. */
  lemma DrainNilMeansSettled(states: seq<State>, i: nat, t: nat)
    requires Run(states) && i < |states| && t < |states[i].calls| && states[i].calls[t] == DrainNil
    ensures exists j :: 0 <= j <= i && Settled(states[j])
  {
    RunJustified(states, i);
    assert WasSettled(states, i);
  }

  /** Drain returns an error only if its own context is done. */
  lemma DrainErrMeansExpired(states: seq<State>, i: nat, t: nat)
    requires Run(states) && i < |states| && t < |states[i].calls| && states[i].calls[t] == DrainErr
    ensures t in states[i].expired
  {
    RunInv(states, i);
  }

  ghost predicate Over(pc: Pc) {
    pc == DrainNil || pc == DrainErr || pc == ShutReturned
  }

  /** A call that is not waiting can always move. */
  lemma CallCanMove(s: State, t: nat) returns (s': State)
    requires t < |s.calls| && !Over(s.calls[t]) && s.calls[t] != DrainWaiting
    ensures CallStep(s, t, s')
  {
    match s.calls[t] {
      case DrainStart =>
        s' := if s.shared.mode == Running then s.(calls := s.calls[t := DrainWon], shared := Began(s.shared))
              else s.(calls := s.calls[t := DrainLost]);
      case DrainLost => s' := s.(calls := s.calls[t := if s.shared.mode == Stopped then DrainNil else DrainWaiting]);
      case DrainWon => s' := s.(calls := s.calls[t := if s.shared.count == 0 then DrainClosing else DrainWaiting]);
      case DrainClosing => s' := s.(calls := s.calls[t := DrainNil], shared := Signalled(s.shared));
      case ShutStart => s' := s.(calls := s.calls[t := ShutStored], shared := Halted(s.shared));
      case ShutStored => s' := s.(calls := s.calls[t := ShutReturned], shared := Signalled(s.shared));
    }
  }

  lemma RunnerCanMove(s: State) returns (s': State)
    requires s.runner != Idle
    ensures RunnerStep(s, s')
  {
    match s.runner {
      case Decremented => s' := s.(runner := if s.shared.mode == Draining then SawDraining else Idle);
      case SawDraining => s' := s.(runner := if s.shared.count == 0 then Closing else Idle);
      case Closing => s' := s.(runner := Idle, shared := Signalled(s.shared));
    }
  }

  /**
    Where nothing but clients and contexts can make a difference any more, every call has returned, but for
    the Drains that wait with reason: the hub is draining, it has clients, and their context is not done.
   */
  lemma StuckMeansWaitingForClients(states: seq<State>, i: nat, t: nat)
    requires Run(states) && i < |states| && t < |states[i].calls| && !Over(states[i].calls[t])
    requires !exists s' :: Works(states[i], s')
    ensures states[i].calls[t] == DrainWaiting
    ensures states[i].shared.mode == Draining && states[i].shared.count > 0 && t !in states[i].expired
  {
    RunInv(states, i);
    StuckCallWaits(states[i], t);
  }

  lemma StuckCallWaits(s: State, t: nat)
    requires Inv(s) && t < |s.calls| && !Over(s.calls[t]) && !exists s' :: Works(s, s')
    ensures s.calls[t] == DrainWaiting && s.shared.mode == Draining && s.shared.count > 0 && t !in s.expired
  {
    forall u | 0 <= u < |s.calls| && !Over(s.calls[u])
      ensures s.calls[u] == DrainWaiting
    {
      if s.calls[u] != DrainWaiting {
        var s' := CallCanMove(s, u);
        assert Works(s, s');
      }
    }
    if s.runner != Idle {
      var s' := RunnerCanMove(s);
      assert Works(s, s');
    }
    if DoneClosed(s.shared) {
      var s' := s.(calls := s.calls[t := DrainNil]);
      assert CallStep(s, t, s') && Works(s, s');
    }
    if t in s.expired {
      var s' := s.(calls := s.calls[t := DrainErr]);
      assert CallStep(s, t, s') && Works(s, s');
    }
  }
}
