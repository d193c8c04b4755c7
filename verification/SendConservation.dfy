/** Nothing offered to a client's send channel is lost or reported twice, in every interleaving. */
module SendConservation {
  import opened Options
  import opened Messages
  import opened Totals
  import opened SendBuffer
  import opened SendProtocol

  // ---------------------------------------------------------------- reading the history

  ghost function Entries(removed: seq<Removal>): seq<Entry> {
    seq(|removed|, i requires 0 <= i < |removed| => removed[i].entry)
  }

  ghost function EvictedEntries(removed: seq<Removal>): seq<Entry> {
    if |removed| == 0 then []
    else
      var last := removed[|removed| - 1];
      EvictedEntries(removed[..|removed| - 1]) + if last.how.EvictedBy? then [last.entry] else []
  }

  ghost function EvictionsBy(removed: seq<Removal>, t: CallId): nat {
    if |removed| == 0 then 0
    else EvictionsBy(removed[..|removed| - 1], t) + if removed[|removed| - 1].how == EvictedBy(t) then 1 else 0
  }

  /** How many entries of the log were offered by call t. */
  ghost function SentBy(log: seq<Entry>, t: CallId): nat {
    if |log| == 0 then 0
    else SentBy(log[..|log| - 1], t) + if log[|log| - 1].sender == t then 1 else 0
  }

  lemma SentByAppend(log: seq<Entry>, e: Entry, t: CallId)
    ensures SentBy(log + [e], t) == SentBy(log, t) + if e.sender == t then 1 else 0
  {
    assert (log + [e])[..|log|] == log;
  }

  lemma RemovedAppend(removed: seq<Removal>, r: Removal, t: CallId)
    ensures Entries(removed + [r]) == Entries(removed) + [r.entry]
    ensures EvictedEntries(removed + [r]) == EvictedEntries(removed) + if r.how.EvictedBy? then [r.entry] else []
    ensures EvictionsBy(removed + [r], t) == EvictionsBy(removed, t) + if r.how == EvictedBy(t) then 1 else 0
  {
    assert (removed + [r])[..|removed|] == removed;
  }

  lemma {:induction false} NotSent(log: seq<Entry>, t: CallId)
    requires SentBy(log, t) == 0
    ensures forall e :: e in log ==> e.sender != t
  {
    if |log| > 0 {
      NotSent(log[..|log| - 1], t);
    }
  }

  // ---------------------------------------------------------------- the invariant

  ghost predicate HoldsMu(pc: Pc) {
    match pc
    case Recheck | Evicting | Notifying | Retrying | Unlocking | GivingUp => true
    case _ => false
  }

  /** The entry evicted but not yet reported, if any. */
  ghost function Unreported(s: State): seq<Entry> {
    if s.sendMu.Some? && s.sendMu.value < |s.calls| && s.calls[s.sendMu.value].pc == Notifying
    then [s.calls[s.sendMu.value].dropped] else []
  }

  ghost predicate ChannelInv(s: State) {
    && 0 < s.capacity && |s.buffer| <= s.capacity
    && s.enqueued == Entries(s.removed) + s.buffer
    && EvictedEntries(s.removed) == s.evicted + Unreported(s)
  }

  ghost predicate LockInv(s: State) {
    && (forall t :: 0 <= t < |s.calls| ==> (s.sendMu == Some(t) <==> HoldsMu(s.calls[t].pc)))
    && (s.sendMu.Some? ==> s.sendMu.value < |s.calls|)
  }

  ghost function One(b: bool): nat {
    if b then 1 else 0
  }

  /** Each call has put its own item into the channel, or reported it, or neither; never both. */
  ghost predicate SettledInv(s: State, t: CallId)
    requires t < |s.calls|
  {
    var k := s.calls[t];
    && SentBy(s.enqueued, t) == One(k.pc == Unlocking || k.pc == ReturnedTrue)
    && SentBy(s.rejected, t) == One(k.pc == ReturnedFalse)
  }

  /** The slow path: attempt n can only fail if n other enqueues completed since the buffer was found full. */
  ghost predicate SlowInv(s: State, t: CallId)
    requires t < |s.calls|
  {
    Bounded(s.calls[t], |s.enqueued|, |s.buffer| == s.capacity, s.policy)
  }

  ghost predicate Bounded(k: Call, enqueued: nat, full: bool, policy: DropPolicy) {
    match k.pc
    case Evicting => 1 <= k.tries <= 2 && k.evictions <= k.tries - 1 && k.base + (k.tries - 1) <= enqueued
    case Notifying | Retrying =>
      && 1 <= k.tries <= 2 && k.evictions <= k.tries && k.base + (k.tries - 1) <= enqueued
      && (full ==> k.base + k.tries <= enqueued)
    case GivingUp => k.evictions <= 2 && k.base + 2 <= k.ended <= enqueued
    case Rejecting | ReturnedFalse =>
      k.evictions <= 2 && (policy == DropOldest ==> k.base + 2 <= k.ended <= enqueued)
    case Unlocking | ReturnedTrue | Skipped => k.evictions <= 2
    case _ => k.evictions == 0
  }

  ghost predicate CallFits(s: State, t: CallId)
    requires t < |s.calls|
  {
    SettledInv(s, t) && SlowInv(s, t) && EvictionsBy(s.removed, t) == s.calls[t].evictions
  }

  ghost predicate CallsInv(s: State) {
    forall t :: 0 <= t < |s.calls| ==> CallFits(s, t)
  }

  ghost predicate OwnItems(s: State) {
    && (forall e :: e in s.enqueued ==> e.sender < |s.calls| && e.item == s.calls[e.sender].item)
    && (forall e :: e in s.rejected ==> e.sender < |s.calls| && e.item == s.calls[e.sender].item)
    && (forall r :: r in s.removed && r.how.EvictedBy? ==> r.how.t < |s.calls|)
  }

  ghost function Rejections(k: Call): nat {
    One(k.pc == ReturnedFalse)
  }

  ghost predicate Inv(s: State) {
    ChannelInv(s) && LockInv(s) && CallsInv(s) && OwnItems(s) && |s.rejected| == Total(Rejections, s.calls)
  }

  // ---------------------------------------------------------------- one step keeps the invariant

  /** The channel and the notification logs change by at most one operation, made on behalf of call t. */
  ghost predicate OneOperation(s: State, s': State, t: CallId) {
    && s'.policy == s.policy && s'.capacity == s.capacity
    && (|| (s'.buffer == s.buffer && s'.enqueued == s.enqueued && s'.removed == s.removed && s'.rejected == s.rejected)
        || (|s.buffer| < s.capacity && s'.removed == s.removed && s'.rejected == s.rejected &&
            t < |s.calls| &&
            var e := Entry(t, s.calls[t].item); s'.buffer == s.buffer + [e] && s'.enqueued == s.enqueued + [e])
        || (|s.buffer| > 0 && s'.enqueued == s.enqueued && s'.rejected == s.rejected && s'.buffer == s.buffer[1..] &&
            (s'.removed == s.removed + [Removal(s.buffer[0], EvictedBy(t))] ||
             s'.removed == s.removed + [Removal(s.buffer[0], Taken)] ||
             s'.removed == s.removed + [Removal(s.buffer[0], Discarded)]))
        || (s'.buffer == s.buffer && s'.enqueued == s.enqueued && s'.removed == s.removed &&
            t < |s.calls| && s'.rejected == s.rejected + [Entry(t, s.calls[t].item)]))
  }

  lemma OthersKeep(s: State, s': State, t: CallId, u: CallId)
    requires OneOperation(s, s', t) && u != t && u < |s.calls| && u < |s'.calls| && s'.calls[u] == s.calls[u]
    requires CallFits(s, u)
    requires |s.buffer| <= s.capacity
    ensures CallFits(s', u)
  {
    if s'.enqueued != s.enqueued {
      SentByAppend(s.enqueued, Entry(t, s.calls[t].item), u);
    }
    if s'.rejected != s.rejected {
      SentByAppend(s.rejected, Entry(t, s.calls[t].item), u);
    }
    if s'.removed != s.removed {
      RemovedAppend(s.removed, s'.removed[|s.removed|], u);
    }
  }

  lemma FastStepShape(s: State, t: CallId, s': State)
    requires ChannelInv(s) && t < |s.calls| && FastStep(s, t, s')
    ensures OneOperation(s, s', t)
    ensures |s'.calls| == |s.calls| && s'.calls == s.calls[t := s'.calls[t]] && s'.calls[t].item == s.calls[t].item
    ensures s'.removed != s.removed ==> s'.removed == s.removed + [Removal(s.buffer[0], EvictedBy(t))]
  {}

  lemma SlowStepShape(s: State, t: CallId, s': State)
    requires ChannelInv(s) && t < |s.calls| && SlowStep(s, t, s')
    ensures OneOperation(s, s', t)
    ensures |s'.calls| == |s.calls| && s'.calls == s.calls[t := s'.calls[t]] && s'.calls[t].item == s.calls[t].item
    ensures s'.removed != s.removed ==> s'.removed == s.removed + [Removal(s.buffer[0], EvictedBy(t))]
  {}

  lemma CallStepShape(s: State, t: CallId, s': State)
    requires ChannelInv(s) && CallStep(s, t, s')
    ensures OneOperation(s, s', t)
    ensures |s'.calls| == |s.calls| && s'.calls == s.calls[t := s'.calls[t]] && s'.calls[t].item == s.calls[t].item
    ensures s'.removed != s.removed ==> s'.removed == s.removed + [Removal(s.buffer[0], EvictedBy(t))]
  {
    if FastStep(s, t, s') {
      FastStepShape(s, t, s');
    } else {
      SlowStepShape(s, t, s');
    }
  }

  lemma FastStepKeepsLock(s: State, t: CallId, s': State)
    requires LockInv(s) && t < |s.calls| && FastStep(s, t, s')
    ensures LockInv(s')
  {}

  lemma SlowStepKeepsLock(s: State, t: CallId, s': State)
    requires LockInv(s) && t < |s.calls| && SlowStep(s, t, s')
    ensures LockInv(s')
  {}

  lemma CallStepKeepsLock(s: State, t: CallId, s': State)
    requires LockInv(s) && CallStep(s, t, s')
    ensures LockInv(s')
  {
    if FastStep(s, t, s') {
      FastStepKeepsLock(s, t, s');
    } else {
      SlowStepKeepsLock(s, t, s');
    }
  }

  /** The reported evictions grow by the one still to be reported, and by the one this step makes. */
  ghost predicate EvictionReported(s: State, s': State) {
    if |s'.removed| > |s.removed| && s'.removed[|s.removed|].how.EvictedBy? then
      |s.buffer| > 0 && s'.evicted + Unreported(s') == s.evicted + Unreported(s) + [s.buffer[0]]
    else
      s'.evicted + Unreported(s') == s.evicted + Unreported(s)
  }

  /** Taking the oldest entry out of the channel moves it to the end of the removals. */
  lemma HeadRemoved(enqueued: seq<Entry>, removed: seq<Removal>, buffer: seq<Entry>, r: Removal)
    requires enqueued == Entries(removed) + buffer && |buffer| > 0 && r.entry == buffer[0]
    ensures enqueued == Entries(removed + [r]) + buffer[1..]
    ensures EvictedEntries(removed + [r]) == EvictedEntries(removed) + if r.how.EvictedBy? then [buffer[0]] else []
  {
    RemovedAppend(removed, r, 0);
    assert buffer == [buffer[0]] + buffer[1..];
  }

  lemma ChannelKept(s: State, s': State, t: CallId)
    requires ChannelInv(s) && OneOperation(s, s', t)
    requires EvictionReported(s, s')
    ensures ChannelInv(s')
  {
    if s'.removed != s.removed {
      HeadRemoved(s.enqueued, s.removed, s.buffer, s'.removed[|s.removed|]);
    }
  }

  lemma FastStepReports(s: State, t: CallId, s': State)
    requires LockInv(s) && t < |s.calls| && FastStep(s, t, s')
    ensures EvictionReported(s, s')
  {}

  lemma SlowStepReports(s: State, t: CallId, s': State)
    requires LockInv(s) && t < |s.calls| && SlowStep(s, t, s')
    ensures EvictionReported(s, s')
  {}

  lemma CallStepReports(s: State, t: CallId, s': State)
    requires LockInv(s) && CallStep(s, t, s')
    ensures EvictionReported(s, s')
  {
    if FastStep(s, t, s') {
      FastStepReports(s, t, s');
    } else {
      SlowStepReports(s, t, s');
    }
  }

  lemma FastStepSettles(s: State, t: CallId, s': State)
    requires t < |s.calls| && FastStep(s, t, s') && SettledInv(s, t) && t < |s'.calls|
    ensures SettledInv(s', t)
  {
    SentByAppend(s.enqueued, Entry(t, s.calls[t].item), t);
    SentByAppend(s.rejected, Entry(t, s.calls[t].item), t);
  }

  lemma FastStepBounds(s: State, t: CallId, s': State)
    requires t < |s.calls| && FastStep(s, t, s') && SlowInv(s, t) && t < |s'.calls|
    ensures SlowInv(s', t)
    ensures s'.removed == s.removed && s'.calls[t].evictions == s.calls[t].evictions
  {}

  lemma FastStepKeepsSelf(s: State, t: CallId, s': State)
    requires ChannelInv(s) && t < |s.calls| && SettledInv(s, t) && SlowInv(s, t)
    requires EvictionsBy(s.removed, t) == s.calls[t].evictions && FastStep(s, t, s')
    ensures t < |s'.calls|
    ensures SettledInv(s', t) && SlowInv(s', t) && EvictionsBy(s'.removed, t) == s'.calls[t].evictions
  {
    FastStepSettles(s, t, s');
    FastStepBounds(s, t, s');
  }

  lemma SlowStepSettles(s: State, t: CallId, s': State)
    requires t < |s.calls| && SlowStep(s, t, s') && SettledInv(s, t) && t < |s'.calls|
    ensures SettledInv(s', t)
  {
    SentByAppend(s.enqueued, Entry(t, s.calls[t].item), t);
  }

  /** One step of the slow path, as far as its counters go. */
  lemma SlowStepCounts(s: State, t: CallId, s': State)
    requires 0 < s.capacity && |s.buffer| <= s.capacity && t < |s.calls| && SlowStep(s, t, s')
    ensures t < |s'.calls| && s'.policy == s.policy && s'.capacity == s.capacity
    ensures
      var k, k' := s.calls[t], s'.calls[t];
      var n, n' := |s.enqueued|, |s'.enqueued|;
      match k.pc
      case Locking => k' == k.(pc := Recheck) && n' == n
      case Recheck =>
        || k' == k.(pc := Unlocking)
        || (k' == k.(pc := Evicting, tries := 1, base := n, evictions := 0) && n' == n)
      case Evicting =>
        && n' == n && |s'.buffer| < s.capacity
        && (k' == k.(pc := Retrying) || k' == k.(pc := Notifying, evictions := k.evictions + 1, dropped := k'.dropped))
      case Notifying => k' == k.(pc := Retrying) && n' == n && s'.buffer == s.buffer
      case Retrying =>
        || k' == k.(pc := Unlocking)
        || (|s.buffer| == s.capacity && n' == n &&
            k' == if k.tries < 2 then k.(pc := Evicting, tries := k.tries + 1) else k.(pc := GivingUp, ended := n))
      case Unlocking => k' == k.(pc := ReturnedTrue)
      case GivingUp => k' == k.(pc := Rejecting) && n' == n
      case _ => true
  {}

  lemma SlowStepBounds(s: State, t: CallId, s': State)
    requires 0 < s.capacity && |s.buffer| <= s.capacity
    requires t < |s.calls| && SlowStep(s, t, s') && SlowInv(s, t) && t < |s'.calls|
    ensures SlowInv(s', t)
  {
    SlowStepCounts(s, t, s');
  }

  /** A slow path evicts one entry at a time, and counts it. */
  lemma SlowStepRemoves(s: State, t: CallId, s': State)
    requires t < |s.calls| && SlowStep(s, t, s') && (s.calls[t].pc == Recheck ==> s.calls[t].evictions == 0)
    ensures |s'.calls| == |s.calls|
    ensures || (s'.removed == s.removed && s'.calls[t].evictions == s.calls[t].evictions)
            || (|s.buffer| > 0 && s'.removed == s.removed + [Removal(s.buffer[0], EvictedBy(t))] &&
                s'.calls[t].evictions == s.calls[t].evictions + 1)
  {}

  lemma SlowStepEvicts(s: State, t: CallId, s': State)
    requires t < |s.calls| && EvictionsBy(s.removed, t) == s.calls[t].evictions && SlowStep(s, t, s')
    requires s.calls[t].pc == Recheck ==> s.calls[t].evictions == 0
    ensures t < |s'.calls| && EvictionsBy(s'.removed, t) == s'.calls[t].evictions
  {
    SlowStepRemoves(s, t, s');
    if s'.removed != s.removed {
      RemovedAppend(s.removed, Removal(s.buffer[0], EvictedBy(t)), t);
    }
  }

  lemma SlowStepKeepsSelf(s: State, t: CallId, s': State)
    requires ChannelInv(s) && t < |s.calls| && SettledInv(s, t) && SlowInv(s, t)
    requires EvictionsBy(s.removed, t) == s.calls[t].evictions && SlowStep(s, t, s')
    ensures t < |s'.calls|
    ensures SettledInv(s', t) && SlowInv(s', t) && EvictionsBy(s'.removed, t) == s'.calls[t].evictions
  {
    SlowStepSettles(s, t, s');
    SlowStepBounds(s, t, s');
    SlowStepEvicts(s, t, s');
  }

  lemma CallStepKeepsSelf(s: State, t: CallId, s': State)
    requires ChannelInv(s) && t < |s.calls| && CallFits(s, t) && CallStep(s, t, s')
    ensures t < |s'.calls| && CallFits(s', t)
  {
    if FastStep(s, t, s') {
      FastStepKeepsSelf(s, t, s');
    } else {
      SlowStepKeepsSelf(s, t, s');
    }
  }

  lemma CallStepKeepsItems(s: State, t: CallId, s': State)
    requires OwnItems(s) && OneOperation(s, s', t) && t < |s.calls|
    requires |s'.calls| == |s.calls| && s'.calls == s.calls[t := s'.calls[t]] && s'.calls[t].item == s.calls[t].item
    ensures OwnItems(s')
  {
    assert forall u :: 0 <= u < |s.calls| ==> s'.calls[u].item == s.calls[u].item;
  }

  lemma OthersKeepAll(s: State, s': State, t: CallId)
    requires CallsInv(s) && OneOperation(s, s', t) && |s.buffer| <= s.capacity && |s'.calls| == |s.calls|
    requires forall u :: 0 <= u < |s.calls| && u != t ==> s'.calls[u] == s.calls[u]
    ensures forall u :: 0 <= u < |s.calls| && u != t ==> CallFits(s', u)
  {
    forall u | 0 <= u < |s.calls| && u != t
      ensures CallFits(s', u)
    {
      assert CallFits(s, u);
      OthersKeep(s, s', t, u);
    }
  }

  lemma AllCallsFit(s: State, t: CallId)
    requires t < |s.calls| && CallFits(s, t) && forall u :: 0 <= u < |s.calls| && u != t ==> CallFits(s, u)
    ensures CallsInv(s)
  {}

  lemma CallStepKeepsCalls(s: State, t: CallId, s': State)
    requires ChannelInv(s) && CallsInv(s) && CallStep(s, t, s')
    ensures CallsInv(s')
  {
    CallStepShape(s, t, s');
    assert CallFits(s, t);
    CallStepKeepsSelf(s, t, s');
    OthersKeepAll(s, s', t);
    AllCallsFit(s', t);
  }

  lemma CallStepKeepsInv(s: State, t: CallId, s': State)
    requires Inv(s) && CallStep(s, t, s')
    ensures Inv(s')
  {
    CallStepShape(s, t, s');
    CallStepKeepsLock(s, t, s');
    CallStepReports(s, t, s');
    ChannelKept(s, s', t);
    CallStepKeepsCalls(s, t, s');
    CallStepKeepsItems(s, t, s');
    TotalUpdate(Rejections, s.calls, t, s'.calls[t]);
    CallStepRejects(s, t, s');
  }

  lemma CallStepRejects(s: State, t: CallId, s': State)
    requires CallStep(s, t, s')
    ensures |s'.rejected| + Rejections(s.calls[t]) == |s.rejected| + Rejections(s'.calls[t])
  {}

  lemma ConsumeStepKeepsInv(s: State, s': State)
    requires Inv(s) && ConsumeStep(s, s')
    ensures Inv(s')
  {
    ChannelKept(s, s', |s.calls|);
    forall u | 0 <= u < |s'.calls|
      ensures CallFits(s', u)
    {
      assert CallFits(s, u);
      OthersKeep(s, s', |s.calls|, u);
    }
  }

  lemma CloseKeepsInv(s: State, s': State)
    requires Inv(s) && s' == s.(closed := true)
    ensures Inv(s')
  {
    forall u | 0 <= u < |s'.calls|
      ensures CallFits(s', u)
    {
      assert CallFits(s, u);
    }
  }

  lemma {:induction false} NoneSentBy(log: seq<Entry>, t: CallId)
    requires forall e :: e in log ==> e.sender < t
    ensures SentBy(log, t) == 0
  {
    if |log| > 0 {
      NoneSentBy(log[..|log| - 1], t);
    }
  }

  lemma {:induction false} NoneEvictedBy(removed: seq<Removal>, t: CallId)
    requires forall r :: r in removed && r.how.EvictedBy? ==> r.how.t < t
    ensures EvictionsBy(removed, t) == 0
  {
    if |removed| > 0 {
      NoneEvictedBy(removed[..|removed| - 1], t);
    }
  }

  lemma NewCallKeepsInv(s: State, k: Call, s': State)
    requires Inv(s) && NewCall(s, k, s')
    ensures Inv(s')
  {
    var t := |s.calls|;
    NoneSentBy(s.enqueued, t);
    NoneSentBy(s.rejected, t);
    NoneEvictedBy(s.removed, t);
    TotalAppend(Rejections, s.calls, k);
    forall u | 0 <= u < |s'.calls|
      ensures CallFits(s', u)
    {
      if u < t {
        assert CallFits(s, u);
        OthersKeep(s, s', t, u);
      }
    }
  }

  lemma NextKeepsInv(s: State, s': State)
    requires Inv(s) && Next(s, s')
    ensures Inv(s')
  {
    if t :| CallStep(s, t, s') {
      CallStepKeepsInv(s, t, s');
    } else if ConsumeStep(s, s') {
      ConsumeStepKeepsInv(s, s');
    } else if k :| NewCall(s, k, s') {
      NewCallKeepsInv(s, k, s');
    } else {
      CloseKeepsInv(s, s');
    }
  }

  lemma {:induction false} RunInv(states: seq<State>, i: nat)
    requires Run(states) && i < |states|
    ensures Inv(states[i])
  {
    if i > 0 {
      RunInv(states, i - 1);
      assert Next(states[i - 1], states[i - 1 + 1]);
      NextKeepsInv(states[i - 1], states[i]);
    }
  }

  // ---------------------------------------------------------------- the main results

  /** Conservation: everything enqueued is, in order, what has left the channel followed by what is in it. */
  lemma ChannelConserves(states: seq<State>, i: nat)
    requires Run(states) && i < |states|
    ensures states[i].enqueued == Entries(states[i].removed) + states[i].buffer
    ensures |states[i].buffer| <= states[i].capacity
  {
    RunInv(states, i);
  }

  /** A send that returned true enqueued its item once and reported nothing; false is the reverse. */
  lemma EachSendSettlesOnce(states: seq<State>, i: nat, t: CallId)
    requires Run(states) && i < |states| && t < |states[i].calls|
    ensures states[i].calls[t].pc == ReturnedTrue ==>
              SentBy(states[i].enqueued, t) == 1 && SentBy(states[i].rejected, t) == 0
    ensures states[i].calls[t].pc == ReturnedFalse ==>
              SentBy(states[i].enqueued, t) == 0 && SentBy(states[i].rejected, t) == 1
    ensures states[i].calls[t].pc == Skipped ==>
              SentBy(states[i].enqueued, t) == 0 && SentBy(states[i].rejected, t) == 0
    ensures forall e :: (e in states[i].enqueued || e in states[i].rejected) && e.sender == t ==>
              e.item == states[i].calls[t].item
  {
    RunInv(states, i);
    assert CallFits(states[i], t);
  }

  /**
    Drop notifications are exact: those for evicted entries are the entries evicted so far, in order
    (but for one eviction whose notification is still to come), and the others are one per rejected send.
   */
  lemma NotificationsAreExact(states: seq<State>, i: nat)
    requires Run(states) && i < |states|
    ensures EvictedEntries(states[i].removed) == states[i].evicted + Unreported(states[i])
    ensures |states[i].rejected| == Total(Rejections, states[i].calls)
  {
    RunInv(states, i);
  }

  /**
    DropOldest makes progress: whatever interferes, a send evicts at most two entries, and it can only
    fail if at least two other sends got through since it found the buffer full.
   */
  lemma DropOldestFailsOnlyUnderPressure(states: seq<State>, i: nat, t: CallId)
    requires Run(states) && i < |states| && t < |states[i].calls|
    ensures EvictionsBy(states[i].removed, t) <= 2
    ensures states[i].policy == DropOldest && states[i].calls[t].pc == ReturnedFalse ==>
              var k := states[i].calls[t];
              && k.base + 2 <= k.ended <= |states[i].enqueued|
              && forall e :: e in states[i].enqueued ==> e.sender != t
  {
    RunInv(states, i);
    assert CallFits(states[i], t);
    if states[i].calls[t].pc == ReturnedFalse {
      NotSent(states[i].enqueued, t);
    }
  }

  // ---------------------------------------------------------------- a send that nothing interferes with

  ghost function ItemsIn(buffer: seq<Entry>): seq<Item> {
    seq(|buffer|, i requires 0 <= i < |buffer| => buffer[i].item)
  }

  /** s' is reached from s by n steps of call t alone. */
  ghost predicate Alone(s: State, t: CallId, n: nat, s': State)
    decreases n
  {
    if n == 0 then s == s' else exists m :: CallStep(s, t, m) && Alone(m, t, n - 1, s')
  }

  lemma StepsDetermined(s: State, t: CallId, a: State, b: State)
    requires CallStep(s, t, a) && CallStep(s, t, b) && NonBlocking(s, t)
    ensures a == b
  {}

  /** The second half of a lone slow path: the eviction is reported and the freed place taken. */
  lemma LoneRetry(s: State, t: CallId) returns (s': State)
    requires |s.buffer| < s.capacity && s.sendMu == Some(t) && t < |s.calls| && s.calls[t].pc == Notifying
    requires s.calls[t].tries <= 2
    ensures Alone(s, t, 3, s') && t < |s'.calls| && s'.calls[t].pc == ReturnedTrue
    ensures s'.buffer == s.buffer + [Entry(t, s.calls[t].item)]
    ensures s'.evicted == s.evicted + [s.calls[t].dropped] && s'.rejected == s.rejected
  {
    var k := s.calls[t];
    var s1 := Goto(s, t, k.(pc := Retrying)).(evicted := s.evicted + [k.dropped]);
    var s2 := Goto(Enqueue(s1, Entry(t, k.item)), t, k.(pc := Unlocking));
    s' := Goto(s2, t, k.(pc := ReturnedTrue)).(sendMu := None);
    assert CallStep(s2, t, s') && Alone(s2, t, 1, s');
    assert CallStep(s1, t, s2) && Alone(s1, t, 2, s');
    assert CallStep(s, t, s1);
  }

  /** With the lock taken and the buffer full, a lone DropOldest send evicts one entry and gets through. */
  lemma LoneEviction(s: State, t: CallId) returns (s': State)
    requires 0 < |s.buffer| == s.capacity && s.sendMu == Some(t) && t < |s.calls| && s.calls[t].pc == Recheck
    ensures Alone(s, t, 5, s') && t < |s'.calls| && s'.calls[t].pc == ReturnedTrue
    ensures s'.buffer == s.buffer[1..] + [Entry(t, s.calls[t].item)]
    ensures s'.evicted == s.evicted + [s.buffer[0]] && s'.rejected == s.rejected
  {
    var k1 := s.calls[t].(pc := Evicting, tries := 1, base := |s.enqueued|, evictions := 0);
    var s1 := Goto(s, t, k1);
    var s2 := Goto(Remove(s1, EvictedBy(t)), t, k1.(pc := Notifying, evictions := 1, dropped := s.buffer[0]));
    s' := LoneRetry(s2, t);
    assert CallStep(s1, t, s2) && Alone(s1, t, 4, s');
    assert CallStep(s, t, s1);
  }

  /** From the point where the lock is taken. */
  lemma LoneSlowPath(s: State, t: CallId) returns (n: nat, s': State)
    requires 0 < |s.buffer| == s.capacity && s.sendMu == None && t < |s.calls| && s.calls[t].pc == Locking
    ensures Alone(s, t, n, s') && t < |s'.calls| && s'.calls[t].pc == ReturnedTrue
    ensures s'.buffer == s.buffer[1..] + [Entry(t, s.calls[t].item)]
    ensures s'.evicted == s.evicted + [s.buffer[0]] && s'.rejected == s.rejected
  {
    var s1 := Goto(s, t, s.calls[t].(pc := Recheck)).(sendMu := Some(t));
    s' := LoneEviction(s1, t);
    n := 6;
    assert CallStep(s, t, s1);
  }

  /** The interleaved protocol has a run without interference that does what the sequential send does. */
  lemma SomeLoneSendFollowsPolicy(s: State, t: CallId) returns (n: nat, s': State)
    requires 0 < s.capacity && |s.buffer| <= s.capacity && !s.closed && s.sendMu == None
    requires t < |s.calls| && s.calls[t].pc == Start && !s.calls[t].withContext
    ensures Alone(s, t, n, s') && t < |s'.calls|
    ensures s'.calls[t].pc == if |s.buffer| < s.capacity || s.policy == DropOldest then ReturnedTrue else ReturnedFalse
    ensures ItemsIn(s'.buffer) == AfterSend(s.policy, s.capacity, ItemsIn(s.buffer), s.calls[t].item)
    ensures s'.evicted == s.evicted + (if |s.buffer| == s.capacity && s.policy == DropOldest then [s.buffer[0]] else [])
    ensures s'.rejected == s.rejected + (if |s.buffer| == s.capacity && s.policy == DropNewest
                                         then [Entry(t, s.calls[t].item)] else [])
  {
    var k := s.calls[t];
    var s1 := Goto(s, t, k.(pc := Fast));
    if |s.buffer| < s.capacity {
      s' := Goto(Enqueue(s1, Entry(t, k.item)), t, k.(pc := ReturnedTrue));
      n := 2;
      assert CallStep(s1, t, s') && Alone(s1, t, 1, s');
    } else if s.policy == DropNewest {
      var s2 := Goto(s1, t, k.(pc := Rejecting));
      s' := Goto(s2, t, k.(pc := ReturnedFalse)).(rejected := s.rejected + [Entry(t, k.item)]);
      n := 3;
      assert CallStep(s2, t, s') && Alone(s2, t, 1, s');
      assert CallStep(s1, t, s2) && Alone(s1, t, 2, s');
    } else {
      var s2 := Goto(s1, t, k.(pc := Locking));
      n, s' := LoneSlowPath(s2, t);
      assert CallStep(s1, t, s2) && Alone(s1, t, n + 1, s');
      n := n + 2;
    }
    assert CallStep(s, t, s1);
  }

  ghost predicate HasReturned(s: State, t: CallId) {
    t < |s.calls| &&
    match s.calls[t].pc
    case ReturnedTrue | ReturnedFalse | Skipped => true
    case _ => false
  }

  /** Call t is a send that never waits for room in the buffer. */
  ghost predicate NonBlocking(s: State, t: CallId) {
    t < |s.calls| && !s.calls[t].withContext && s.calls[t].pc != Blocking
  }

  lemma StepKeepsNonBlocking(s: State, t: CallId, s': State)
    requires NonBlocking(s, t) && CallStep(s, t, s')
    ensures NonBlocking(s', t)
  {}

  lemma ReturnedTakesNoStep(s: State, t: CallId, s': State)
    requires HasReturned(s, t)
    ensures !CallStep(s, t, s')
  {}

  /** Left alone, a send has one way to return. */
  lemma {:induction false} LoneRunsAgree(s: State, t: CallId, n: nat, a: State, m: nat, b: State)
    requires NonBlocking(s, t) && Alone(s, t, n, a) && Alone(s, t, m, b) && HasReturned(a, t) && HasReturned(b, t)
    ensures n == m && a == b
    decreases n
  {
    if n == 0 || m == 0 {
      if n > 0 {
        var c :| CallStep(s, t, c) && Alone(c, t, n - 1, a);
        ReturnedTakesNoStep(s, t, c);
      } else if m > 0 {
        var c :| CallStep(s, t, c) && Alone(c, t, m - 1, b);
        ReturnedTakesNoStep(s, t, c);
      }
    } else {
      var c :| CallStep(s, t, c) && Alone(c, t, n - 1, a);
      var d :| CallStep(s, t, d) && Alone(d, t, m - 1, b);
      StepsDetermined(s, t, c, d);
      StepKeepsNonBlocking(s, t, c);
      LoneRunsAgree(c, t, n - 1, a, m - 1, b);
    }
  }

  /**
    However it is run without interference, a send returns as the policy says, leaves the policy's buffer and
    reports as dropped what the policy drops: the oldest entry, or its own.
   */
  lemma LoneSendFollowsPolicy(s: State, t: CallId, n: nat, s': State)
    requires 0 < s.capacity && |s.buffer| <= s.capacity && !s.closed && s.sendMu == None
    requires t < |s.calls| && s.calls[t].pc == Start && !s.calls[t].withContext
    requires Alone(s, t, n, s') && HasReturned(s', t)
    ensures s'.calls[t].pc == if |s.buffer| < s.capacity || s.policy == DropOldest then ReturnedTrue else ReturnedFalse
    ensures ItemsIn(s'.buffer) == AfterSend(s.policy, s.capacity, ItemsIn(s.buffer), s.calls[t].item)
    ensures s'.evicted == s.evicted + (if |s.buffer| == s.capacity && s.policy == DropOldest then [s.buffer[0]] else [])
    ensures s'.rejected == s.rejected + (if |s.buffer| == s.capacity && s.policy == DropNewest
                                         then [Entry(t, s.calls[t].item)] else [])
  {
    var m, b := SomeLoneSendFollowsPolicy(s, t);
    LoneRunsAgree(s, t, n, s', m, b);
  }

  /** On a closed client a send without a context does nothing, and says so. */
  lemma LoneSendSkipsClosed(s: State, t: CallId, n: nat, s': State)
    requires s.closed && t < |s.calls| && s.calls[t].pc == Start && !s.calls[t].withContext
    requires Alone(s, t, n, s') && HasReturned(s', t)
    ensures s' == Goto(s, t, s.calls[t].(pc := Skipped))
  {
    var b := Goto(s, t, s.calls[t].(pc := Skipped));
    assert CallStep(s, t, b) && Alone(b, t, 0, b) && Alone(s, t, 1, b);
    LoneRunsAgree(s, t, n, s', 1, b);
  }

  /**
    Left alone, a send with a context enqueues its item if there is room and it does not give up, and otherwise
    does nothing; it never drops anything.
   */
  lemma LoneContextSend(s: State, t: CallId, n: nat, s': State)
    requires t < |s.calls| && s.calls[t].pc == Start && s.calls[t].withContext
    requires Alone(s, t, n, s') && HasReturned(s', t)
    ensures || s' == Goto(s, t, s.calls[t].(pc := Skipped))
            || (&& |s.buffer| < s.capacity
                && s' == Goto(Enqueue(s, Entry(t, s.calls[t].item)), t, s.calls[t].(pc := ReturnedTrue)))
  {
    var m :| CallStep(s, t, m) && Alone(m, t, n - 1, s');
    ContextSendStarts(s, t, m);
    if m.calls[t].pc == Skipped {
      NoMore(m, t, n - 1, s');
    } else {
      var m' :| CallStep(m, t, m') && Alone(m', t, n - 2, s');
      ContextSendEnds(m, t, m');
      NoMore(m', t, n - 2, s');
    }
  }

  lemma ContextSendStarts(s: State, t: CallId, m: State)
    requires t < |s.calls| && s.calls[t].pc == Start && s.calls[t].withContext && CallStep(s, t, m)
    ensures m == Goto(s, t, s.calls[t].(pc := Skipped)) || m == Goto(s, t, s.calls[t].(pc := Blocking))
  {}

  lemma ContextSendEnds(s: State, t: CallId, m: State)
    requires t < |s.calls| && s.calls[t].pc == Blocking && CallStep(s, t, m)
    ensures || m == Goto(s, t, s.calls[t].(pc := Skipped))
            || (&& |s.buffer| < s.capacity
                && m == Goto(Enqueue(s, Entry(t, s.calls[t].item)), t, s.calls[t].(pc := ReturnedTrue)))
  {}

  lemma NoMore(s: State, t: CallId, n: nat, s': State)
    requires HasReturned(s, t) && Alone(s, t, n, s')
    ensures s == s'
  {
    if n > 0 {
      var m :| CallStep(s, t, m) && Alone(m, t, n - 1, s');
      ReturnedTakesNoStep(s, t, m);
    }
  }

  /** And it can: with room in the buffer there is a run in which it gets through. */
  lemma ContextSendCanGetThrough(s: State, t: CallId) returns (s': State)
    requires t < |s.calls| && s.calls[t].pc == Start && s.calls[t].withContext && |s.buffer| < s.capacity
    ensures Alone(s, t, 2, s') && t < |s'.calls| && s'.calls[t].pc == ReturnedTrue
    ensures s'.buffer == s.buffer + [Entry(t, s.calls[t].item)]
  {
    var m := Goto(s, t, s.calls[t].(pc := Blocking));
    s' := Goto(Enqueue(m, Entry(t, s.calls[t].item)), t, m.calls[t].(pc := ReturnedTrue));
    assert CallStep(m, t, s') && Alone(s', t, 0, s') && Alone(m, t, 1, s');
    assert CallStep(s, t, m);
  }
}
