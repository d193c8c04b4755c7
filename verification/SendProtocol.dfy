/**
  The send path of one client under interference: any number of trySendErr calls and blocking
  context sends, the write pump taking messages, and the unregister drain, one channel operation or
  notification per step.
 */
module SendProtocol {
  import opened Options
  import opened Messages
  import opened SendBuffer

  type CallId = nat

  /** An item in the channel, with the call that offered it. */
  datatype Entry = Entry(sender: CallId, item: Item)

  /** How an entry left the channel. */
  datatype How = Taken | EvictedBy(t: CallId) | Discarded

  datatype Removal = Removal(entry: Entry, how: How)

  datatype Pc =
    | Start          // closed check
    | Fast           // non-blocking send
    | Locking        // buffer was full under DropOldest: wait for sendMu
    | Recheck        // sendMu held
    | Evicting       // sendMu held, attempt `tries`
    | Notifying      // sendMu held, evicted entry still to be reported
    | Retrying       // sendMu held, non-blocking send of attempt `tries`
    | Unlocking      // sendMu held, enqueued
    | GivingUp       // sendMu held, both attempts failed
    | Rejecting      // own item still to be reported as dropped
    | Blocking       // context send: waiting for space or cancellation
    | ReturnedTrue
    | ReturnedFalse
    | Skipped        // the client was closed, or the context was cancelled

  /**
    One call. `base` is how many entries had been enqueued when its slow path found the buffer full,
    `ended` when it gave up; `tries` counts attempts, `evictions` the entries it evicted, and
    `dropped` is the last of them.
   */
  datatype Call = Call(
    pc: Pc, withContext: bool, item: Item, tries: nat, base: nat, ended: nat, evictions: nat, dropped: Entry)

  datatype State = State(
    policy: DropPolicy,
    capacity: nat,
    buffer: seq<Entry>,
    closed: bool,
    sendMu: Option<CallId>,
    calls: seq<Call>,
    enqueued: seq<Entry>,      // history of the channel
    removed: seq<Removal>,
    rejected: seq<Entry>,      // notifySendDropped for a call's own item
    evicted: seq<Entry>)       // notifySendDropped for an evicted entry

  ghost predicate Init(s: State) {
    && s.capacity > 0 && s.buffer == [] && !s.closed && s.sendMu == None && s.calls == []
    && s.enqueued == [] && s.removed == [] && s.rejected == [] && s.evicted == []
  }

  ghost function Goto(s: State, t: CallId, k: Call): State
    requires t < |s.calls|
  {
    s.(calls := s.calls[t := k])
  }

  ghost function Enqueue(s: State, e: Entry): State {
    s.(buffer := s.buffer + [e], enqueued := s.enqueued + [e])
  }

  ghost function Remove(s: State, how: How): State
    requires |s.buffer| > 0
  {
    s.(buffer := s.buffer[1..], removed := s.removed + [Removal(s.buffer[0], how)])
  }

  /** A non-blocking send by call t that continues at `sent` or at `full`. */
  ghost function Offer(s: State, t: CallId, sent: Call, full: Call): State
    requires t < |s.calls|
  {
    if |s.buffer| < s.capacity then Goto(Enqueue(s, Entry(t, s.calls[t].item)), t, sent) else Goto(s, t, full)
  }

  ghost predicate FastStep(s: State, t: CallId, s': State)
    requires t < |s.calls|
  {
    var k := s.calls[t];
    match k.pc
    case Start =>
      || s' == Goto(s, t, k.(pc := if s.closed then Skipped else if k.withContext then Blocking else Fast))
      || (k.withContext && s' == Goto(s, t, k.(pc := Blocking)))  // the pool's context sends do not check closed
    case Fast =>
      s' == Offer(s, t, k.(pc := ReturnedTrue), k.(pc := if s.policy == DropOldest then Locking else Rejecting))
    case Rejecting =>
      s' == Goto(s, t, k.(pc := ReturnedFalse)).(rejected := s.rejected + [Entry(t, k.item)])
    case Blocking =>
      || (|s.buffer| < s.capacity && s' == Goto(Enqueue(s, Entry(t, k.item)), t, k.(pc := ReturnedTrue)))
      || s' == Goto(s, t, k.(pc := Skipped))
    case _ => false
  }

  ghost predicate SlowStep(s: State, t: CallId, s': State)
    requires t < |s.calls|
  {
    var k := s.calls[t];
    match k.pc
    case Locking =>
      s.sendMu.None? && s' == Goto(s, t, k.(pc := Recheck)).(sendMu := Some(t))
    case Recheck =>
      s' == Offer(s, t, k.(pc := Unlocking), k.(pc := Evicting, tries := 1, base := |s.enqueued|, evictions := 0))
    case Evicting =>
      if |s.buffer| > 0 then
        s' == Goto(Remove(s, EvictedBy(t)), t,
                   k.(pc := Notifying, evictions := k.evictions + 1, dropped := s.buffer[0]))
      else s' == Goto(s, t, k.(pc := Retrying))
    case Notifying =>
      s' == Goto(s, t, k.(pc := Retrying)).(evicted := s.evicted + [k.dropped])
    case Retrying =>
      s' == Offer(s, t, k.(pc := Unlocking),
                  if k.tries < 2 then k.(pc := Evicting, tries := k.tries + 1)
                  else k.(pc := GivingUp, ended := |s.enqueued|))
    case Unlocking =>
      s' == Goto(s, t, k.(pc := ReturnedTrue)).(sendMu := None)
    case GivingUp =>
      s' == Goto(s, t, k.(pc := Rejecting)).(sendMu := None)
    case _ => false
  }

  ghost predicate CallStep(s: State, t: CallId, s': State) {
    t < |s.calls| && (FastStep(s, t, s') || SlowStep(s, t, s'))
  }

  /** The write pump takes a message; once the client is closed, the unregister drain discards them. */
  ghost predicate ConsumeStep(s: State, s': State) {
    |s.buffer| > 0 && (s' == Remove(s, Taken) || (s.closed && s' == Remove(s, Discarded)))
  }

  ghost predicate NewCall(s: State, k: Call, s': State) {
    k == Call(Start, k.withContext, k.item, 0, 0, 0, 0, k.dropped) && s' == s.(calls := s.calls + [k])
  }

  ghost predicate Next(s: State, s': State) {
    || (exists t :: CallStep(s, t, s'))
    || ConsumeStep(s, s')
    || s' == s.(closed := true)
    || (exists k :: NewCall(s, k, s'))
  }

  ghost predicate Run(states: seq<State>) {
    && |states| > 0 && Init(states[0])
    && forall i :: 0 <= i < |states| - 1 ==> Next(states[i], states[i + 1])
  }
}
