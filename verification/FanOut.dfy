/**
  parallelSend and sendWithContext over the shared worker pool: any number of broadcasts cut their
  client lists into batches and submit them, workers run batches, and shutdown may begin at any
  point. With a context, an attempt may fail once that context is cancelled.
 */
module FanOut {
  import opened Totals

  type CallerId = nat

  /** The state of one batch of one broadcast; the number is how many of its clients were served. */
  datatype Batch =
    | Unsent
    | Queued
    | Running(served: nat)
    | Ending(served: nat)   // deferred wg.Done outstanding
    | Finished(served: nat)
    | Inline                // left to the caller after the pool refused a batch

  datatype Pc =
    | Submitting  // about to check whether the pool is stopped
    | Sending     // check passed, sending batch `next` to the channel
    | Undoing     // pool refused batch `next`: one wg.Done for each batch not sent
    | Inlining    // serving the remaining clients itself
    | Waiting     // wg.Wait
    | Returned

  /**
    One broadcast. `cuts` are the batch boundaries: batch b is clients cuts[b] up to cuts[b + 1].
    `handed` counts how often each client was handed the item, `runs` how often each batch was run.
   */
  datatype Caller = Caller(
    cuts: seq<nat>, withContext: bool, cancelled: bool,
    pc: Pc, next: nat, undone: nat, pos: nat,
    wg: int, err: bool, batches: seq<Batch>, handed: seq<nat>, runs: seq<nat>)

  datatype Task = Task(caller: CallerId, batch: nat)

  datatype State = State(callers: seq<Caller>, queue: seq<Task>, workers: nat, stopped: bool, closed: bool)

  /** The task channel's capacity. */
  ghost function Capacity(s: State): nat {
    s.workers * 4
  }

  ghost predicate InWorker(b: Batch) {
    b.Running? || b.Ending?
  }

  ghost function WorkersOn(): Caller -> nat {
    (c: Caller) => Total((b: Batch) => if InWorker(b) then 1 else 0, c.batches)
  }

  /** The workers that are running a batch. */
  ghost function Busy(s: State): nat {
    Total(WorkersOn(), s.callers)
  }

  /** Boundaries of at least one batch, in order, from the first client to the last. */
  ghost predicate Partition(cuts: seq<nat>, n: nat) {
    && |cuts| > 1 && cuts[0] == 0 && cuts[|cuts| - 1] == n
    && forall i, j :: 0 <= i <= j < |cuts| ==> cuts[i] <= cuts[j]
  }

  ghost function Size(c: Caller): nat
    requires |c.cuts| > 0
  {
    c.cuts[|c.cuts| - 1]
  }

  ghost function NumBatches(c: Caller): int {
    |c.cuts| - 1
  }

  ghost predicate Init(s: State) {
    s.callers == [] && s.queue == [] && s.workers > 0 && !s.stopped && !s.closed
  }

  ghost predicate Starting(c: Caller) {
    && |c.cuts| > 0 && Partition(c.cuts, Size(c))
    && c.pc == Submitting && c.next == 0 && c.undone == 0 && c.pos == 0 && c.wg == NumBatches(c) && !c.err
    && c.batches == seq(|c.cuts| - 1, _ => Unsent)
    && c.handed == seq(Size(c), _ => 0) && c.runs == seq(|c.cuts| - 1, _ => 0)
  }

  ghost predicate NewBroadcast(s: State, c: Caller, s': State) {
    Starting(c) && s' == s.(callers := s.callers + [c])
  }

  ghost function Hand(c: Caller, p: nat): Caller
    requires p < |c.handed|
  {
    c.(handed := c.handed[p := c.handed[p] + 1])
  }

  /** The steps of the broadcasting goroutine that involve only itself. */
  ghost predicate LocalMove(c: Caller, stopped: bool, closed: bool, c': Caller) {
    match c.pc
    case Submitting =>
      if c.next >= NumBatches(c) then c' == c.(pc := Waiting)
      else if stopped then c' == c.(pc := Undoing, undone := c.next)
      else c' == c.(pc := Sending)
    case Sending =>
      closed && c' == c.(pc := Undoing, undone := c.next)  // the panic of the send is recovered
    case Undoing =>
      if c.undone < |c.batches| then
        c' == c.(undone := c.undone + 1, wg := c.wg - 1, batches := c.batches[c.undone := Inline])
      else
        c.next < |c.cuts| && c' == c.(pc := Inlining, pos := c.cuts[c.next])
    case Inlining =>
      if c.pos >= |c.handed| then c' == c.(pc := Waiting)
      else
        || c' == Hand(c, c.pos).(pos := c.pos + 1)
        || (c.withContext && c.cancelled && c' == c.(pc := Waiting, err := true))
    case Waiting =>
      c.wg == 0 && c' == c.(pc := Returned)
    case Returned => false
  }

  /** One step of the worker running batch b of broadcast c. */
  ghost predicate WorkerMove(c: Caller, b: nat, c': Caller) {
    b < |c.batches| && b + 1 < |c.cuts| &&
    match c.batches[b]
    case Running(k) =>
      var p := c.cuts[b] + k;
      if p >= c.cuts[b + 1] then c' == c.(batches := c.batches[b := Ending(k)])
      else
        || (p < |c.handed| && c' == Hand(c, p).(batches := c.batches[b := Running(k + 1)]))
        || (c.withContext && c.cancelled && c' == c.(batches := c.batches[b := Ending(k)], err := true))
    case Ending(k) =>
      c' == c.(batches := c.batches[b := Finished(k)], wg := c.wg - 1)
    case _ => false
  }

  /** The channel send of submit. */
  ghost predicate EnqueueStep(s: State, i: CallerId, s': State) {
    i < |s.callers| &&
    var c := s.callers[i];
    && c.pc == Sending && c.next < |c.batches| && !s.closed && |s.queue| < Capacity(s)
    && s' == s.(queue := s.queue + [Task(i, c.next)],
                callers := s.callers[i := c.(pc := Submitting, next := c.next + 1,
                                             batches := c.batches[c.next := Queued])])
  }

  /** A worker that is not running a batch receives the oldest task. */
  ghost predicate DequeueStep(s: State, s': State) {
    |s.queue| > 0 && Busy(s) < s.workers &&
    var t := s.queue[0];
    && t.caller < |s.callers| && t.batch < |s.callers[t.caller].batches| && t.batch < |s.callers[t.caller].runs|
    && var c := s.callers[t.caller];
       s' == s.(queue := s.queue[1..],
                callers := s.callers[t.caller := c.(batches := c.batches[t.batch := Running(0)],
                                                    runs := c.runs[t.batch := c.runs[t.batch] + 1])])
  }

  ghost predicate CallerStep(s: State, i: CallerId, s': State) {
    && i < |s.callers| && i < |s'.callers|
    && LocalMove(s.callers[i], s.stopped, s.closed, s'.callers[i])
    && s' == s.(callers := s.callers[i := s'.callers[i]])
  }

  ghost predicate WorkerStep(s: State, i: CallerId, b: nat, s': State) {
    && i < |s.callers| && i < |s'.callers|
    && WorkerMove(s.callers[i], b, s'.callers[i])
    && s' == s.(callers := s.callers[i := s'.callers[i]])
  }

  ghost predicate CancelStep(s: State, i: CallerId, s': State) {
    i < |s.callers| && s' == s.(callers := s.callers[i := s.callers[i].(cancelled := true)])
  }

  /** shutdown sets the flag, then closes the channel. */
  ghost predicate ShutdownStep(s: State, s': State) {
    s' == s.(stopped := true) || (s.stopped && s' == s.(closed := true))
  }

  ghost predicate Next(s: State, s': State) {
    || (exists i :: CallerStep(s, i, s'))
    || (exists i, b :: WorkerStep(s, i, b, s'))
    || (exists i :: EnqueueStep(s, i, s'))
    || (exists i :: CancelStep(s, i, s'))
    || (exists c :: NewBroadcast(s, c, s'))
    || DequeueStep(s, s')
    || ShutdownStep(s, s')
  }

  ghost predicate Run(states: seq<State>) {
    && |states| > 0 && Init(states[0])
    && forall i :: 0 <= i < |states| - 1 ==> Next(states[i], states[i + 1])
  }

  // ---------------------------------------------------------------- the sequential parts

  /** The batch boundaries that the submit loop computes, for more clients than fit one batch. */
  method CutBatches(n: nat, batchSize: nat) returns (cuts: seq<nat>)
    requires 0 < batchSize < n
    ensures Partition(cuts, n)
    ensures |cuts| - 1 == (n + batchSize - 1) / batchSize
    ensures forall i :: 0 <= i < |cuts| - 1 ==> 0 < cuts[i + 1] - cuts[i] <= batchSize
    ensures forall i :: 0 <= i < |cuts| - 2 ==> cuts[i + 1] - cuts[i] == batchSize
  {
    var numBatches := (n + batchSize - 1) / batchSize;
    EnoughBatches(n, batchSize, numBatches);
    cuts := [0];
    for i := 0 to numBatches
      invariant |cuts| == i + 1 && cuts[0] == 0
      invariant cuts[i] == if i < numBatches then i * batchSize else n
      invariant forall j :: 0 <= j < i ==> 0 < cuts[j + 1] - cuts[j] <= batchSize
      invariant forall j :: 0 <= j < i && j < numBatches - 1 ==> cuts[j + 1] - cuts[j] == batchSize
      invariant forall j, k :: 0 <= j <= k <= i ==> cuts[j] <= cuts[k]
    {
      var start := i * batchSize;
      var end := if start + batchSize < n then start + batchSize else n;
      BatchEnd(n, batchSize, numBatches, i);
      cuts := cuts + [end];
    }
  }

  lemma EnoughBatches(n: nat, batchSize: nat, numBatches: nat)
    requires 0 < batchSize < n && numBatches == (n + batchSize - 1) / batchSize
    ensures (numBatches - 1) * batchSize < n <= numBatches * batchSize && numBatches > 1
  {}

  lemma BatchEnd(n: nat, batchSize: nat, numBatches: nat, i: nat)
    requires 0 < batchSize && (numBatches - 1) * batchSize < n <= numBatches * batchSize && i < numBatches
    ensures i * batchSize < n
    ensures (i + 1) * batchSize == i * batchSize + batchSize
    ensures i < numBatches - 1 ==> (i + 1) * batchSize < n
  {
    assert (numBatches - 1 - i) * batchSize >= 0;
    if i < numBatches - 1 {
      assert (numBatches - 2 - i) * batchSize >= 0;
    }
  }

  /**
    The serial path of sendWithContext: `ok` gives the outcome of each attempt. It returns nil
    exactly when every client was handed the item, and otherwise the served clients form a prefix.
   */
  method SendSerial(n: nat, ok: nat -> bool) returns (err: bool, served: nat)
    ensures err <==> exists p :: 0 <= p < n && !ok(p)
    ensures !err <==> served == n
    ensures served <= n && (forall p :: 0 <= p < served ==> ok(p)) && (served < n ==> !ok(served))
  {
    for p := 0 to n
      invariant forall q :: 0 <= q < p ==> ok(q)
    {
      if !ok(p) {
        return true, p;
      }
    }
    err, served := false, n;
  }
}
