/**
  No broadcast hangs: its WaitGroup always reaches zero, because whatever it still waits for can move,
  also after shutdown, and broadcasts and workers can only move boundedly often.
 */
module FanOutProgress {
  import opened Totals
  import opened FanOut
  import opened FanOutOnce

  /** The steps of the broadcasts already made and of the workers on them. */
  ghost predicate Works(s: State, s': State) {
    || (exists i :: CallerStep(s, i, s'))
    || (exists i, b :: WorkerStep(s, i, b, s'))
    || (exists i :: EnqueueStep(s, i, s'))
    || DequeueStep(s, s')
  }

  lemma {:induction false} RunHasWorkers(states: seq<State>, i: nat)
    requires Run(states) && i < |states|
    ensures states[i].workers > 0
  {
    if i > 0 {
      RunHasWorkers(states, i - 1);
      assert Next(states[i - 1], states[i - 1 + 1]);
    }
  }

  // ---------------------------------------------------------------- something can move

  /** A worker that runs a batch can take its next step. */
  lemma WorkerCanMove(s: State, i: CallerId, b: nat) returns (s': State)
    requires Inv(s) && i < |s.callers| && b < |s.callers[i].batches| && InWorker(s.callers[i].batches[b])
    ensures WorkerStep(s, i, b, s')
  {
    var c := s.callers[i];
    assert BatchInv(c, b);
    var c' := c;
    match c.batches[b] {
      case Running(k) =>
        var p := c.cuts[b] + k;
        if p >= c.cuts[b + 1] {
          c' := c.(batches := c.batches[b := Ending(k)]);
        } else {
          assert c.cuts[b + 1] <= Size(c);
          c' := Hand(c, p).(batches := c.batches[b := Running(k + 1)]);
        }
      case Ending(k) =>
        c' := c.(batches := c.batches[b := Finished(k)], wg := c.wg - 1);
    }
    s' := s.(callers := s.callers[i := c']);
  }

  lemma FreeWorkerCanMove(s: State) returns (s': State)
    requires Inv(s) && |s.queue| > 0 && Busy(s) < s.workers
    ensures DequeueStep(s, s')
  {
    var t := s.queue[0];
    assert Waits(s, t.caller, t.batch);
    var c := s.callers[t.caller];
    assert Shape(c);
    s' := s.(queue := s.queue[1..],
             callers := s.callers[t.caller := c.(batches := c.batches[t.batch := Running(0)],
                                                 runs := c.runs[t.batch := c.runs[t.batch] + 1])]);
  }

  /** If not all workers are free, one of them is running some batch. */
  lemma BusyWorker(s: State) returns (i: CallerId, b: nat)
    requires Busy(s) > 0
    ensures i < |s.callers| && b < |s.callers[i].batches| && InWorker(s.callers[i].batches[b])
  {
    TotalIsZero(WorkersOn(), s.callers);
    i :| 0 <= i < |s.callers| && WorkersOn()(s.callers[i]) != 0;
    TotalIsZero((b: Batch) => if InWorker(b) then 1 else 0, s.callers[i].batches);
    b :| 0 <= b < |s.callers[i].batches| && InWorker(s.callers[i].batches[b]);
  }

  /** With a task in the channel, a free worker can take it, or a busy one can move. */
  lemma QueueCanMove(s: State) returns (s': State)
    requires Inv(s) && |s.queue| > 0 && s.workers > 0
    ensures Works(s, s')
  {
    if Busy(s) < s.workers {
      s' := FreeWorkerCanMove(s);
    } else {
      var i, b := BusyWorker(s);
      s' := WorkerCanMove(s, i, b);
    }
  }

  /**
    A broadcast that waits on its WaitGroup can return, or the counter stands for a batch that is in the
    channel or with a worker.
   */
  lemma WaitingIsOwed(c: Caller) returns (b: nat)
    requires CallerInv(c) && c.pc == Waiting && c.wg != 0
    ensures b < |c.batches| && (c.batches[b] == Queued || InWorker(c.batches[b]))
  {
    TotalIsZero(Outstanding, c.batches);
    b :| 0 <= b < |c.batches| && Outstanding(c.batches[b]) != 0;
  }

  lemma WaitingCanMove(s: State, i: CallerId) returns (s': State)
    requires Inv(s) && s.workers > 0 && i < |s.callers| && s.callers[i].pc == Waiting
    ensures Works(s, s')
  {
    var c := s.callers[i];
    if c.wg == 0 {
      s' := s.(callers := s.callers[i := c.(pc := Returned)]);
      assert CallerStep(s, i, s');
    } else {
      var b := WaitingIsOwed(c);
      if c.batches[b] == Queued {
        assert Waits(s, i, b);
        s' := QueueCanMove(s);
      } else {
        s' := WorkerCanMove(s, i, b);
        assert WorkerStep(s, i, b, s');
      }
    }
  }

  lemma SendingCanMove(s: State, i: CallerId) returns (s': State)
    requires Inv(s) && s.workers > 0 && i < |s.callers| && s.callers[i].pc == Sending
    ensures Works(s, s')
  {
    var c := s.callers[i];
    if s.closed {
      s' := s.(callers := s.callers[i := c.(pc := Undoing, undone := c.next)]);
      assert CallerStep(s, i, s');
    } else if |s.queue| < Capacity(s) {
      s' := s.(queue := s.queue + [Task(i, c.next)],
               callers := s.callers[i := c.(pc := Submitting, next := c.next + 1,
                                            batches := c.batches[c.next := Queued])]);
      assert EnqueueStep(s, i, s');
    } else {
      s' := QueueCanMove(s);
    }
  }

  lemma InliningCanMove(s: State, i: CallerId) returns (s': State)
    requires Inv(s) && i < |s.callers|
    requires s.callers[i].pc == Submitting || s.callers[i].pc == Undoing || s.callers[i].pc == Inlining
    ensures Works(s, s')
  {
    var c := s.callers[i];
    var c' := c;
    match c.pc {
      case Submitting =>
        c' := if c.next >= NumBatches(c) then c.(pc := Waiting)
              else if s.stopped then c.(pc := Undoing, undone := c.next)
              else c.(pc := Sending);
      case Undoing =>
        c' := if c.undone < |c.batches| then
                c.(undone := c.undone + 1, wg := c.wg - 1, batches := c.batches[c.undone := Inline])
              else c.(pc := Inlining, pos := c.cuts[c.next]);
      case Inlining =>
        c' := if c.pos >= |c.handed| then c.(pc := Waiting) else Hand(c, c.pos).(pos := c.pos + 1);
    }
    s' := s.(callers := s.callers[i := c']);
    assert CallerStep(s, i, s');
  }

  /** No hang: while a broadcast has not returned, it, a worker or a free worker with a task can move. */
  lemma SomethingCanMove(states: seq<State>, n: nat, i: CallerId) returns (s': State)
    requires Run(states) && n < |states| && i < |states[n].callers| && states[n].callers[i].pc != Returned
    ensures Works(states[n], s')
  {
    RunInv(states, n);
    RunHasWorkers(states, n);
    s' := CallerCanMove(states[n], i);
  }

  lemma CallerCanMove(s: State, i: CallerId) returns (s': State)
    requires Inv(s) && s.workers > 0 && i < |s.callers| && s.callers[i].pc != Returned
    ensures Works(s, s')
  {
    match s.callers[i].pc
    case Waiting => s' := WaitingCanMove(s, i);
    case Sending => s' := SendingCanMove(s, i);
    case _ => s' := InliningCanMove(s, i);
  }

  // ---------------------------------------------------------------- and only boundedly often

  ghost function BatchWork(b: Batch): nat {
    match b
    case Unsent => 4
    case Queued => 3
    case Running(_) => 2
    case Ending(_) => 1
    case Finished(_) => 0
    case Inline => 0
  }

  ghost function Unhanded(n: nat): nat {
    if n == 0 then 1 else 0
  }

  /** What the broadcasting goroutine itself has left to do, apart from handing out the item. */
  ghost function OwnWork(c: Caller): nat {
    var b := |c.batches|;
    match c.pc
    case Submitting => 3 * (if c.next < b then b - c.next else 0) + 5
    case Sending => 3 * (if c.next < b then b - c.next else 0) + 4
    case Undoing => (if c.undone < b then b - c.undone else 0) + 3
    case Inlining => 2
    case Waiting => 1
    case Returned => 0
  }

  ghost function CallerWork(): Caller -> nat {
    (c: Caller) => OwnWork(c) + Total(BatchWork, c.batches) + Total(Unhanded, c.handed)
  }

  ghost function Work(s: State): nat {
    Total(CallerWork(), s.callers)
  }

  lemma HandingShrinks(c: Caller, p: nat)
    requires p < |c.handed| && c.handed[p] == 0
    ensures Total(Unhanded, Hand(c, p).handed) < Total(Unhanded, c.handed)
  {
    TotalUpdate(Unhanded, c.handed, p, 1);
  }

  /** The next client of the inline part has not been handed the item yet. */
  lemma InlineIsUnhanded(c: Caller)
    requires CallerInv(c) && c.pc == Inlining && c.pos < |c.handed|
    ensures c.handed[c.pos] == 0
  {
    var b := BatchOf(c, c.pos, |c.cuts| - 1);
    assert BatchInv(c, b);
  }

  lemma LocalMoveShrinks(c: Caller, stopped: bool, closed: bool, c': Caller)
    requires Shape(c) && Sorted(c) && Position(c) && LocalMove(c, stopped, closed, c')
    requires c.pc == Inlining && c.pos < |c.handed| ==> c.handed[c.pos] == 0
    ensures CallerWork()(c') < CallerWork()(c)
  {
    if c.pc == Undoing && c.undone < |c.batches| {
      TotalUpdate(BatchWork, c.batches, c.undone, Inline);
    } else if c.pc == Inlining && c.pos < |c.handed| {
      HandingShrinks(c, c.pos);
    }
  }

  /** A worker either serves the next client of its batch or brings the batch closer to its end. */
  lemma WorkerMoveTrade(c: Caller, b: nat, c': Caller)
    requires Shape(c) && WorkerMove(c, b, c')
    ensures c'.pc == c.pc && c'.next == c.next && c'.undone == c.undone && c'.batches == c.batches[b := c'.batches[b]]
    ensures var p := c.cuts[b] + Served(c.batches[b]);
            || (c'.handed == c.handed && BatchWork(c'.batches[b]) < BatchWork(c.batches[b]))
            || (p < c.cuts[b + 1] && p < |c.handed| && c'.handed == Hand(c, p).handed &&
                BatchWork(c'.batches[b]) == BatchWork(c.batches[b]))
  {}

  /** The client it serves has not been handed the item yet. */
  lemma NextIsUnhanded(c: Caller, b: nat)
    requires Shape(c) && b < |c.batches| && b < c.next && BatchInv(c, b)
    requires c.cuts[b] + Served(c.batches[b]) < c.cuts[b + 1]
    ensures c.cuts[b] + Served(c.batches[b]) < |c.handed| && c.handed[c.cuts[b] + Served(c.batches[b])] == 0
  {}

  lemma WorkerMoveShrinks(c: Caller, b: nat, c': Caller)
    requires Shape(c) && b < |c.batches| && b < c.next && BatchInv(c, b) && WorkerMove(c, b, c')
    ensures CallerWork()(c') < CallerWork()(c)
  {
    WorkerMoveTrade(c, b, c');
    TotalUpdate(BatchWork, c.batches, b, c'.batches[b]);
    if c'.handed != c.handed {
      NextIsUnhanded(c, b);
      HandingShrinks(c, c.cuts[b] + Served(c.batches[b]));
    }
  }

  lemma CallerStepShrinksWork(s: State, i: CallerId, s': State)
    requires Inv(s) && CallerStep(s, i, s')
    ensures Inv(s') && Work(s') < Work(s)
  {
    CallerStepKeepsInv(s, i, s');
    if s.callers[i].pc == Inlining && s.callers[i].pos < |s.callers[i].handed| {
      InlineIsUnhanded(s.callers[i]);
    }
    LocalMoveShrinks(s.callers[i], s.stopped, s.closed, s'.callers[i]);
    TotalUpdate(CallerWork(), s.callers, i, s'.callers[i]);
  }

  lemma WorkerStepShrinksWork(s: State, i: CallerId, b: nat, s': State)
    requires Inv(s) && WorkerStep(s, i, b, s')
    ensures Inv(s') && Work(s') < Work(s)
  {
    WorkerStepKeepsInv(s, i, b, s');
    BegunIsSent(s.callers[i], b);
    assert BatchInv(s.callers[i], b);
    WorkerMoveShrinks(s.callers[i], b, s'.callers[i]);
    TotalUpdate(CallerWork(), s.callers, i, s'.callers[i]);
  }

  lemma EnqueueShrinksWork(s: State, i: CallerId, s': State)
    requires Inv(s) && EnqueueStep(s, i, s')
    ensures Inv(s') && Work(s') < Work(s)
  {
    EnqueueStepKeepsInv(s, i, s');
    var c := s.callers[i];
    assert CallerInv(c) && c.batches[c.next] == Unsent;
    TotalUpdate(BatchWork, c.batches, c.next, Queued);
    TotalUpdate(CallerWork(), s.callers, i, s'.callers[i]);
  }

  lemma DequeueShrinksWork(s: State, s': State)
    requires QueueInv(s) && DequeueStep(s, s')
    ensures Work(s') < Work(s)
  {
    var t := s.queue[0];
    assert Waits(s, t.caller, t.batch);
    TotalUpdate(BatchWork, s.callers[t.caller].batches, t.batch, Running(0));
    TotalUpdate(CallerWork(), s.callers, t.caller, s'.callers[t.caller]);
  }

  lemma WorksShrinksWork(s: State, s': State)
    requires Inv(s) && Works(s, s')
    ensures Inv(s') && Work(s') < Work(s)
  {
    if i: CallerId :| CallerStep(s, i, s') {
      CallerStepShrinksWork(s, i, s');
    } else if i: CallerId, b: nat :| WorkerStep(s, i, b, s') {
      WorkerStepShrinksWork(s, i, b, s');
    } else if i: CallerId :| EnqueueStep(s, i, s') {
      EnqueueShrinksWork(s, i, s');
    } else {
      DequeueStepKeepsInv(s, s');
      DequeueShrinksWork(s, s');
    }
  }

  /** A run of steps of the broadcasts already made, from s. */
  ghost predicate WorkRun(states: seq<State>, s: State) {
    && |states| > 0 && states[0] == s
    && forall i :: 0 <= i < |states| - 1 ==> Works(states[i], states[i + 1])
  }

  /** Such runs are no longer than the work outstanding at their start. */
  lemma {:induction false} WorkRunsAreBounded(states: seq<State>, s: State)
    requires Inv(s) && WorkRun(states, s)
    ensures |states| <= Work(s) + 1
    decreases |states|
  {
    if |states| > 1 {
      assert Works(states[0], states[0 + 1]);
      assert WorkRun(states[1..], states[1]);
      WorksShrinksWork(s, states[1]);
      WorkRunsAreBounded(states[1..], states[1]);
    }
  }

  /** And one that cannot be extended has every WaitGroup at zero and every broadcast returned. */
  lemma StuckMeansReturned(s: State)
    requires Inv(s) && s.workers > 0 && !exists s' :: Works(s, s')
    ensures forall i :: 0 <= i < |s.callers| ==> s.callers[i].pc == Returned && s.callers[i].wg == 0
  {
    forall i | 0 <= i < |s.callers|
      ensures s.callers[i].pc == Returned
    {
      if s.callers[i].pc != Returned {
        var s' := CallerCanMove(s, i);
      }
    }
  }
}
