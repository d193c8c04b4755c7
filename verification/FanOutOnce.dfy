/** Every broadcast hands its item to each client exactly once (or says it did not), in every interleaving. */
module FanOutOnce {
  import opened Totals
  import opened FanOut

  ghost function One(b: bool): nat {
    if b then 1 else 0
  }

  ghost function Served(b: Batch): nat {
    match b
    case Running(k) => k
    case Ending(k) => k
    case Finished(k) => k
    case _ => 0
  }

  /** Given to the pool and taken by a worker. */
  ghost predicate Begun(b: Batch) {
    b.Running? || b.Ending? || b.Finished?
  }

  ghost predicate Submitted(b: Batch) {
    b.Queued? || Begun(b)
  }

  /** What a batch still contributes to the caller's WaitGroup. */
  ghost function Outstanding(b: Batch): nat {
    if b.Finished? || b.Inline? then 0 else 1
  }

  // ---------------------------------------------------------------- the invariant of one broadcast

  ghost predicate Shape(c: Caller) {
    && |c.cuts| > 0 && Partition(c.cuts, Size(c))
    && |c.batches| == |c.cuts| - 1 && |c.runs| == |c.cuts| - 1 && |c.handed| == Size(c)
  }

  /** The batches from `next` up to here have been left to the caller; those after it are still unsent. */
  ghost function InlineUpTo(c: Caller): int {
    match c.pc
    case Submitting | Sending => c.next
    case Undoing => c.undone
    case _ => |c.batches|
  }

  ghost predicate Sorted(c: Caller) {
    && c.next <= InlineUpTo(c) <= |c.batches|
    && (forall b :: 0 <= b < c.next ==> Submitted(c.batches[b]))
    && (forall b :: c.next <= b < InlineUpTo(c) ==> c.batches[b] == Inline)
    && (forall b :: InlineUpTo(c) <= b < |c.batches| ==> c.batches[b] == Unsent)
  }

  ghost predicate Position(c: Caller)
    requires Shape(c)
  {
    && (c.pc == Sending || c.pc == Undoing || c.pc == Inlining ==> c.next < |c.batches|)
    && (c.pc == Inlining ==> c.cuts[c.next] <= c.pos <= Size(c))
    && ((c.pc == Waiting || c.pc == Returned) && c.next < |c.batches| ==>
          c.cuts[c.next] <= c.pos <= Size(c) && (c.pos == Size(c) || c.err))
  }

  ghost predicate Phase(c: Caller)
    requires Shape(c)
  {
    Sorted(c) && Position(c)
  }

  /** The first client of batch b, or of the inline part, that has not been served. */
  ghost function Reach(c: Caller, b: nat): nat
    requires Shape(c) && b < |c.batches|
  {
    if b < c.next then c.cuts[b] + Served(c.batches[b])
    else if c.pc == Submitting || c.pc == Sending || c.pc == Undoing then c.cuts[b]
    else c.pos
  }

  /** In batch b, exactly the clients before that point were handed the item, once. */
  ghost predicate BatchHanded(c: Caller, b: nat)
    requires Shape(c) && b < |c.batches|
  {
    forall p :: c.cuts[b] <= p < c.cuts[b + 1] ==> c.handed[p] == One(p < Reach(c, b))
  }

  ghost predicate BatchInv(c: Caller, b: nat)
    requires Shape(c) && b < |c.batches|
  {
    && BatchHanded(c, b)
    && c.cuts[b] + Served(c.batches[b]) <= c.cuts[b + 1]
    && ((c.batches[b].Ending? || c.batches[b].Finished?) && c.cuts[b] + Served(c.batches[b]) < c.cuts[b + 1] ==> c.err)
    && c.runs[b] == One(Begun(c.batches[b]))
  }

  ghost predicate StoppedShort(c: Caller, b: nat)
    requires Shape(c)
  {
    && b < |c.batches| && (c.batches[b].Ending? || c.batches[b].Finished?)
    && c.cuts[b] + Served(c.batches[b]) < c.cuts[b + 1]
  }

  ghost predicate InlineShort(c: Caller)
    requires Shape(c)
  {
    (c.pc == Waiting || c.pc == Returned) && c.next < |c.batches| && c.pos < Size(c)
  }

  ghost predicate ErrInv(c: Caller)
    requires Shape(c)
  {
    c.err ==> c.withContext && c.cancelled && (InlineShort(c) || exists b :: StoppedShort(c, b))
  }

  ghost predicate CallerInv(c: Caller) {
    && Shape(c) && Phase(c) && ErrInv(c)
    && (forall b :: 0 <= b < |c.batches| ==> BatchInv(c, b))
    && c.wg == Total(Outstanding, c.batches)
    && (c.pc == Returned ==> c.wg == 0)
  }

  // ---------------------------------------------------------------- steps of one broadcast

  lemma {:induction false} OutstandingUnsent(batches: seq<Batch>)
    requires forall b :: 0 <= b < |batches| ==> batches[b] == Unsent
    ensures Total(Outstanding, batches) == |batches|
  {
    if |batches| > 0 {
      OutstandingUnsent(batches[..|batches| - 1]);
    }
  }

  lemma StartingInv(c: Caller)
    requires Starting(c)
    ensures CallerInv(c)
  {
    OutstandingUnsent(c.batches);
  }

  lemma LocalMoveShape(c: Caller, stopped: bool, closed: bool, c': Caller)
    requires Shape(c) && LocalMove(c, stopped, closed, c')
    ensures Shape(c') && c'.cuts == c.cuts && c'.next == c.next && c'.runs == c.runs && c'.withContext == c.withContext
    ensures c'.batches == c.batches || (c.undone < |c.batches| && c'.batches == c.batches[c.undone := Inline])
  {}

  lemma LocalMoveSorted(c: Caller, stopped: bool, closed: bool, c': Caller)
    requires |c.cuts| == |c.batches| + 1 && Sorted(c) && LocalMove(c, stopped, closed, c')
    requires c.pc == Sending || c.pc == Undoing ==> c.next < |c.batches|
    ensures Sorted(c')
  {}

  lemma LocalMovePosition(c: Caller, stopped: bool, closed: bool, c': Caller)
    requires Shape(c) && Phase(c) && LocalMove(c, stopped, closed, c') && Shape(c')
    ensures Position(c')
  {
    assert c.next < |c.cuts| ==> c.cuts[c.next] <= Size(c);
  }

  lemma LocalMoveErr(c: Caller, stopped: bool, closed: bool, c': Caller)
    requires Shape(c) && Position(c) && ErrInv(c) && LocalMove(c, stopped, closed, c') && Shape(c')
    requires c.pc == Undoing && c.undone < |c.batches| ==> c.batches[c.undone] == Unsent
    ensures ErrInv(c')
  {
    if b :| StoppedShort(c, b) {
      assert StoppedShort(c', b);
    }
  }

  lemma InlineMoveHanded(c: Caller, c': Caller, b: nat)
    requires Shape(c) && Phase(c) && LocalMove(c, false, false, c') && Shape(c') && c.pc == Inlining
    requires b < |c.batches| && BatchHanded(c, b)
    ensures b < |c'.batches| && BatchHanded(c', b)
  {
    assert b < c.next ==> c.cuts[b + 1] <= c.cuts[c.next];
  }

  lemma OtherMoveHanded(c: Caller, stopped: bool, closed: bool, c': Caller, b: nat)
    requires Shape(c) && Phase(c) && LocalMove(c, stopped, closed, c') && Shape(c') && c.pc != Inlining
    requires b < |c.batches| && BatchHanded(c, b)
    ensures b < |c'.batches| && BatchHanded(c', b)
  {
    assert c'.handed == c.handed && c'.cuts == c.cuts;
    assert c.next <= b ==> c.cuts[c.next] <= c.cuts[b];
  }

  lemma LocalMoveBatch(c: Caller, stopped: bool, closed: bool, c': Caller, b: nat)
    requires Shape(c) && Phase(c) && LocalMove(c, stopped, closed, c') && Shape(c')
    requires b < |c.batches| && BatchInv(c, b)
    ensures b < |c'.batches| && BatchInv(c', b)
  {
    LocalMoveShape(c, stopped, closed, c');
    if c.pc == Inlining {
      InlineMoveHanded(c, c', b);
    } else {
      OtherMoveHanded(c, stopped, closed, c', b);
    }
  }

  lemma LocalMoveCounts(c: Caller, stopped: bool, closed: bool, c': Caller)
    requires Shape(c) && Sorted(c) && c.wg == Total(Outstanding, c.batches) && LocalMove(c, stopped, closed, c')
    requires c.pc == Returned ==> c.wg == 0
    ensures c'.wg == Total(Outstanding, c'.batches) && (c'.pc == Returned ==> c'.wg == 0)
  {
    if c.pc == Undoing && c.undone < |c.batches| {
      TotalUpdate(Outstanding, c.batches, c.undone, Inline);
    }
  }

  lemma LocalMoveKeeps(c: Caller, stopped: bool, closed: bool, c': Caller)
    requires CallerInv(c) && LocalMove(c, stopped, closed, c')
    ensures CallerInv(c')
  {
    LocalMoveCounts(c, stopped, closed, c');
    LocalMoveShape(c, stopped, closed, c');
    LocalMoveSorted(c, stopped, closed, c');
    LocalMovePosition(c, stopped, closed, c');
    LocalMoveErr(c, stopped, closed, c');
    forall b | 0 <= b < |c'.batches|
      ensures BatchInv(c', b)
    {
      LocalMoveBatch(c, stopped, closed, c', b);
    }
  }

  /** A worker touches its own batch, and at most the next unserved client of it. */
  ghost predicate OwnBatchOnly(c: Caller, b: nat, c': Caller)
    requires Shape(c)
  {
    && Shape(c') && b < |c.batches|
    && c'.cuts == c.cuts && c'.next == c.next && c'.pc == c.pc && c'.pos == c.pos && c'.runs == c.runs
    && c'.undone == c.undone && c'.withContext == c.withContext && c'.cancelled == c.cancelled && (c.err ==> c'.err)
    && c'.batches == c.batches[b := c'.batches[b]] && Begun(c.batches[b]) && Begun(c'.batches[b])
    && (|| c'.handed == c.handed
        || (var p := c.cuts[b] + Served(c.batches[b]);
            p < c.cuts[b + 1] && p < |c.handed| && c'.handed == c.handed[p := c.handed[p] + 1]))
  }

  lemma WorkerMoveShape(c: Caller, b: nat, c': Caller)
    requires Shape(c) && WorkerMove(c, b, c')
    ensures OwnBatchOnly(c, b, c')
  {}

  lemma BegunIsSent(c: Caller, b: nat)
    requires Shape(c) && Phase(c) && b < |c.batches| && Begun(c.batches[b])
    ensures b < c.next
  {}

  lemma WorkerMovePhase(c: Caller, b: nat, c': Caller)
    requires Shape(c) && Phase(c) && OwnBatchOnly(c, b, c') && b < c.next
    ensures Phase(c')
  {}

  lemma WorkerMoveErr(c: Caller, b: nat, c': Caller)
    requires Shape(c) && ErrInv(c) && WorkerMove(c, b, c') && OwnBatchOnly(c, b, c')
    ensures ErrInv(c')
  {
    if a :| StoppedShort(c, a) {
      assert StoppedShort(c', a);
    }
    if c'.err && !c.err {
      assert StoppedShort(c', b);
    }
  }

  lemma WorkerMoveOwn(c: Caller, b: nat, c': Caller)
    requires Shape(c) && WorkerMove(c, b, c') && Shape(c') && BatchInv(c, b) && b < c.next && c'.next == c.next
    ensures BatchInv(c', b)
  {}

  lemma WorkerMoveOther(c: Caller, b: nat, c': Caller, a: nat)
    requires Shape(c) && OwnBatchOnly(c, b, c') && a != b && a < |c.batches| && BatchInv(c, a)
    ensures BatchInv(c', a)
  {
    assert a < b ==> c.cuts[a + 1] <= c.cuts[b];
    assert b < a ==> c.cuts[b + 1] <= c.cuts[a];
  }

  lemma WorkerMoveKeeps(c: Caller, b: nat, c': Caller)
    requires CallerInv(c) && WorkerMove(c, b, c')
    ensures CallerInv(c')
  {
    WorkerMoveShape(c, b, c');
    BegunIsSent(c, b);
    WorkerMovePhase(c, b, c');
    WorkerMoveErr(c, b, c');
    forall a | 0 <= a < |c'.batches|
      ensures BatchInv(c', a)
    {
      if a == b {
        WorkerMoveOwn(c, b, c');
      } else {
        WorkerMoveOther(c, b, c', a);
      }
    }
    TotalUpdate(Outstanding, c.batches, b, c'.batches[b]);
    TotalAtLeast(Outstanding, c.batches, b);
  }

  /** Queueing or starting a batch. */
  lemma EnqueuedKeeps(c: Caller)
    requires CallerInv(c) && c.pc == Sending
    ensures c.next < |c.batches|
    ensures CallerInv(c.(pc := Submitting, next := c.next + 1, batches := c.batches[c.next := Queued]))
  {
    var c' := c.(pc := Submitting, next := c.next + 1, batches := c.batches[c.next := Queued]);
    TotalUpdate(Outstanding, c.batches, c.next, Queued);
    forall a | 0 <= a < |c'.batches|
      ensures BatchInv(c', a)
    {
      assert BatchInv(c, a);
    }
    if b :| StoppedShort(c, b) {
      assert StoppedShort(c', b);
    }
  }

  lemma DequeuedKeeps(c: Caller, b: nat)
    requires CallerInv(c) && b < |c.batches| && c.batches[b] == Queued
    ensures CallerInv(c.(batches := c.batches[b := Running(0)], runs := c.runs[b := c.runs[b] + 1]))
  {
    var c' := c.(batches := c.batches[b := Running(0)], runs := c.runs[b := c.runs[b] + 1]);
    TotalUpdate(Outstanding, c.batches, b, Running(0));
    TotalAtLeast(Outstanding, c.batches, b);
    forall a | 0 <= a < |c'.batches|
      ensures BatchInv(c', a)
    {
      assert BatchInv(c, a);
    }
    if a :| StoppedShort(c, a) {
      assert StoppedShort(c', a);
    }
  }

  // ---------------------------------------------------------------- the queue and the whole state

  ghost predicate Waits(s: State, i: CallerId, b: nat) {
    i < |s.callers| && b < |s.callers[i].batches| && s.callers[i].batches[b] == Queued
  }

  /** The channel holds each queued batch exactly once, and nothing else. */
  ghost predicate QueueInv(s: State) {
    && (forall q :: 0 <= q < |s.queue| ==> Waits(s, s.queue[q].caller, s.queue[q].batch))
    && (forall q, r :: 0 <= q < r < |s.queue| ==> s.queue[q] != s.queue[r])
    && (forall i, b :: Waits(s, i, b) ==> Task(i, b) in s.queue)
  }

  ghost predicate CallersInv(s: State) {
    forall i :: 0 <= i < |s.callers| ==> CallerInv(s.callers[i])
  }

  ghost predicate Inv(s: State) {
    CallersInv(s) && QueueInv(s)
  }

  /** Steps of a caller or a worker leave the set of queued batches alone. */
  lemma QueueKept(s: State, i: CallerId, s': State)
    requires QueueInv(s) && i < |s.callers| && i < |s'.callers| && s'.queue == s.queue
    requires s'.callers == s.callers[i := s'.callers[i]]
    requires |s'.callers[i].batches| == |s.callers[i].batches|
    requires forall b :: 0 <= b < |s.callers[i].batches| ==>
               (s'.callers[i].batches[b] == Queued <==> s.callers[i].batches[b] == Queued)
    ensures QueueInv(s')
  {
    assert forall j, b :: Waits(s', j, b) <==> Waits(s, j, b);
  }

  lemma CallerStepKeepsInv(s: State, i: CallerId, s': State)
    requires Inv(s) && CallerStep(s, i, s')
    ensures Inv(s')
  {
    LocalMoveShape(s.callers[i], s.stopped, s.closed, s'.callers[i]);
    LocalMoveKeeps(s.callers[i], s.stopped, s.closed, s'.callers[i]);
    LocalMoveQueued(s.callers[i], s.stopped, s.closed, s'.callers[i]);
    QueueKept(s, i, s');
  }

  lemma LocalMoveQueued(c: Caller, stopped: bool, closed: bool, c': Caller)
    requires CallerInv(c) && LocalMove(c, stopped, closed, c')
    ensures |c'.batches| == |c.batches|
    ensures forall b :: 0 <= b < |c.batches| ==> (c'.batches[b] == Queued <==> c.batches[b] == Queued)
  {}

  lemma WorkerStepKeepsInv(s: State, i: CallerId, b: nat, s': State)
    requires Inv(s) && WorkerStep(s, i, b, s')
    ensures Inv(s')
  {
    WorkerMoveShape(s.callers[i], b, s'.callers[i]);
    WorkerMoveKeeps(s.callers[i], b, s'.callers[i]);
    QueueKept(s, i, s');
  }

  lemma CancelStepKeepsInv(s: State, i: CallerId, s': State)
    requires Inv(s) && CancelStep(s, i, s')
    ensures Inv(s')
  {
    var c, c' := s.callers[i], s'.callers[i];
    forall b | 0 <= b < |c.batches|
      ensures BatchInv(c', b)
    {
      assert BatchInv(c, b);
    }
    if b :| StoppedShort(c, b) {
      assert StoppedShort(c', b);
    }
    QueueKept(s, i, s');
  }

  lemma EnqueueStepKeepsInv(s: State, i: CallerId, s': State)
    requires Inv(s) && EnqueueStep(s, i, s')
    ensures Inv(s')
  {
    var c := s.callers[i];
    EnqueuedKeeps(c);
    var t := Task(i, c.next);
    assert c.batches[c.next] == Unsent;
    assert forall j, b :: Waits(s', j, b) <==> Waits(s, j, b) || Task(j, b) == t;
    assert t !in s.queue;
  }

  /** Starting the first task takes it, and no other, out of the set of queued batches. */
  lemma DequeueKeepsQueue(s: State, s': State)
    requires QueueInv(s) && DequeueStep(s, s')
    ensures QueueInv(s')
  {
    var t := s.queue[0];
    assert s.queue == [t] + s'.queue;
    assert forall j, b :: Waits(s', j, b) <==> Waits(s, j, b) && Task(j, b) != t;
  }

  lemma DequeueStepKeepsInv(s: State, s': State)
    requires Inv(s) && DequeueStep(s, s')
    ensures Inv(s')
  {
    var t := s.queue[0];
    assert Waits(s, t.caller, t.batch);
    DequeuedKeeps(s.callers[t.caller], t.batch);
    DequeueKeepsQueue(s, s');
  }

  lemma NewBroadcastKeepsInv(s: State, c: Caller, s': State)
    requires Inv(s) && NewBroadcast(s, c, s')
    ensures Inv(s')
  {
    StartingInv(c);
    assert forall j, b :: Waits(s', j, b) <==> Waits(s, j, b);
  }

  lemma NextKeepsInv(s: State, s': State)
    requires Inv(s) && Next(s, s')
    ensures Inv(s')
  {
    if i :| CallerStep(s, i, s') {
      CallerStepKeepsInv(s, i, s');
    } else if i, b :| WorkerStep(s, i, b, s') {
      WorkerStepKeepsInv(s, i, b, s');
    } else if i :| EnqueueStep(s, i, s') {
      EnqueueStepKeepsInv(s, i, s');
    } else if i :| CancelStep(s, i, s') {
      CancelStepKeepsInv(s, i, s');
    } else if c :| NewBroadcast(s, c, s') {
      NewBroadcastKeepsInv(s, c, s');
    } else if DequeueStep(s, s') {
      DequeueStepKeepsInv(s, s');
    } else {
      assert forall j, b :: Waits(s', j, b) <==> Waits(s, j, b);
    }
  }

  lemma {:induction false} RunInv(states: seq<State>, i: nat)
    requires Run(states) && i < |states|
    ensures Inv(states[i])
  {
    if i > 0 {
      RunInv(states, i - 1);
      assert Next(states[i - 1], states[i - 1 + 1]);
      NextKeepsInv(states[i - 1], states[i]);
    }
  }

  // ---------------------------------------------------------------- the main results

  /** Every client lies in some batch. */
  lemma {:induction false} BatchOf(c: Caller, p: nat, n: nat) returns (b: nat)
    requires Shape(c) && n < |c.cuts| && p < c.cuts[n]
    ensures b < n && c.cuts[b] <= p < c.cuts[b + 1]
  {
    if c.cuts[n - 1] <= p {
      b := n - 1;
    } else {
      b := BatchOf(c, p, n - 1);
    }
  }

  /** In every state: nobody is handed the item twice, no batch is run twice, the WaitGroup is never negative. */
  lemma AtMostOnce(states: seq<State>, i: nat, id: CallerId, p: nat)
    requires Run(states) && i < |states| && id < |states[i].callers|
    ensures states[i].callers[id].wg >= 0
    ensures forall b :: 0 <= b < |states[i].callers[id].runs| ==> states[i].callers[id].runs[b] <= 1
    ensures p < |states[i].callers[id].handed| ==> states[i].callers[id].handed[p] <= 1
  {
    RunInv(states, i);
    var c := states[i].callers[id];
    forall b | 0 <= b < |c.runs|
      ensures c.runs[b] <= 1
    {
      assert BatchInv(c, b);
    }
    if p < |c.handed| {
      var b := BatchOf(c, p, |c.cuts| - 1);
      assert BatchInv(c, b);
    }
  }

  lemma FinishedBatches(c: Caller)
    requires CallerInv(c) && c.pc == Returned
    ensures forall b :: 0 <= b < c.next ==> c.batches[b].Finished?
  {
    TotalIsZero(Outstanding, c.batches);
    assert forall b :: 0 <= b < c.next ==> Submitted(c.batches[b]) && Outstanding(c.batches[b]) == 0;
  }

  /**
    When a broadcast returns, its WaitGroup is at zero, every batch the pool accepted has been run to
    its end exactly once, and every other batch was left to the caller.
   */
  lemma AcceptedBatchesRanOnce(states: seq<State>, i: nat, id: CallerId, b: nat)
    requires Run(states) && i < |states| && id < |states[i].callers| && states[i].callers[id].pc == Returned
    requires b < |states[i].callers[id].batches| == |states[i].callers[id].runs|
    ensures states[i].callers[id].wg == 0
    ensures || (states[i].callers[id].batches[b].Finished? && states[i].callers[id].runs[b] == 1)
            || (states[i].callers[id].batches[b] == Inline && states[i].callers[id].runs[b] == 0)
  {
    RunInv(states, i);
    var c := states[i].callers[id];
    FinishedBatches(c);
    assert BatchInv(c, b);
  }

  lemma ServedWithoutError(c: Caller, p: nat)
    requires CallerInv(c) && c.pc == Returned && !c.err && p < |c.handed|
    ensures c.handed[p] == 1
  {
    FinishedBatches(c);
    var b := BatchOf(c, p, |c.cuts| - 1);
    assert BatchInv(c, b);
  }

  lemma ErrorLeavesSomeoneOut(c: Caller) returns (p: nat)
    requires CallerInv(c) && c.err && c.pc == Returned
    ensures p < |c.handed| && c.handed[p] == 0
  {
    if InlineShort(c) {
      p := c.pos;
      var b := BatchOf(c, p, |c.cuts| - 1);
      assert c.next <= b;
      assert BatchInv(c, b);
    } else {
      var b: nat :| StoppedShort(c, b);
      p := c.cuts[b] + Served(c.batches[b]);
      assert BatchInv(c, b);
      assert c.cuts[b + 1] <= Size(c);
    }
  }

  /**
    A broadcast returns nil if and only if every client was handed the item; it returns an error only if it has
    a context and that was cancelled.
   */
  lemma NilExactlyWhenAllServed(states: seq<State>, i: nat, id: CallerId)
    requires Run(states) && i < |states| && id < |states[i].callers| && states[i].callers[id].pc == Returned
    ensures !states[i].callers[id].err <==>
              forall p :: 0 <= p < |states[i].callers[id].handed| ==> states[i].callers[id].handed[p] == 1
    ensures states[i].callers[id].err ==> states[i].callers[id].withContext && states[i].callers[id].cancelled
  {
    RunInv(states, i);
    var c := states[i].callers[id];
    if !c.err {
      forall p | 0 <= p < |c.handed|
        ensures c.handed[p] == 1
      {
        ServedWithoutError(c, p);
      }
    } else {
      var p := ErrorLeavesSomeoneOut(c);
    }
  }

  /** Inside each batch, whoever runs it, the clients served so far form a prefix. */
  lemma ServedFormPrefix(states: seq<State>, i: nat, id: CallerId, b: nat, p: nat, q: nat)
    requires Run(states) && i < |states| && id < |states[i].callers|
    requires b + 1 < |states[i].callers[id].cuts|
    requires states[i].callers[id].cuts[b] <= q <= p < states[i].callers[id].cuts[b + 1]
    requires p < |states[i].callers[id].handed| && states[i].callers[id].handed[p] == 1
    ensures states[i].callers[id].handed[q] == 1
  {
    RunInv(states, i);
    assert BatchInv(states[i].callers[id], b);
  }
}
