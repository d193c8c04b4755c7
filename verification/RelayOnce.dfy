/**
  Exactly-once relay: what every run of the cluster keeps, and that relaying comes to an end.
 */
module RelayOnce {
  import opened Relay
  import opened Totals

  ghost function ServesCall(k: nat): Delivery -> nat {
    (d: Delivery) => if d.call == k then 1 else 0
  }

  ghost function CarriesCall(k: nat): Message -> nat {
    (m: Message) => if m.call == k then 1 else 0
  }

  /** How many deliveries of one call offered the item to client c. */
  ghost function OffersTo(k: nat, c: Client): Delivery -> nat {
    (d: Delivery) => if d.call == k then multiset(d.offered)[c] else 0
  }

  ghost function Served(node: Node, k: nat): nat {
    Total(ServesCall(k), node.log)
  }

  ghost function Waiting(node: Node, k: nat): nat {
    Total(CarriesCall(k), node.inbox)
  }

  ghost function Offers(node: Node, k: nat, c: Client): nat {
    Total(OffersTo(k, c), node.log)
  }

  /** What node n owes call k: one pass over its snapshot, if the call is its own or was published. */
  ghost function Due(call: Call, n: nat): nat {
    if n == call.node || call.phase == Published then 1 else 0
  }

  // ---------------------------------------------------------------- the invariant

  ghost predicate IdsDiffer(s: State) {
    forall m, n :: 0 <= m < n < |s.nodes| ==> s.nodes[m].id != s.nodes[n].id
  }

  ghost predicate CallsFit(population: set<Client>, s: State) {
    forall k :: 0 <= k < |s.calls| ==>
      && s.calls[k].node < |s.nodes| && Among(s.calls[k].except, population)
      && (s.calls[k].target.OfUser? || s.calls[k].target.Only? ==> s.calls[k].except == [])
  }

  ghost predicate ViewsFit(population: set<Client>, s: State) {
    forall n :: 0 <= n < |s.nodes| ==> ViewFits(s.nodes[n].view, population)
  }

  ghost predicate MessageFits(s: State, m: Message)
  {
    m.call < |s.calls| && s.calls[m.call].node < |s.nodes| && m == Sent(s, m.call)
  }

  ghost predicate MessagesFit(s: State) {
    forall n, i :: 0 <= n < |s.nodes| && 0 <= i < |s.nodes[n].inbox| ==> MessageFits(s, s.nodes[n].inbox[i])
  }

  ghost predicate DeliveryFits(calls: seq<Call>, d: Delivery) {
    && d.call < |calls|
    && d.item == calls[d.call].item
    && NoDuplicates(d.audience)
    && d.offered == Kept(d.audience, calls[d.call].except)
  }

  ghost predicate LogsFit(s: State) {
    forall n, i :: 0 <= n < |s.nodes| && 0 <= i < |s.nodes[n].log| ==> DeliveryFits(s.calls, s.nodes[n].log[i])
  }

  ghost predicate Balanced(node: Node, n: nat, call: Call, k: nat) {
    Served(node, k) + (if n == call.node then 0 else Waiting(node, k)) == Due(call, n)
  }

  ghost predicate AllBalanced(s: State) {
    forall n, k :: 0 <= n < |s.nodes| && 0 <= k < |s.calls| ==> Balanced(s.nodes[n], n, s.calls[k], k)
  }

  ghost predicate Shape(population: set<Client>, s: State) {
    IdsDiffer(s) && CallsFit(population, s) && ViewsFit(population, s) && MessagesFit(s) && LogsFit(s)
  }

  // ---------------------------------------------------------------- shape

  lemma BroadcastKeepsLogs(population: set<Client>, s: State, step: Step, t: State)
    requires Next(population, s, step, t) && ViewsFit(population, s) && LogsFit(s) && step.Broadcast?
    ensures LogsFit(t)
  {
    AudienceFits(s.nodes[step.n].view, population, step.target);
  }

  lemma BroadcastKeepsShape(population: set<Client>, s: State, step: Step, t: State)
    requires Next(population, s, step, t) && Shape(population, s) && step.Broadcast?
    ensures Shape(population, t)
  {
    BroadcastKeepsLogs(population, s, step, t);
  }

  lemma PublishKeepsMessages(population: set<Client>, s: State, step: Step, t: State)
    requires Next(population, s, step, t) && MessagesFit(s) && step.Publish?
    ensures MessagesFit(t)
  {}

  lemma PublishKeepsShape(population: set<Client>, s: State, step: Step, t: State)
    requires Next(population, s, step, t) && Shape(population, s) && step.Publish?
    ensures Shape(population, t)
  {
    PublishKeepsMessages(population, s, step, t);
  }

  lemma ViewKeepsShape(population: set<Client>, s: State, step: Step, t: State)
    requires Next(population, s, step, t) && Shape(population, s) && step.NewView?
    ensures Shape(population, t)
  {}

  /** What a node offers for a message is what the publishing call is for. */
  lemma HandlingOffers(population: set<Client>, s: State, n: nat, i: nat)
    requires DistinctIds(population) && Shape(population, s) && n < |s.nodes| && i < |s.nodes[n].inbox|
    ensures var view, m := s.nodes[n].view, s.nodes[n].inbox[i];
            && MessageFits(s, m)
            && Reached(view, m) == Audience(view, s.calls[m.call].target)
            && Heard(view, m) == Kept(Reached(view, m), s.calls[m.call].except)
            && NoDuplicates(Reached(view, m))
  {
    var view, m := s.nodes[n].view, s.nodes[n].inbox[i];
    assert MessageFits(s, m);
    var k := s.calls[m.call];
    HeardIsAudience(view, population, s.nodes[k.node].id, k.item, k.target, k.except, m.call);
    AudienceFits(view, population, k.target);
    NothingExcluded(Audience(view, k.target));
  }

  lemma HandleKeepsMessages(s: State, n: nat, i: nat)
    requires MessagesFit(s) && n < |s.nodes| && i < |s.nodes[n].inbox|
    ensures MessagesFit(s.(nodes := s.nodes[n := AfterHandling(s.nodes[n], i)]))
  {
    var t := s.(nodes := s.nodes[n := AfterHandling(s.nodes[n], i)]);
    forall m: nat, j: nat | m < |t.nodes| && j < |t.nodes[m].inbox|
      ensures MessageFits(t, t.nodes[m].inbox[j])
    {
      assert t.nodes[m].inbox[j] in s.nodes[m].inbox;
    }
  }

  lemma HandleKeepsLogs(population: set<Client>, s: State, n: nat, i: nat)
    requires DistinctIds(population) && Shape(population, s) && n < |s.nodes| && i < |s.nodes[n].inbox|
    ensures LogsFit(s.(nodes := s.nodes[n := AfterHandling(s.nodes[n], i)]))
  {
    HandlingOffers(population, s, n, i);
    assert MessageFits(s, s.nodes[n].inbox[i]);
  }

  lemma HandleKeepsShape(population: set<Client>, s: State, step: Step, t: State)
    requires DistinctIds(population) && Next(population, s, step, t) && Shape(population, s) && step.Handle?
    ensures Shape(population, t)
  {
    HandleKeepsMessages(s, step.n, step.i);
    HandleKeepsLogs(population, s, step.n, step.i);
  }

  // ---------------------------------------------------------------- balance

  lemma NewCallServesNothing(s: State, n: nat, k: nat)
    requires LogsFit(s) && MessagesFit(s) && n < |s.nodes| && k >= |s.calls|
    ensures Served(s.nodes[n], k) == 0 && Waiting(s.nodes[n], k) == 0
  {
    TotalIsZero(ServesCall(k), s.nodes[n].log);
    TotalIsZero(CarriesCall(k), s.nodes[n].inbox);
  }

  lemma BroadcastKeepsBalance(population: set<Client>, s: State, step: Step, t: State)
    requires Next(population, s, step, t) && Shape(population, s) && AllBalanced(s) && step.Broadcast?
    ensures AllBalanced(t)
  {
    forall n: nat, k: nat | n < |t.nodes| && k < |t.calls|
      ensures Balanced(t.nodes[n], n, t.calls[k], k)
    {
      if n == step.n {
        TotalAppend(ServesCall(k), s.nodes[n].log, t.nodes[n].log[|s.nodes[n].log|]);
      }
      if k == |s.calls| {
        NewCallServesNothing(s, n, k);
      } else {
        assert Balanced(s.nodes[n], n, s.calls[k], k);
      }
    }
  }

  lemma PublishKeepsBalance(population: set<Client>, s: State, step: Step, t: State)
    requires Next(population, s, step, t) && Shape(population, s) && AllBalanced(s) && step.Publish?
    ensures AllBalanced(t)
  {
    forall n: nat, k: nat | n < |t.nodes| && k < |t.calls|
      ensures Balanced(t.nodes[n], n, t.calls[k], k)
    {
      assert Balanced(s.nodes[n], n, s.calls[k], k);
      TotalAppend(CarriesCall(k), s.nodes[n].inbox, Sent(s, step.k));
    }
  }

  lemma HandleBalances(node: Node, n: nat, i: nat, call: Call, k: nat)
    requires i < |node.inbox| && Balanced(node, n, call, k)
    requires node.inbox[i].call == k ==> (node.inbox[i].nodeId == node.id <==> call.node == n)
    ensures Balanced(AfterHandling(node, i), n, call, k)
  {
    var after := AfterHandling(node, i);
    TotalRemove(CarriesCall(k), node.inbox, i);
    if node.inbox[i].nodeId != node.id {
      TotalAppend(ServesCall(k), node.log, after.log[|node.log|]);
    }
  }

  lemma HandleKeepsBalance(population: set<Client>, s: State, step: Step, t: State)
    requires Next(population, s, step, t) && Shape(population, s) && AllBalanced(s) && step.Handle?
    ensures AllBalanced(t)
  {
    assert MessageFits(s, s.nodes[step.n].inbox[step.i]);
    forall n: nat, k: nat | n < |t.nodes| && k < |t.calls|
      ensures Balanced(t.nodes[n], n, t.calls[k], k)
    {
      assert Balanced(s.nodes[n], n, s.calls[k], k);
      if n == step.n {
        HandleBalances(s.nodes[n], n, step.i, s.calls[k], k);
      }
    }
  }

  lemma ViewKeepsBalance(population: set<Client>, s: State, step: Step, t: State)
    requires Next(population, s, step, t) && AllBalanced(s) && step.NewView?
    ensures AllBalanced(t)
  {
    forall n: nat, k: nat | n < |t.nodes| && k < |t.calls|
      ensures Balanced(t.nodes[n], n, t.calls[k], k)
    {
      assert Balanced(s.nodes[n], n, s.calls[k], k);
    }
  }

  lemma {:induction false} RunInv(population: set<Client>, states: seq<State>, steps: seq<Step>, i: nat)
    requires Run(population, states, steps) && i < |states|
    ensures Shape(population, states[i]) && AllBalanced(states[i])
  {
    if i > 0 {
      RunInv(population, states, steps, i - 1);
      var s, step, t := states[i - 1], steps[i - 1], states[i];
      assert Next(population, s, step, t);
      match step
      case NewView(_, _) =>
        ViewKeepsShape(population, s, step, t);
        ViewKeepsBalance(population, s, step, t);
      case Broadcast(_, _, _, _) =>
        BroadcastKeepsShape(population, s, step, t);
        BroadcastKeepsBalance(population, s, step, t);
      case Publish(_, _) =>
        PublishKeepsShape(population, s, step, t);
        PublishKeepsBalance(population, s, step, t);
      case Handle(_, _) =>
        HandleKeepsShape(population, s, step, t);
        HandleKeepsBalance(population, s, step, t);
    }
  }

  // ---------------------------------------------------------------- what clients are offered

  ghost predicate EachOffers(log: seq<Delivery>, k: nat, c: Client, b: nat) {
    forall i :: 0 <= i < |log| && log[i].call == k ==> multiset(log[i].offered)[c] == b
  }

  lemma {:induction false} OffersPerDelivery(log: seq<Delivery>, k: nat, c: Client, b: nat)
    requires EachOffers(log, k, c, b)
    ensures Total(OffersTo(k, c), log) == b * Total(ServesCall(k), log)
  {
    if |log| > 0 {
      OffersPerDelivery(log[..|log| - 1], k, c, b);
    }
  }

  /** No node ever offers an item to a client its call excluded. */
  lemma ExcludedNeverOffered(
      population: set<Client>, states: seq<State>, steps: seq<Step>, i: nat, n: nat, k: nat, c: Client)
    requires Run(population, states, steps) && i < |states| && n < |states[i].nodes| && k < |states[i].calls|
    requires c in states[i].calls[k].except
    ensures Offers(states[i].nodes[n], k, c) == 0
  {
    RunInv(population, states, steps, i);
    var log := states[i].nodes[n].log;
    forall j | 0 <= j < |log| && log[j].call == k
      ensures multiset(log[j].offered)[c] == 0
    {
      assert DeliveryFits(states[i].calls, log[j]);
      KeptCounts(log[j].audience, states[i].calls[k].except, c);
    }
    OffersPerDelivery(log, k, c, 0);
  }

  lemma {:induction false} OffersAtMost(log: seq<Delivery>, calls: seq<Call>, k: nat, c: Client)
    requires forall j :: 0 <= j < |log| ==> DeliveryFits(calls, log[j])
    ensures Total(OffersTo(k, c), log) <= Total(ServesCall(k), log)
  {
    if |log| > 0 {
      var m := |log| - 1;
      OffersAtMost(log[..m], calls, k, c);
      assert DeliveryFits(calls, log[m]);
      if log[m].call == k {
        KeptCounts(log[m].audience, calls[k].except, c);
      }
    }
  }

  /** At every moment, no client has been offered the item of one call more than once. */
  lemma OfferedAtMostOnce(
      population: set<Client>, states: seq<State>, steps: seq<Step>, i: nat, n: nat, k: nat, c: Client)
    requires Run(population, states, steps) && i < |states| && n < |states[i].nodes| && k < |states[i].calls|
    ensures Offers(states[i].nodes[n], k, c) <= 1
  {
    RunInv(population, states, steps, i);
    assert Balanced(states[i].nodes[n], n, states[i].calls[k], k);
    OffersAtMost(states[i].nodes[n].log, states[i].calls, k, c);
  }

  /** From state `from` to state `to`, client c is among those on node n that the target names. */
  ghost predicate Addressed(states: seq<State>, from: nat, to: nat, n: nat, target: Target, c: Client)
    requires to < |states|
  {
    forall i :: from <= i <= to ==> n < |states[i].nodes| && c in Audience(states[i].nodes[n].view, target)
  }

  ghost predicate SeenIn(log: seq<Delivery>, k: nat, c: Client) {
    forall j :: 0 <= j < |log| && log[j].call == k ==> c in log[j].audience
  }

  lemma StepKeepsTarget(population: set<Client>, s: State, step: Step, t: State, k: nat)
    requires Next(population, s, step, t) && k < |s.calls|
    ensures k < |t.calls| && t.calls[k].target == s.calls[k].target
  {}

  /** One step adds only deliveries whose audience is that of the call on the node as it is. */
  lemma StepSees(population: set<Client>, s: State, step: Step, t: State, n: nat, k: nat, c: Client)
    requires DistinctIds(population) && Shape(population, s) && Next(population, s, step, t)
    requires n < |s.nodes| && k < |t.calls| && SeenIn(s.nodes[n].log, k, c)
    requires c in Audience(s.nodes[n].view, t.calls[k].target)
    ensures n < |t.nodes| && SeenIn(t.nodes[n].log, k, c)
  {
    if step.Handle? && step.n == n {
      HandlingOffers(population, s, n, step.i);
    }
  }

  lemma NothingSeenYet(s: State, n: nat, k: nat, c: Client)
    requires LogsFit(s) && n < |s.nodes| && |s.calls| <= k
    ensures SeenIn(s.nodes[n].log, k, c)
  {
    forall j | 0 <= j < |s.nodes[n].log|
      ensures s.nodes[n].log[j].call < k
    {
      assert DeliveryFits(s.calls, s.nodes[n].log[j]);
    }
  }

  lemma {:induction false} SeenThroughout(
      population: set<Client>, states: seq<State>, steps: seq<Step>, from: nat, i: nat,
      n: nat, k: nat, target: Target, c: Client)
    requires Run(population, states, steps) && from <= i < |states|
    requires Addressed(states, from, i, n, target, c) && |states[from].calls| <= k
    requires k < |states[i].calls| ==> states[i].calls[k].target == target
    ensures SeenIn(states[i].nodes[n].log, k, c)
  {
    RunInv(population, states, steps, i);
    if |states[i].calls| <= k {
      NothingSeenYet(states[i], n, k, c);
    } else {
      var m := i - 1;
      var s, step := states[m], steps[m];
      assert Next(population, s, step, states[i]);
      RunInv(population, states, steps, m);
      if k < |s.calls| {
        StepKeepsTarget(population, s, step, states[i], k);
      }
      SeenThroughout(population, states, steps, from, m, n, k, target, c);
      StepSees(population, s, step, states[i], n, k, c);
    }
  }

  /**
    A client that node n knows as one of those call k is for since before the call was made, and that
    the call does not exclude: once the call has returned and node n has no message of it left to handle,
    the client has been offered the item exactly once if the node made the call or the call's message was
    published, and not at all otherwise.
   */
  lemma OfferedExactlyOnce(
      population: set<Client>, states: seq<State>, steps: seq<Step>, from: nat, i: nat, n: nat, k: nat, c: Client)
    requires Run(population, states, steps) && from <= i < |states|
    requires |states[from].calls| <= k < |states[i].calls|
    requires Addressed(states, from, i, n, states[i].calls[k].target, c)
    requires c !in states[i].calls[k].except
    requires states[i].calls[k].phase != Offered && Waiting(states[i].nodes[n], k) == 0
    ensures Offers(states[i].nodes[n], k, c) ==
            if n == states[i].calls[k].node || states[i].calls[k].phase == Published then 1 else 0
  {
    RunInv(population, states, steps, i);
    SeenThroughout(population, states, steps, from, i, n, k, states[i].calls[k].target, c);
    var log := states[i].nodes[n].log;
    forall j | 0 <= j < |log| && log[j].call == k
      ensures multiset(log[j].offered)[c] == 1
    {
      assert DeliveryFits(states[i].calls, log[j]);
      KeptCounts(log[j].audience, states[i].calls[k].except, c);
    }
    OffersPerDelivery(log, k, c, 1);
    assert Balanced(states[i].nodes[n], n, states[i].calls[k], k);
  }

  // ---------------------------------------------------------------- relaying ends

  ghost function InboxSize(): Node -> nat {
    (node: Node) => |node.inbox|
  }

  ghost function ToPublish(nodes: nat): Call -> nat {
    (call: Call) => if call.phase == Offered then nodes + 1 else 0
  }

  /** Messages still to handle, with those of calls that have yet to publish. */
  ghost function Work(s: State): nat {
    Total(ToPublish(|s.nodes|), s.calls) + Total(InboxSize(), s.nodes)
  }

  lemma {:induction false} ReceivedTotal(nodes: seq<Node>, m: Message)
    ensures Total(InboxSize(), Received(nodes, m)) == Total(InboxSize(), nodes) + |nodes|
  {
    if |nodes| > 0 {
      var n := |nodes| - 1;
      assert Received(nodes, m)[..n] == Received(nodes[..n], m);
      ReceivedTotal(nodes[..n], m);
    }
  }

  ghost function RelaySteps(): Step -> nat {
    (step: Step) => if step.Publish? || step.Handle? then 1 else 0
  }

  lemma StepUsesWork(population: set<Client>, s: State, step: Step, t: State)
    requires Next(population, s, step, t) && !step.Broadcast?
    ensures Work(t) + RelaySteps()(step) <= Work(s) && |t.nodes| == |s.nodes|
  {
    match step
    case NewView(n, _) => TotalUpdate(InboxSize(), s.nodes, n, t.nodes[n]);
    case Publish(k, ok) =>
      TotalUpdate(ToPublish(|s.nodes|), s.calls, k, t.calls[k]);
      ReceivedTotal(s.nodes, Sent(s, k));
    case Handle(n, _) => TotalUpdate(InboxSize(), s.nodes, n, t.nodes[n]);
  }

  /** Between two API calls relaying takes at most Work steps: handling a message publishes nothing. */
  lemma {:induction false} RelayingEnds(
      population: set<Client>, states: seq<State>, steps: seq<Step>, from: nat, to: nat)
    requires Run(population, states, steps) && from <= to < |states|
    requires forall i :: from <= i < to ==> !steps[i].Broadcast?
    ensures Total(RelaySteps(), steps[from..to]) + Work(states[to]) <= Work(states[from])
  {
    if from < to {
      var last := to - 1;
      var step := steps[last];
      RelayingEnds(population, states, steps, from, last);
      assert Next(population, states[last], step, states[to]);
      StepUsesWork(population, states[last], step, states[to]);
      TotalAppend(RelaySteps(), steps[from..last], step);
      assert steps[from..to] == steps[from..last] + [step];
    }
  }

  /** With no work left every call has returned and no message waits anywhere; otherwise a step is possible. */
  lemma WorkMeansAStep(population: set<Client>, s: State)
    requires CallsFit(population, s)
    ensures Work(s) > 0 <==> exists step: Step, t :: (step.Publish? || step.Handle?) && Next(population, s, step, t)
    ensures Work(s) == 0 <==> (forall k :: 0 <= k < |s.calls| ==> s.calls[k].phase != Offered) &&
                              (forall n :: 0 <= n < |s.nodes| ==> s.nodes[n].inbox == [])
  {
    TotalIsZero(ToPublish(|s.nodes|), s.calls);
    TotalIsZero(InboxSize(), s.nodes);
    if k :| 0 <= k < |s.calls| && s.calls[k].phase == Offered {
      var t := State(s.nodes, s.calls[k := s.calls[k].(phase := Failed)]);
      assert Next(population, s, Publish(k, false), t);
    } else if n :| 0 <= n < |s.nodes| && s.nodes[n].inbox != [] {
      var t := s.(nodes := s.nodes[n := AfterHandling(s.nodes[n], 0)]);
      assert Next(population, s, Handle(n, 0), t);
    }
  }

  ghost function Publishes(): Step -> nat {
    (step: Step) => if step.Publish? then 1 else 0
  }

  /** Calls that have published or tried to. */
  ghost function Decided(): Call -> nat {
    (call: Call) => if call.phase == Published || call.phase == Failed then 1 else 0
  }

  lemma StepPublishes(population: set<Client>, s: State, step: Step, t: State)
    requires Next(population, s, step, t)
    ensures Total(Decided(), t.calls) == Total(Decided(), s.calls) + Publishes()(step)
  {
    if step.Publish? {
      TotalUpdate(Decided(), s.calls, step.k, t.calls[step.k]);
    } else if step.Broadcast? {
      TotalAppend(Decided(), s.calls, t.calls[|s.calls|]);
    }
  }

  /** A run publishes at most one message for each API call, whatever its nodes handle. */
  lemma {:induction false} PublishesAtMostCalls(population: set<Client>, states: seq<State>, steps: seq<Step>, i: nat)
    requires Run(population, states, steps) && i < |states|
    ensures Total(Publishes(), steps[..i]) == Total(Decided(), states[i].calls) <= |states[i].calls|
  {
    if i == 0 {
      assert states[0].calls == [];
    } else {
      var m := i - 1;
      var step := steps[m];
      PublishesAtMostCalls(population, states, steps, m);
      assert Next(population, states[m], step, states[i]);
      StepPublishes(population, states[m], step, states[i]);
      TotalAppend(Publishes(), steps[..m], step);
      assert steps[..i] == steps[..m] + [step];
    }
    DecidedAtMostAll(states[i].calls);
  }

  lemma {:induction false} DecidedAtMostAll(calls: seq<Call>)
    ensures Total(Decided(), calls) <= |calls|
  {
    if |calls| > 0 {
      DecidedAtMostAll(calls[..|calls| - 1]);
    }
  }
}
