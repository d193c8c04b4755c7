/**
  From the send calls to the receiver: the send queue of one client under interference, with the write
  pump as the goroutine that takes messages out of it.
 */
module EndToEnd {
  import opened Options
  import opened Messages
  import opened SendProtocol
  import opened SendConservation
  import Coalescing

  /** The items that the writer took out of the channel, in order. */
  ghost function TakenItems(removed: seq<Removal>): seq<Item> {
    if |removed| == 0 then []
    else
      var last := removed[|removed| - 1];
      TakenItems(removed[..|removed| - 1]) + if last.how == Taken then [last.entry.item] else []
  }

  /** The pump serves this channel: what its select and its receives delivered is what was taken out. */
  ghost predicate Serves(p: Coalescing.Pump, s: State)
    reads p
  {
    Coalescing.Delivered(p.env, p.seen) == TakenItems(s.removed)
  }

  /**
    The receiver of a pump that has written all it took gets exactly the items taken out of the channel, in
    order, if and only if no text among them contains a newline byte.
   */
  lemma ReceiverGetsWhatWasTaken(states: seq<State>, i: nat, p: Coalescing.Pump)
    requires Run(states) && i < |states| && p.Settled() && Serves(p, states[i])
    ensures Coalescing.Receive(p.wire) == TakenItems(states[i].removed) <==>
              Coalescing.Clean(TakenItems(states[i].removed))
    ensures p.sent == |TakenItems(states[i].removed)|
  {
    Coalescing.RoundTripExactlyWhenClean(p.wire, p.log);
  }

  // ---------------------------------------------------------------- what becomes of each send

  ghost function TakenOf(removed: seq<Removal>, t: CallId): nat {
    if |removed| == 0 then 0
    else
      var last := removed[|removed| - 1];
      TakenOf(removed[..|removed| - 1], t) + if last.how == Taken && last.entry.sender == t then 1 else 0
  }

  /** Entries of call t that were evicted, or discarded when the client was unregistered. */
  ghost function LostOf(removed: seq<Removal>, t: CallId): nat {
    if |removed| == 0 then 0
    else
      var last := removed[|removed| - 1];
      LostOf(removed[..|removed| - 1], t) + if last.how != Taken && last.entry.sender == t then 1 else 0
  }

  lemma {:induction false} RemovedOf(removed: seq<Removal>, t: CallId)
    ensures SentBy(Entries(removed), t) == TakenOf(removed, t) + LostOf(removed, t)
  {
    if |removed| > 0 {
      var n := |removed| - 1;
      RemovedOf(removed[..n], t);
      assert Entries(removed) == Entries(removed[..n]) + [removed[n].entry];
      SentByAppend(Entries(removed[..n]), removed[n].entry, t);
    }
  }

  lemma {:induction false} SentByJoin(a: seq<Entry>, b: seq<Entry>, t: CallId)
    ensures SentBy(a + b, t) == SentBy(a, t) + SentBy(b, t)
  {
    if |b| == 0 {
      assert a + b == a;
    } else {
      var n := |b| - 1;
      SentByJoin(a, b[..n], t);
      assert a + b == a + b[..n] + [b[n]];
      assert b == b[..n] + [b[n]];
      SentByAppend(a + b[..n], b[n], t);
      SentByAppend(b[..n], b[n], t);
    }
  }

  /**
    The item of a send that returned true is, exactly once, with the writer, evicted or discarded, or still
    in the channel; that of a send that returned false is nowhere.
   */
  lemma EachSendIsAccountedFor(states: seq<State>, i: nat, t: CallId)
    requires Run(states) && i < |states| && t < |states[i].calls|
    ensures var s := states[i];
            var total := TakenOf(s.removed, t) + LostOf(s.removed, t) + SentBy(s.buffer, t);
            && (s.calls[t].pc == ReturnedTrue ==> total == 1)
            && (s.calls[t].pc == ReturnedFalse || s.calls[t].pc == Skipped ==> total == 0)
  {
    ChannelConserves(states, i);
    EachSendSettlesOnce(states, i, t);
    RemovedOf(states[i].removed, t);
    SentByJoin(Entries(states[i].removed), states[i].buffer, t);
  }

  ghost predicate OnlyTaken(removed: seq<Removal>) {
    forall i :: 0 <= i < |removed| ==> removed[i].how == Taken
  }

  lemma {:induction false} AllTaken(removed: seq<Removal>)
    requires OnlyTaken(removed)
    ensures TakenItems(removed) == ItemsIn(Entries(removed))
  {
    if |removed| > 0 {
      var n := |removed| - 1;
      AllTaken(removed[..n]);
      assert ItemsIn(Entries(removed)) == ItemsIn(Entries(removed[..n])) + [removed[n].entry.item];
    }
  }

  /**
    Without evictions and discards, everything enqueued is what the receiver got, in order, followed by what
    is still in the channel.
   */
  lemma NothingIsLost(states: seq<State>, i: nat, p: Coalescing.Pump)
    requires Run(states) && i < |states| && p.Settled() && Serves(p, states[i])
    requires OnlyTaken(states[i].removed) && Coalescing.Clean(TakenItems(states[i].removed))
    ensures ItemsIn(states[i].enqueued) == Coalescing.Receive(p.wire) + ItemsIn(states[i].buffer)
  {
    ReceiverGetsWhatWasTaken(states, i, p);
    ChannelConserves(states, i);
    AllTaken(states[i].removed);
  }
}
