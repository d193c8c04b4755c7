/**
  The send path of one client without interference: trySendErr and trySendDropOldest over a bounded
  buffer, and what a burst of sends leaves in it under each drop policy.
 */
module SendBuffer {
  import opened Messages

  datatype DropPolicy = DropNewest | DropOldest

  /** What one send to an open client does to its buffer. */
  ghost function AfterSend(policy: DropPolicy, capacity: nat, buffer: seq<Item>, item: Item): seq<Item> {
    if |buffer| < capacity then buffer + [item]
    else if policy == DropNewest || |buffer| == 0 then buffer
    else buffer[1..] + [item]
  }

  /** The item that one send reports as dropped, if any. */
  ghost function DroppedBySend(policy: DropPolicy, capacity: nat, buffer: seq<Item>, item: Item): seq<Item> {
    if |buffer| < capacity then []
    else if policy == DropNewest || |buffer| == 0 then [item]
    else [buffer[0]]
  }

  class Client {
    const capacity: nat
    const policy: DropPolicy
    var send: seq<Item>
    var closed: bool
    var dropped: seq<Item>  // notifySendDropped, in order

    ghost predicate Valid()
      reads this
    {
      0 < capacity && |send| <= capacity
    }

    constructor (capacity: nat, policy: DropPolicy)
      requires capacity > 0
      ensures Valid() && this.capacity == capacity && this.policy == policy
      ensures send == [] && !closed && dropped == []
    {
      this.capacity, this.policy := capacity, policy;
      send, closed, dropped := [], false, [];
    }

    /** A non-blocking channel send. */
    method Offer(item: Item) returns (ok: bool)
      requires Valid()
      modifies this`send
      ensures Valid() && ok == (|old(send)| < capacity)
      ensures send == if ok then old(send) + [item] else old(send)
    {
      ok := |send| < capacity;
      if ok {
        send := send + [item];
      }
    }

    method TrySendDropOldest(item: Item) returns (ok: bool)
      requires Valid()
      modifies this`send, this`dropped
      ensures Valid() && ok
      ensures send == AfterSend(DropOldest, capacity, old(send), item)
      ensures dropped == old(dropped) + DroppedBySend(DropOldest, capacity, old(send), item)
    {
      ok := Offer(item);
      if ok {
        return;
      }
      for attempt := 0 to 2
        invariant attempt == 0 && !ok && Valid() && send == old(send) && dropped == old(dropped)
      {
        if |send| > 0 {
          dropped := dropped + [send[0]];
          send := send[1..];
        }
        ok := Offer(item);
        if ok {
          return;
        }
      }
    }

    /** Nothing happens on a closed client; otherwise the buffer and the notifications follow the policy. */
    method TrySendErr(item: Item) returns (ok: bool)
      requires Valid()
      modifies this`send, this`dropped
      ensures Valid()
      ensures old(closed) ==> !ok && send == old(send) && dropped == old(dropped)
      ensures !old(closed) ==> send == AfterSend(policy, capacity, old(send), item)
      ensures !old(closed) ==> dropped == old(dropped) + DroppedBySend(policy, capacity, old(send), item)
      ensures !old(closed) ==> (ok <==> policy == DropOldest || |old(send)| < capacity)
    {
      if closed {
        return false;
      }
      ok := Offer(item);
      if ok {
        return;
      }
      if policy == DropOldest {
        ok := TrySendDropOldest(item);
        if ok {
          return;
        }
      }
      dropped := dropped + [item];
      ok := false;
    }

    /** A burst of sends with no consumer: which items are kept, and which are reported as dropped, in order. */
    method SendAll(items: seq<Item>)
      requires Valid() && !closed && send == []
      modifies this`send, this`dropped
      ensures Valid()
      ensures var kept := Kept(capacity, |items|);
        if policy == DropNewest then send == items[..kept] && dropped == old(dropped) + items[kept..]
        else send == items[|items| - kept..] && dropped == old(dropped) + items[..|items| - kept]
    {
      for n := 0 to |items|
        invariant Valid() && !closed && send == AfterBurst(policy, capacity, items[..n])
        invariant dropped == old(dropped) + DroppedByBurst(policy, capacity, items[..n])
      {
        assert items[..n + 1][..n] == items[..n];
        var _ := TrySendErr(items[n]);
      }
      assert items[..|items|] == items;
      BurstKeeps(policy, capacity, items);
      BurstDrops(policy, capacity, items);
    }
  }

  ghost function AfterBurst(policy: DropPolicy, capacity: nat, items: seq<Item>): seq<Item> {
    if |items| == 0 then []
    else AfterSend(policy, capacity, AfterBurst(policy, capacity, items[..|items| - 1]), items[|items| - 1])
  }

  /** The items that the sends of a burst report as dropped, in order. */
  ghost function DroppedByBurst(policy: DropPolicy, capacity: nat, items: seq<Item>): seq<Item> {
    if |items| == 0 then []
    else
      var front, last := items[..|items| - 1], items[|items| - 1];
      var buffer := AfterBurst(policy, capacity, front);
      DroppedByBurst(policy, capacity, front) + DroppedBySend(policy, capacity, buffer, last)
  }

  ghost function Kept(capacity: nat, n: nat): nat {
    if n < capacity then n else capacity
  }

  lemma {:induction false} NewestKeeps(capacity: nat, items: seq<Item>)
    requires capacity > 0
    ensures AfterBurst(DropNewest, capacity, items) == items[..Kept(capacity, |items|)]
  {
    if |items| > 0 {
      var n := |items| - 1;
      NewestKeeps(capacity, items[..n]);
      assert items[..n][..Kept(capacity, n)] == items[..Kept(capacity, n)];
      assert n < capacity ==> items[..n] + [items[n]] == items[..n + 1];
    }
  }

  lemma {:induction false} OldestKeeps(capacity: nat, items: seq<Item>)
    requires capacity > 0
    ensures AfterBurst(DropOldest, capacity, items) == items[|items| - Kept(capacity, |items|)..]
  {
    if |items| > 0 {
      var n := |items| - 1;
      OldestKeeps(capacity, items[..n]);
      var from := n - Kept(capacity, n);
      assert items[..n][from..] + [items[n]] == items[from..];
      assert n >= capacity ==> items[..n][from..][1..] + [items[n]] == items[from + 1..];
    }
  }

  /** DropNewest keeps the first min(n, capacity) items of a burst, DropOldest the last. */
  lemma BurstKeeps(policy: DropPolicy, capacity: nat, items: seq<Item>)
    requires capacity > 0
    ensures policy == DropNewest ==> AfterBurst(policy, capacity, items) == items[..Kept(capacity, |items|)]
    ensures policy == DropOldest ==>
              AfterBurst(policy, capacity, items) == items[|items| - Kept(capacity, |items|)..]
  {
    NewestKeeps(capacity, items);
    OldestKeeps(capacity, items);
  }

  /**
    What one send keeps and what it reports is what there was and the new item: DropNewest reports from the
    end, DropOldest from the front, and neither loses, doubles or reorders anything.
   */
  lemma SendConserves(policy: DropPolicy, capacity: nat, buffer: seq<Item>, item: Item)
    requires 0 < capacity && |buffer| <= capacity
    ensures var after := AfterSend(policy, capacity, buffer, item);
            var dropped := DroppedBySend(policy, capacity, buffer, item);
            && multiset(buffer + [item]) == multiset(after) + multiset(dropped)
            && buffer + [item] == (if policy == DropNewest then after + dropped else dropped + after)
            && |after| == Kept(capacity, |buffer| + 1)
  {
    var after, dropped := AfterSend(policy, capacity, buffer, item), DroppedBySend(policy, capacity, buffer, item);
    if policy == DropOldest && |buffer| == capacity {
      assert buffer == [buffer[0]] + buffer[1..];
    }
    assert buffer + [item] == if policy == DropNewest then after + dropped else dropped + after;
  }

  lemma {:induction false} NewestDrops(capacity: nat, items: seq<Item>)
    requires capacity > 0
    ensures DroppedByBurst(DropNewest, capacity, items) == items[Kept(capacity, |items|)..]
  {
    if |items| > 0 {
      var n := |items| - 1;
      NewestDrops(capacity, items[..n]);
      NewestKeeps(capacity, items[..n]);
      assert items[..n] + [items[n]] == items;
      assert n >= capacity ==> items[..n][capacity..] + [items[n]] == items[capacity..];
    }
  }

  lemma {:induction false} OldestDrops(capacity: nat, items: seq<Item>)
    requires capacity > 0
    ensures DroppedByBurst(DropOldest, capacity, items) == items[..|items| - Kept(capacity, |items|)]
  {
    if |items| > 0 {
      var n := |items| - 1;
      OldestDrops(capacity, items[..n]);
      OldestKeeps(capacity, items[..n]);
      var from := n - Kept(capacity, n);
      assert items[..n][..from] == items[..from];
      assert n >= capacity ==> items[..from] + [items[..n][from..][0]] == items[..from + 1];
    }
  }

  /** DropNewest reports the items of a burst after the first min(n, capacity), DropOldest those before the last. */
  lemma BurstDrops(policy: DropPolicy, capacity: nat, items: seq<Item>)
    requires capacity > 0
    ensures policy == DropNewest ==> DroppedByBurst(policy, capacity, items) == items[Kept(capacity, |items|)..]
    ensures policy == DropOldest ==>
              DroppedByBurst(policy, capacity, items) == items[..|items| - Kept(capacity, |items|)]
  {
    NewestDrops(capacity, items);
    OldestDrops(capacity, items);
  }
}
