/**
  runDrainReaper: on every tick, close the clients whose send buffer has been seen empty for the
  whole drain timeout. The loop is proved against a one-client recurrence, and the recurrence
  against a two-sided bound on when a client is closed.
 */
module IdleReaper {
  import opened Options

  type Client = nat

  /** What one tick observes: the time, the client snapshot and the length of each send buffer. */
  datatype Tick = Tick(now: int, snapshot: seq<Client>, queued: Client -> nat)

  ghost predicate NoDuplicates(snapshot: seq<Client>) {
    forall i, j :: 0 <= i < j < |snapshot| ==> snapshot[i] != snapshot[j]
  }

  ghost predicate IdleAt(tick: Tick, c: Client) {
    c in tick.snapshot && tick.queued(c) == 0
  }

  function Lookup(m: map<Client, int>, c: Client): Option<int> {
    if c in m then Some(m[c]) else None
  }

  /** Whether this tick closes c, given when c was first seen idle. */
  ghost predicate Closes(timeout: int, first: Option<int>, tick: Tick, c: Client) {
    IdleAt(tick, c) && first.Some? && tick.now - first.value >= timeout
  }

  /** When c counts as first idle after this tick. */
  ghost function NextFirst(timeout: int, first: Option<int>, tick: Tick, c: Client): Option<int> {
    if !IdleAt(tick, c) || Closes(timeout, first, tick, c) then None
    else if first.Some? then first else Some(tick.now)
  }

  /** When c counts as first idle before tick i of the run. */
  ghost function FirstIdle(timeout: int, ticks: seq<Tick>, i: nat, c: Client): Option<int>
    requires i <= |ticks|
  {
    if i == 0 then None else NextFirst(timeout, FirstIdle(timeout, ticks, i - 1, c), ticks[i - 1], c)
  }

  ghost predicate ClosesAt(timeout: int, ticks: seq<Tick>, i: nat, c: Client)
    requires i < |ticks|
  {
    Closes(timeout, FirstIdle(timeout, ticks, i, c), ticks[i], c)
  }

  class Reaper {
    const drainTimeout: int
    var firstIdleAt: map<Client, int>
    var closed: seq<set<Client>>  // the clients CloseWithCode was called on, tick by tick

    constructor (drainTimeout: int)
      ensures this.drainTimeout == drainTimeout && firstIdleAt == map[] && closed == []
    {
      this.drainTimeout := drainTimeout;
      firstIdleAt := map[];
      closed := [];
    }

    /** Forget clients that are no longer in the snapshot. */
    method Forget(snapshot: seq<Client>)
      modifies this`firstIdleAt
      ensures forall c :: Lookup(firstIdleAt, c) == if c in snapshot then Lookup(old(firstIdleAt), c) else None
    {
      var tracked := firstIdleAt.Keys;
      ghost var seen := {};
      while tracked != {}
        invariant seen + tracked == old(firstIdleAt).Keys && seen !! tracked
        invariant forall c :: Lookup(firstIdleAt, c) ==
                    if c in seen && c !in snapshot then None else Lookup(old(firstIdleAt), c)
        decreases |tracked|
      {
        var c :| c in tracked;
        if c !in snapshot {
          firstIdleAt := firstIdleAt - {c};
        }
        tracked := tracked - {c};
        seen := seen + {c};
      }
    }

    method OnTick(tick: Tick)
      requires NoDuplicates(tick.snapshot)
      modifies this
      ensures forall c :: Lookup(firstIdleAt, c) == NextFirst(drainTimeout, Lookup(old(firstIdleAt), c), tick, c)
      ensures |closed| == |old(closed)| + 1 && closed[..|old(closed)|] == old(closed)
      ensures forall c :: c in closed[|old(closed)|] <==> Closes(drainTimeout, Lookup(old(firstIdleAt), c), tick, c)
    {
      Forget(tick.snapshot);
      var closing: set<Client> := {};
      for i := 0 to |tick.snapshot|
        invariant closed == old(closed)
        invariant forall c :: Lookup(firstIdleAt, c) ==
                    if c in tick.snapshot[..i] then NextFirst(drainTimeout, Lookup(old(firstIdleAt), c), tick, c)
                    else if c in tick.snapshot then Lookup(old(firstIdleAt), c) else None
        invariant forall c :: c in closing <==>
                    c in tick.snapshot[..i] && Closes(drainTimeout, Lookup(old(firstIdleAt), c), tick, c)
      {
        var client := tick.snapshot[i];
        assert tick.snapshot[..i + 1] == tick.snapshot[..i] + [client];
        assert Lookup(firstIdleAt, client) == Lookup(old(firstIdleAt), client);
        if tick.queued(client) == 0 {
          if client !in firstIdleAt {
            firstIdleAt := firstIdleAt[client := tick.now];
          } else if tick.now - firstIdleAt[client] >= drainTimeout {
            closing := closing + {client};
            firstIdleAt := firstIdleAt - {client};
          }
        } else {
          firstIdleAt := firstIdleAt - {client};
        }
      }
      assert tick.snapshot[..|tick.snapshot|] == tick.snapshot;
      closed := closed + [closing];
    }

    /** The goroutine's loop over the ticks that arrive before drainDone or shutdown ends it. */
    method Run(ticks: seq<Tick>)
      requires forall i :: 0 <= i < |ticks| ==> NoDuplicates(ticks[i].snapshot)
      requires firstIdleAt == map[] && closed == []
      modifies this
      ensures |closed| == |ticks|
      ensures forall i, c :: 0 <= i < |ticks| ==> (c in closed[i] <==> ClosesAt(drainTimeout, ticks, i, c))
    {
      for n := 0 to |ticks|
        invariant |closed| == n
        invariant forall c :: Lookup(firstIdleAt, c) == FirstIdle(drainTimeout, ticks, n, c)
        invariant forall i, c :: 0 <= i < n ==> (c in closed[i] <==> ClosesAt(drainTimeout, ticks, i, c))
      {
        OnTick(ticks[n]);
      }
    }
  }

  // ---------------------------------------------------------------- when a client is closed

  ghost predicate Ordered(ticks: seq<Tick>) {
    forall i, j :: 0 <= i <= j < |ticks| ==> ticks[i].now <= ticks[j].now
  }

  /** c was idle at every tick from j to i, and no tick before i in that stretch closed it. */
  ghost predicate IdleStretch(timeout: int, ticks: seq<Tick>, j: nat, i: nat, c: Client)
    requires j <= i < |ticks|
  {
    && (forall k :: j <= k <= i ==> IdleAt(ticks[k], c))
    && (forall k :: j <= k < i ==> !ClosesAt(timeout, ticks, k, c))
  }

  /** The recorded time is that of the tick at which the current stretch began. */
  lemma {:induction false} FirstIdleBegan(timeout: int, ticks: seq<Tick>, i: nat, c: Client) returns (j: nat)
    requires i <= |ticks| && FirstIdle(timeout, ticks, i, c).Some?
    ensures j < i && FirstIdle(timeout, ticks, i, c) == Some(ticks[j].now)
    ensures IdleStretch(timeout, ticks, j, i - 1, c) && !ClosesAt(timeout, ticks, i - 1, c)
  {
    if FirstIdle(timeout, ticks, i - 1, c).Some? {
      j := FirstIdleBegan(timeout, ticks, i - 1, c);
    } else {
      j := i - 1;
    }
  }

  /** Over an idle stretch that closes nothing, the recorded time is never later than the stretch's start. */
  lemma {:induction false} StretchKeepsFirst(timeout: int, ticks: seq<Tick>, j: nat, i: nat, c: Client)
    requires Ordered(ticks) && j < i < |ticks| && IdleStretch(timeout, ticks, j, i, c)
    ensures FirstIdle(timeout, ticks, i, c).Some? && FirstIdle(timeout, ticks, i, c).value <= ticks[j].now
    decreases i
  {
    if j < i - 1 {
      StretchKeepsFirst(timeout, ticks, j, i - 1, c);
    } else if FirstIdle(timeout, ticks, j, c).Some? {
      var k := FirstIdleBegan(timeout, ticks, j, c);
    }
    assert !ClosesAt(timeout, ticks, i - 1, c) && IdleAt(ticks[i - 1], c);
  }

  /**
    Exactly when a tick closes a client: it has been idle at every tick back to one at least
    drainTimeout earlier, with no close in between.
   */
  lemma ClosedExactlyWhenIdle(timeout: int, ticks: seq<Tick>, i: nat, c: Client)
    requires Ordered(ticks) && timeout > 0 && i < |ticks|
    ensures ClosesAt(timeout, ticks, i, c) <==>
              exists j :: 0 <= j < i && IdleStretch(timeout, ticks, j, i, c) && ticks[i].now - ticks[j].now >= timeout
  {
    if ClosesAt(timeout, ticks, i, c) {
      var j := FirstIdleBegan(timeout, ticks, i, c);
      assert IdleStretch(timeout, ticks, j, i, c);
    }
    if j :| 0 <= j < i && IdleStretch(timeout, ticks, j, i, c) && ticks[i].now - ticks[j].now >= timeout {
      StretchKeepsFirst(timeout, ticks, j, i, c);
    }
  }

  /** Consecutive ticks are at most `interval` apart, and the first comes at most that long after `start`. */
  ghost predicate Spaced(ticks: seq<Tick>, start: int, interval: int) {
    && (|ticks| > 0 ==> ticks[0].now <= start + interval)
    && (forall i :: 0 < i < |ticks| ==> ticks[i].now <= ticks[i - 1].now + interval)
  }

  /** The first tick at or after time t, which comes within one interval of it. */
  lemma {:induction false} FirstTickFrom(ticks: seq<Tick>, start: int, interval: int, t: int, n: nat) returns (a: nat)
    requires Spaced(ticks, start, interval) && start <= t && n < |ticks| && t <= ticks[n].now
    ensures a <= n && t <= ticks[a].now <= t + interval
    decreases n
  {
    if n == 0 || ticks[n - 1].now < t {
      a := n;
    } else {
      a := FirstTickFrom(ticks, start, interval, t, n - 1);
    }
  }

  /** No tick since time `since` and before tick k has closed c. */
  ghost predicate StillOpen(timeout: int, ticks: seq<Tick>, since: int, k: nat, c: Client)
    requires k <= |ticks|
  {
    forall m :: 0 <= m < k && since <= ticks[m].now ==> !ClosesAt(timeout, ticks, m, c)
  }

  /**
    A client idle at every tick from time `since` until it is closed, whatever it does afterwards, is
    closed no later than since + drainTimeout + 2 * interval, provided the ticks go on that long.
   */
  lemma IdleClientIsClosed(timeout: int, ticks: seq<Tick>, start: int, interval: int, since: int, c: Client)
    returns (i: nat)
    requires Ordered(ticks) && Spaced(ticks, start, interval)
    requires timeout > 0 && interval > 0 && start <= since
    requires forall k :: 0 <= k < |ticks| && since <= ticks[k].now && StillOpen(timeout, ticks, since, k, c) ==>
               IdleAt(ticks[k], c)
    requires |ticks| > 0 && since + timeout + 2 * interval <= ticks[|ticks| - 1].now
    ensures i < |ticks| && ClosesAt(timeout, ticks, i, c)
    ensures since <= ticks[i].now <= since + timeout + 2 * interval
  {
    var a := FirstTickFrom(ticks, start, interval, since, |ticks| - 1);
    var b := FirstTickFrom(ticks, start, interval, ticks[a].now + timeout, |ticks| - 1);
    if k :| 0 <= k < b && since <= ticks[k].now && ClosesAt(timeout, ticks, k, c) {
      i := k;
    } else {
      assert a < b;
      assert forall k :: a <= k <= b ==> StillOpen(timeout, ticks, since, k, c);
      assert IdleStretch(timeout, ticks, a, b, c);
      ClosedExactlyWhenIdle(timeout, ticks, b, c);
      i := b;
    }
  }
}
