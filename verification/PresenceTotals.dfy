/**
  The presence cache of one hub: reports from other nodes overwrite their entry, ticks evict stale
  entries, and the global counts add the cached reports to the local numbers.
 */
module PresenceTotals {
  import opened Options
  import opened Totals

  type NodeId = string

  /** nodePresence, as decoded from a message. */
  datatype Presence = Presence(nodeId: NodeId, clientCount: nat, rooms: map<string, nat>)

  datatype Stats = Stats(clientCount: nat, rooms: map<string, nat>, lastSeen: int)

  /** What reaches the hub: a message with its originating node, or the tick that evicts. */
  datatype Event =
    | Report(origin: NodeId, presence: Presence, at: int)
    | Tick(at: int)

  ghost predicate Stale(stats: Stats, now: int, ttl: int) {
    stats.lastSeen < now - ttl
  }

  ghost function AfterEvent(self: NodeId, ttl: int, cache: map<NodeId, Stats>, e: Event): map<NodeId, Stats> {
    match e
    case Report(origin, p, at) =>
      if origin == self then cache else cache[p.nodeId := Stats(p.clientCount, p.rooms, at)]
    case Tick(at) =>
      map n | n in cache && !Stale(cache[n], at, ttl) :: cache[n]
  }

  ghost function CacheAfter(self: NodeId, ttl: int, events: seq<Event>): map<NodeId, Stats> {
    if |events| == 0 then map[]
    else AfterEvent(self, ttl, CacheAfter(self, ttl, events[..|events| - 1]), events[|events| - 1])
  }

  /** The sum of a quantity over all cached peers. */
  ghost function SumOver(cache: map<NodeId, Stats>, quantity: Stats -> nat): nat
    decreases |cache|
  {
    if cache == map[] then 0
    else
      var n :| n in cache;
      quantity(cache[n]) + SumOver(cache - {n}, quantity)
  }

  lemma {:induction false} SumSplit(cache: map<NodeId, Stats>, quantity: Stats -> nat, n: NodeId)
    requires n in cache
    ensures SumOver(cache, quantity) == quantity(cache[n]) + SumOver(cache - {n}, quantity)
    decreases |cache|
  {
    var m :| m in cache && SumOver(cache, quantity) == quantity(cache[m]) + SumOver(cache - {m}, quantity);
    if m != n {
      SumSplit(cache - {m}, quantity, n);
      SumSplit(cache - {n}, quantity, m);
      assert cache - {m} - {n} == cache - {n} - {m};
    }
  }

  function InRoom(stats: Stats, room: string): nat {
    if room in stats.rooms then stats.rooms[room] else 0
  }

  class Hub {
    const self: NodeId
    const enabled: bool  // a nil presenceCache means presence is off
    const ttl: int
    var cache: map<NodeId, Stats>

    constructor (self: NodeId, enabled: bool, ttl: int)
      ensures this.self == self && this.enabled == enabled && this.ttl == ttl && cache == map[]
    {
      this.self, this.enabled, this.ttl := self, enabled, ttl;
      cache := map[];
    }

    /** handleAdapterMessage and handlePresenceMessage: messages of this very node are ignored. */
    method HandleReport(origin: NodeId, p: Presence, now: int)
      modifies this
      ensures cache == if enabled then AfterEvent(self, ttl, old(cache), Report(origin, p, now)) else old(cache)
    {
      if origin == self {
        return;
      }
      if !enabled {
        return;
      }
      cache := cache[p.nodeId := Stats(p.clientCount, p.rooms, now)];
    }

    method EvictStaleNodes(now: int)
      modifies this
      ensures cache == AfterEvent(self, ttl, old(cache), Tick(now))
    {
      var cutoff := now - ttl;
      var nodes := cache.Keys;
      while nodes != {}
        invariant nodes <= cache.Keys <= old(cache).Keys
        invariant forall n :: n in cache ==> cache[n] == old(cache)[n]
        invariant forall n :: n in old(cache) && n !in nodes ==> (n in cache <==> !Stale(old(cache)[n], now, ttl))
        decreases |nodes|
      {
        var nodeId :| nodeId in nodes;
        if cache[nodeId].lastSeen < cutoff {
          cache := cache - {nodeId};
        }
        nodes := nodes - {nodeId};
      }
    }

    method GlobalClientCount(localCount: nat) returns (total: nat)
      ensures total == if enabled then localCount + SumOver(cache, (s: Stats) => s.clientCount) else localCount
    {
      total := localCount;
      if !enabled {
        return;
      }
      ghost var quantity := (s: Stats) => s.clientCount;
      var rest := cache;
      while rest != map[]
        invariant total + SumOver(rest, quantity) == localCount + SumOver(cache, quantity)
        decreases |rest|
      {
        var n :| n in rest;
        SumSplit(rest, quantity, n);
        total := total + rest[n].clientCount;
        rest := rest - {n};
      }
    }

    method GlobalRoomCount(localCount: nat, room: string) returns (total: nat)
      ensures total == if enabled then localCount + SumOver(cache, (s: Stats) => InRoom(s, room)) else localCount
    {
      total := localCount;
      if !enabled {
        return;
      }
      ghost var quantity := (s: Stats) => InRoom(s, room);
      var rest := cache;
      while rest != map[]
        invariant total + SumOver(rest, quantity) == localCount + SumOver(cache, quantity)
        decreases |rest|
      {
        var n :| n in rest;
        SumSplit(rest, quantity, n);
        total := total + InRoom(rest[n], room);
        rest := rest - {n};
      }
    }

    /** Any history of reports and ticks, and the count a caller then reads. */
    method CountAfter(events: seq<Event>, localCount: nat) returns (total: nat)
      requires enabled && cache == map[]
      modifies this
      ensures cache == CacheAfter(self, ttl, events)
      ensures total == localCount + SumOver(CacheAfter(self, ttl, events), (s: Stats) => s.clientCount)
    {
      for i := 0 to |events|
        invariant cache == CacheAfter(self, ttl, events[..i])
      {
        assert events[..i + 1][..i] == events[..i];
        match events[i] {
          case Report(origin, p, at) => HandleReport(origin, p, at);
          case Tick(at) => EvictStaleNodes(at);
        }
      }
      assert events[..|events|] == events;
      total := GlobalClientCount(localCount);
    }
  }

  // ---------------------------------------------------------------- which reports are counted

  ghost predicate About(e: Event, self: NodeId, n: NodeId) {
    e.Report? && e.origin != self && e.presence.nodeId == n
  }

  /** Event k is the last accepted report about n. */
  ghost predicate LastReport(self: NodeId, events: seq<Event>, n: NodeId, k: nat) {
    && k < |events| && About(events[k], self, n)
    && forall j :: k < j < |events| ==> !About(events[j], self, n)
  }

  ghost predicate Survives(ttl: int, events: seq<Event>, k: nat)
    requires k < |events|
  {
    forall j :: k < j < |events| && events[j].Tick? ==> events[j].at - ttl <= events[k].at
  }

  ghost function StatsOf(e: Event): Stats
    requires e.Report?
  {
    Stats(e.presence.clientCount, e.presence.rooms, e.at)
  }

  /**
    The cache holds exactly the peers whose last report no tick has found stale, each with that last
    report.
   */
  lemma {:induction false} CachedExactlyWhenFresh(self: NodeId, ttl: int, events: seq<Event>, n: NodeId)
    ensures n in CacheAfter(self, ttl, events) <==>
              exists k: nat :: LastReport(self, events, n, k) && Survives(ttl, events, k)
    ensures forall k: nat :: LastReport(self, events, n, k) && n in CacheAfter(self, ttl, events) ==>
              CacheAfter(self, ttl, events)[n] == StatsOf(events[k])
  {
    if |events| > 0 {
      var m := |events| - 1;
      var front := events[..m];
      CachedExactlyWhenFresh(self, ttl, front, n);
      if About(events[m], self, n) {
        assert LastReport(self, events, n, m);
      } else {
        forall k | 0 <= k < m
          ensures LastReport(self, events, n, k) <==> LastReport(self, front, n, k)
          ensures LastReport(self, events, n, k) ==>
                    (Survives(ttl, events, k) <==>
                     Survives(ttl, front, k) && (events[m].Tick? ==> events[m].at - ttl <= events[k].at))
        {}
      }
    }
  }

  /** Hubs publish their own node id. */
  ghost predicate Genuine(events: seq<Event>) {
    forall i :: 0 <= i < |events| && events[i].Report? ==> events[i].presence.nodeId == events[i].origin
  }

  /** A node never counts itself twice: it is never in its own cache. */
  lemma {:induction false} NeverInOwnCache(self: NodeId, ttl: int, events: seq<Event>)
    requires Genuine(events)
    ensures self !in CacheAfter(self, ttl, events)
  {
    CachedExactlyWhenFresh(self, ttl, events, self);
  }

  ghost predicate Ordered(events: seq<Event>) {
    forall i, j :: 0 <= i <= j < |events| ==> events[i].at <= events[j].at
  }

  lemma {:induction false} LastReportExists(self: NodeId, events: seq<Event>, n: NodeId, first: nat) returns (k: nat)
    requires first < |events| && About(events[first], self, n)
    ensures LastReport(self, events, n, k) && first <= k
    decreases |events|
  {
    var m := |events| - 1;
    if About(events[m], self, n) {
      k := m;
    } else {
      k := LastReportExists(self, events[..m], n, first);
    }
  }

  /**
    From event `first` on, reports about n are at most one TTL apart: each is followed by another within
    the TTL, unless the history ends within the TTL.
   */
  ghost predicate ReportsKeepUp(self: NodeId, ttl: int, events: seq<Event>, n: NodeId, first: nat) {
    && first < |events| && About(events[first], self, n)
    && forall k :: first <= k < |events| && About(events[k], self, n) ==> FollowedUp(self, ttl, events, n, k)
  }

  ghost predicate FollowedUp(self: NodeId, ttl: int, events: seq<Event>, n: NodeId, k: nat)
    requires k < |events|
  {
    || events[|events| - 1].at <= events[k].at + ttl
    || exists l :: k < l < |events| && About(events[l], self, n) && events[l].at <= events[k].at + ttl
  }

  /** A peer whose reports are never more than the TTL apart is not evicted once it has reported. */
  lemma TimelyPeerStays(self: NodeId, ttl: int, events: seq<Event>, n: NodeId, first: nat)
    requires Ordered(events) && ReportsKeepUp(self, ttl, events, n, first)
    ensures n in CacheAfter(self, ttl, events)
  {
    var last := LastReportExists(self, events, n, first);
    assert FollowedUp(self, ttl, events, n, last);
    assert events[|events| - 1].at <= events[last].at + ttl;
    assert Survives(ttl, events, last);
    CachedExactlyWhenFresh(self, ttl, events, n);
  }

  /** Some tick after event k falls in the interval that starts right after time t. */
  ghost predicate TickWithin(events: seq<Event>, k: nat, t: int, interval: int) {
    exists j :: k < j < |events| && events[j].Tick? && t < events[j].at <= t + interval
  }

  /** From event k on, ticks are at most `interval` apart. */
  ghost predicate TicksKeepUp(events: seq<Event>, k: nat, interval: int)
    requires k < |events|
  {
    forall t :: events[k].at <= t <= events[|events| - 1].at - interval ==> TickWithin(events, k, t, interval)
  }

  /** A peer that last reported at event k is gone by its report plus the TTL plus one tick interval. */
  lemma SilentPeerGoes(self: NodeId, ttl: int, interval: int, events: seq<Event>, n: NodeId, k: nat)
    requires Ordered(events) && LastReport(self, events, n, k) && ttl >= 0
    requires TicksKeepUp(events, k, interval)
    requires events[|events| - 1].at >= events[k].at + ttl + interval
    ensures n !in CacheAfter(self, ttl, events)
  {
    assert TickWithin(events, k, events[k].at + ttl, interval);
    assert !Survives(ttl, events, k);
    CachedExactlyWhenFresh(self, ttl, events, n);
  }

  // ---------------------------------------------------------------- what the totals add up

  ghost predicate Distinct(nodes: seq<NodeId>) {
    forall i, j :: 0 <= i < j < |nodes| ==> nodes[i] != nodes[j]
  }

  /** The sum over the cache, taken along any enumeration of the peers in it. */
  lemma {:induction false} SumAlong(
      cache: map<NodeId, Stats>, quantity: Stats -> nat, nodes: seq<NodeId>, weight: NodeId -> nat)
    requires Distinct(nodes) && cache.Keys == set n | n in nodes
    requires forall n :: n in cache ==> weight(n) == quantity(cache[n])
    ensures SumOver(cache, quantity) == Total(weight, nodes)
    decreases |nodes|
  {
    if |nodes| > 0 {
      var front, n := nodes[..|nodes| - 1], nodes[|nodes| - 1];
      assert n in cache.Keys;
      assert (cache - {n}).Keys == set m | m in front;
      SumSplit(cache, quantity, n);
      SumAlong(cache - {n}, quantity, front, weight);
    }
  }

  /** The peers with a report that no tick has found stale, and where in the history it is. */
  ghost predicate FreshReports(
      self: NodeId, ttl: int, events: seq<Event>, nodes: seq<NodeId>, last: map<NodeId, nat>)
  {
    && Distinct(nodes) && last.Keys == (set n | n in nodes)
    && (forall n :: n in last ==> LastReport(self, events, n, last[n]) && Survives(ttl, events, last[n]))
    && forall n, k: nat :: LastReport(self, events, n, k) && Survives(ttl, events, k) ==> n in last
  }

  lemma FreshAreCached(self: NodeId, ttl: int, events: seq<Event>, nodes: seq<NodeId>, last: map<NodeId, nat>)
    requires FreshReports(self, ttl, events, nodes, last)
    ensures CacheAfter(self, ttl, events).Keys == set n | n in nodes
    ensures forall n :: n in last ==> last[n] < |events| && events[last[n]].Report?
    ensures forall n :: n in last ==>
              n in CacheAfter(self, ttl, events) && CacheAfter(self, ttl, events)[n] == StatsOf(events[last[n]])
  {
    forall n
      ensures n in CacheAfter(self, ttl, events) <==> n in last
      ensures n in last ==> last[n] < |events| && events[last[n]].Report?
      ensures n in last ==> CacheAfter(self, ttl, events)[n] == StatsOf(events[last[n]])
    {
      CachedExactlyWhenFresh(self, ttl, events, n);
    }
  }

  /** The members a peer reported for the room; it has none there if its report does not name the room. */
  ghost predicate Reported(e: Event, room: string, size: nat) {
    e.Report? && if room in e.presence.rooms then size == e.presence.rooms[room] else size == 0
  }

  /**
    After any history, what the peers add to the two global counts is, over the peers whose last report is
    not stale, the sum of the client counts, and of the room's members, in those last reports.
   */
  lemma TotalsAddLastReports(
      self: NodeId, ttl: int, events: seq<Event>, nodes: seq<NodeId>, last: map<NodeId, nat>, room: string,
      clients: NodeId -> nat, members: NodeId -> nat)
    requires FreshReports(self, ttl, events, nodes, last)
    requires forall n :: n in last ==> last[n] < |events| && events[last[n]].Report?
    requires forall n :: n in last ==> clients(n) == events[last[n]].presence.clientCount
    requires forall n :: n in last ==> Reported(events[last[n]], room, members(n))
    ensures SumOver(CacheAfter(self, ttl, events), (s: Stats) => s.clientCount) == Total(clients, nodes)
    ensures SumOver(CacheAfter(self, ttl, events), (s: Stats) => InRoom(s, room)) == Total(members, nodes)
  {
    FreshAreCached(self, ttl, events, nodes, last);
    SumAlong(CacheAfter(self, ttl, events), (s: Stats) => s.clientCount, nodes, clients);
    SumAlong(CacheAfter(self, ttl, events), (s: Stats) => InRoom(s, room), nodes, members);
  }
}
