/**
  Broadcasts across a cluster. Each node offers an item to its own clients, publishes it once, and
  offers what other nodes published; the bus hands every published message once to every node, the
  sender included, in any order. Clients come and go while this happens.
 */
module Relay {
  import opened Options
  import opened Totals
  import RegistryModel

  type Client = RegistryModel.Client

  datatype Item = Item(msgType: int, data: seq<int>)

  /** Whom an API call is for: all clients, a room, the connections of a user, or one client. */
  datatype Target = Everyone | InRoom(room: string) | OfUser(userId: string) | Only(clientId: string)

  datatype Kind =
    | AdapterBroadcast
    | AdapterBroadcastExcept
    | AdapterRoom
    | AdapterRoomExcept
    | AdapterUser
    | AdapterClient
    | AdapterPresence

  /** `to` is the room, user id or client id; `call` is a history variable: the API call that published the message. */
  datatype Message = Message(kind: Kind, nodeId: string, item: Item, to: string, exceptIds: seq<string>, call: nat)

  /** What one node finds in its registry: its snapshots and indexes. */
  datatype View = View(
    snapshot: seq<Client>, rooms: map<string, seq<Client>>, users: map<string, seq<Client>>, index: map<string, Client>)

  function Entries(m: map<string, seq<Client>>, key: string): seq<Client> {
    if key in m then m[key] else []
  }

  /** The clients of this node that a call is for, before exclusions. */
  function Audience(view: View, target: Target): seq<Client> {
    match target
    case Everyone => view.snapshot
    case InRoom(room) => Entries(view.rooms, room)
    case OfUser(userId) => Entries(view.users, userId)
    case Only(clientId) => if clientId in view.index then [view.index[clientId]] else []
  }

  // ---------------------------------------------------------------- exclusion lists

  /** The set is built for lists of more than four entries only. */
  method BuildExcludeSet<T(==)>(except: seq<T>) returns (exclude: Option<set<T>>)
    ensures exclude.None? <==> |except| <= 4
    ensures exclude.Some? ==> forall x :: x in exclude.value <==> x in except
  {
    if |except| <= 4 {
      return None;
    }
    var them: set<T> := {};
    for i := 0 to |except|
      invariant forall x :: x in them <==> x in except[..i]
    {
      them := them + {except[i]};
    }
    return Some(them);
  }

  predicate IsExcluded<T(==)>(x: T, except: seq<T>, exclude: Option<set<T>>) {
    if exclude.Some? then x in exclude.value else x in except
  }

  /** The clients a broadcast is for, in snapshot order. */
  function Kept(clients: seq<Client>, except: seq<Client>): seq<Client> {
    if |clients| == 0 then []
    else
      var c := clients[|clients| - 1];
      Kept(clients[..|clients| - 1], except) + if c in except then [] else [c]
  }

  function KeptById(clients: seq<Client>, ids: seq<string>): seq<Client> {
    if |clients| == 0 then []
    else
      var c := clients[|clients| - 1];
      KeptById(clients[..|clients| - 1], ids) + if c.id in ids then [] else [c]
  }

  function Ids(clients: seq<Client>): (ids: seq<string>)
    ensures |ids| == |clients|
    ensures forall i :: 0 <= i < |clients| ==> ids[i] == clients[i].id
  {
    if |clients| == 0 then [] else Ids(clients[..|clients| - 1]) + [clients[|clients| - 1].id]
  }

  ghost predicate DistinctIds(population: set<Client>) {
    forall c, d :: c in population && d in population && c.id == d.id ==> c == d
  }

  ghost predicate Among(clients: seq<Client>, population: set<Client>) {
    forall i :: 0 <= i < |clients| ==> clients[i] in population
  }

  ghost predicate NoDuplicates(clients: seq<Client>) {
    forall i, j :: 0 <= i < j < |clients| ==> clients[i] != clients[j]
  }

  /** With distinct client ids, excluding by id on another node excludes the same clients. */
  lemma {:induction false} IdsExcludeTheSame(clients: seq<Client>, except: seq<Client>, population: set<Client>)
    requires DistinctIds(population) && Among(clients, population) && Among(except, population)
    ensures KeptById(clients, Ids(except)) == Kept(clients, except)
  {
    if |clients| > 0 {
      var n := |clients| - 1;
      IdsExcludeTheSame(clients[..n], except, population);
      var c := clients[n];
      if c.id in Ids(except) {
        var i :| 0 <= i < |except| && Ids(except)[i] == c.id;
        assert except[i] == c;
      }
    }
  }

  lemma {:induction false} NothingExcluded(clients: seq<Client>)
    ensures Kept(clients, []) == clients
  {
    if |clients| > 0 {
      var n := |clients| - 1;
      NothingExcluded(clients[..n]);
      assert clients == clients[..n] + [clients[n]];
    }
  }

  /** Each client of a duplicate-free snapshot is offered the item once, unless it is excluded. */
  lemma {:induction false} KeptCounts(clients: seq<Client>, except: seq<Client>, c: Client)
    requires NoDuplicates(clients)
    ensures multiset(Kept(clients, except))[c] == if c in clients && c !in except then 1 else 0
  {
    if |clients| > 0 {
      var n := |clients| - 1;
      KeptCounts(clients[..n], except, c);
      assert clients == clients[..n] + [clients[n]];
    }
  }

  // ---------------------------------------------------------------- the loops of one node

  /** broadcastExceptClients; in parallel mode the filtered list goes to the worker pool as a whole. */
  method BroadcastExceptClients(clients: seq<Client>, except: seq<Client>, useParallel: bool)
      returns (offered: seq<Client>)
    ensures offered == Kept(clients, except)
  {
    var exclude := BuildExcludeSet(except);
    offered := [];
    if useParallel {
      var filtered := [];
      for i := 0 to |clients|
        invariant filtered == Kept(clients[..i], except)
      {
        assert clients[..i + 1][..i] == clients[..i];
        if !IsExcluded(clients[i], except, exclude) {
          filtered := filtered + [clients[i]];
        }
      }
      offered := filtered;
    } else {
      for i := 0 to |clients|
        invariant offered == Kept(clients[..i], except)
      {
        assert clients[..i + 1][..i] == clients[..i];
        if !IsExcluded(clients[i], except, exclude) {
          offered := offered + [clients[i]];
        }
      }
    }
    assert clients[..|clients|] == clients;
  }

  method BroadcastExceptByIds(snapshot: seq<Client>, exceptIds: seq<string>) returns (offered: seq<Client>)
    ensures offered == KeptById(snapshot, exceptIds)
  {
    if |exceptIds| == 0 {
      NoIdsExcluded(snapshot);
      return snapshot;
    }
    var exclude := BuildExcludeSet(exceptIds);
    offered := [];
    for i := 0 to |snapshot|
      invariant offered == KeptById(snapshot[..i], exceptIds)
    {
      assert snapshot[..i + 1][..i] == snapshot[..i];
      if !IsExcluded(snapshot[i].id, exceptIds, exclude) {
        offered := offered + [snapshot[i]];
      }
    }
    assert snapshot[..|snapshot|] == snapshot;
  }

  lemma {:induction false} NoIdsExcluded(clients: seq<Client>)
    ensures KeptById(clients, []) == clients
  {
    if |clients| > 0 {
      var n := |clients| - 1;
      NoIdsExcluded(clients[..n]);
      assert clients == clients[..n] + [clients[n]];
    }
  }

  ghost function KindOf(target: Target, except: seq<Client>): Kind {
    match target
    case Everyone => if |except| > 0 then AdapterBroadcastExcept else AdapterBroadcast
    case InRoom(_) => if |except| > 0 then AdapterRoomExcept else AdapterRoom
    case OfUser(_) => AdapterUser
    case Only(_) => AdapterClient
  }

  ghost function AddressOf(target: Target): string {
    match target
    case Everyone => ""
    case InRoom(room) => room
    case OfUser(userId) => userId
    case Only(clientId) => clientId
  }

  ghost function MessageOf(nodeId: string, item: Item, target: Target, except: seq<Client>, call: nat): Message {
    Message(KindOf(target, except), nodeId, item, AddressOf(target), Ids(except), call)
  }

  /** The ids that a call with exclusions publishes. */
  method IdList(except: seq<Client>) returns (ids: seq<string>)
    ensures ids == Ids(except)
  {
    ids := [];
    for i := 0 to |except|
      invariant ids == Ids(except[..i])
    {
      assert except[..i + 1][..i] == except[..i];
      ids := ids + [except[i].id];
    }
    assert except[..|except|] == except;
  }

  /** The message an API call publishes. */
  method MessageFor(nodeId: string, item: Item, target: Target, except: seq<Client>, ghost call: nat)
      returns (kind: Kind, to: string, exceptIds: seq<string>)
    ensures Message(kind, nodeId, item, to, exceptIds, call) == MessageOf(nodeId, item, target, except, call)
  {
    exceptIds := IdList(except);
    match target {
      case Everyone => kind, to := if |except| > 0 then AdapterBroadcastExcept else AdapterBroadcast, "";
      case InRoom(room) => kind, to := if |except| > 0 then AdapterRoomExcept else AdapterRoom, room;
      case OfUser(userId) => kind, to := AdapterUser, userId;
      case Only(clientId) => kind, to := AdapterClient, clientId;
    }
  }

  /** What an API call offers on its own node: nothing when the room, the user or the client is not known there. */
  method OfferLocally(view: View, target: Target, except: seq<Client>, useParallel: bool) returns (offered: seq<Client>)
    requires target.OfUser? || target.Only? ==> except == []
    ensures offered == Kept(Audience(view, target), except)
  {
    match target {
      case Everyone => offered := BroadcastExceptClients(view.snapshot, except, useParallel);
      case InRoom(room) =>
        offered := [];
        if room in view.rooms {
          offered := BroadcastExceptClients(view.rooms[room], except, useParallel);
        }
      case OfUser(userId) => offered := if userId in view.users then view.users[userId] else [];
      case Only(clientId) => offered := if clientId in view.index then [view.index[clientId]] else [];
    }
    NothingExcluded(Audience(view, target));
  }

  /** Whom a node offers a message of another node to. */
  ghost function Heard(view: View, m: Message): seq<Client> {
    match m.kind
    case AdapterBroadcast => view.snapshot
    case AdapterBroadcastExcept => KeptById(view.snapshot, m.exceptIds)
    case AdapterRoom => Entries(view.rooms, m.to)
    case AdapterRoomExcept => KeptById(Entries(view.rooms, m.to), m.exceptIds)
    case AdapterUser => Entries(view.users, m.to)
    case AdapterClient => if m.to in view.index then [view.index[m.to]] else []
    case AdapterPresence => []
  }

  /** A node's own messages are ignored, others offered locally; presence reports go to the cache instead. */
  method HandleAdapterMessage(nodeId: string, view: View, m: Message) returns (offered: seq<Client>)
    ensures offered == if m.nodeId == nodeId then [] else Heard(view, m)
    ensures m.nodeId == nodeId || m.kind == AdapterPresence ==> offered == []
  {
    offered := [];
    if m.nodeId == nodeId {
      return;
    }
    match m.kind {
      case AdapterBroadcast => offered := view.snapshot;
      case AdapterBroadcastExcept => offered := BroadcastExceptByIds(view.snapshot, m.exceptIds);
      case AdapterRoom =>
        if m.to in view.rooms {
          offered := view.rooms[m.to];
        }
      case AdapterRoomExcept =>
        if m.to in view.rooms {
          offered := BroadcastExceptByIds(view.rooms[m.to], m.exceptIds);
        }
      case AdapterUser =>
        if m.to in view.users {
          offered := view.users[m.to];
        }
      case AdapterClient =>
        if m.to in view.index {
          offered := [view.index[m.to]];
        }
      case AdapterPresence =>
    }
  }

  /** What is heard of a message are those its call is for, without the excluded ids. */
  lemma HeardByAddress(view: View, nodeId: string, item: Item, target: Target, except: seq<Client>, call: nat)
    requires target.OfUser? || target.Only? ==> except == []
    ensures Heard(view, MessageOf(nodeId, item, target, except, call)) ==
            if except == [] then Audience(view, target) else KeptById(Audience(view, target), Ids(except))
  {}

  lemma AudienceFits(view: View, population: set<Client>, target: Target)
    requires ViewFits(view, population)
    ensures NoDuplicates(Audience(view, target)) && Among(Audience(view, target), population)
  {}

  /** Handling a published call offers its item to those the call is for. */
  lemma HeardIsAudience(
      view: View, population: set<Client>, nodeId: string, item: Item, target: Target, except: seq<Client>, call: nat)
    requires DistinctIds(population) && ViewFits(view, population) && Among(except, population)
    requires target.OfUser? || target.Only? ==> except == []
    ensures Heard(view, MessageOf(nodeId, item, target, except, call)) == Kept(Audience(view, target), except)
  {
    HeardByAddress(view, nodeId, item, target, except, call);
    AudienceFits(view, population, target);
    NothingExcluded(Audience(view, target));
    IdsExcludeTheSame(Audience(view, target), except, population);
  }

  ghost predicate AllFit(m: map<string, seq<Client>>, population: set<Client>) {
    forall key :: key in m ==> Among(m[key], population) && NoDuplicates(m[key])
  }

  /** Snapshots and index entries list clients without repetition. */
  ghost predicate ViewFits(view: View, population: set<Client>) {
    && Among(view.snapshot, population) && NoDuplicates(view.snapshot)
    && AllFit(view.rooms, population) && AllFit(view.users, population)
    && view.index.Values <= population
  }

  // ---------------------------------------------------------------- the cluster

  /**
    Where an API call is: it has offered the item locally, and then published it, failed to, or had no
    need to, because the one client it is for was found locally.
   */
  datatype Phase = Offered | Published | Failed | Local

  datatype Call = Call(node: nat, item: Item, target: Target, except: seq<Client>, phase: Phase)

  /** History of one pass over the clients a call is for. */
  datatype Delivery = Delivery(call: nat, item: Item, audience: seq<Client>, offered: seq<Client>)

  datatype Node = Node(id: string, view: View, inbox: seq<Message>, log: seq<Delivery>)

  datatype State = State(nodes: seq<Node>, calls: seq<Call>)

  datatype Step =
    | NewView(n: nat, view: View)
    | Broadcast(n: nat, item: Item, target: Target, except: seq<Client>)
    | Publish(k: nat, ok: bool)
    | Handle(n: nat, i: nat)

  const EmptyView: View := View([], map[], map[], map[])

  ghost predicate Init(s: State) {
    && s.calls == []
    && (forall n :: 0 <= n < |s.nodes| ==>
          s.nodes[n].view == EmptyView && s.nodes[n].inbox == [] && s.nodes[n].log == [])
    && forall m, n :: 0 <= m < n < |s.nodes| ==> s.nodes[m].id != s.nodes[n].id
  }

  ghost function Sent(s: State, k: nat): Message
    requires k < |s.calls| && s.calls[k].node < |s.nodes|
  {
    MessageOf(s.nodes[s.calls[k].node].id, s.calls[k].item, s.calls[k].target, s.calls[k].except, k)
  }

  function Without<T>(xs: seq<T>, i: nat): seq<T>
    requires i < |xs|
  {
    xs[..i] + xs[i + 1..]
  }

  /** Every node, the sender too, finds the message in its inbox. */
  ghost function Received(nodes: seq<Node>, m: Message): (r: seq<Node>)
    ensures |r| == |nodes|
    ensures forall n :: 0 <= n < |nodes| ==> r[n] == nodes[n].(inbox := nodes[n].inbox + [m])
  {
    seq(|nodes|, n requires 0 <= n < |nodes| => nodes[n].(inbox := nodes[n].inbox + [m]))
  }

  /** The clients of this node a message is for, before exclusions. */
  ghost function Reached(view: View, m: Message): seq<Client> {
    match m.kind
    case AdapterBroadcast | AdapterBroadcastExcept => view.snapshot
    case AdapterRoom | AdapterRoomExcept => Entries(view.rooms, m.to)
    case _ => Heard(view, m)
  }

  ghost function AfterHandling(node: Node, i: nat): Node
    requires i < |node.inbox|
  {
    var m := node.inbox[i];
    var rest := node.(inbox := Without(node.inbox, i));
    if m.nodeId == node.id then rest
    else
      rest.(log := node.log + [Delivery(m.call, m.item, Reached(node.view, m), Heard(node.view, m))])
  }

  ghost predicate Next(population: set<Client>, s: State, step: Step, t: State) {
    match step
    case NewView(n, view) =>
      && n < |s.nodes| && ViewFits(view, population)
      && t == s.(nodes := s.nodes[n := s.nodes[n].(view := view)])
    case Broadcast(n, item, target, except) =>
      && n < |s.nodes| && Among(except, population) && (target.OfUser? || target.Only? ==> except == [])
      && var audience := Audience(s.nodes[n].view, target);
         var d := Delivery(|s.calls|, item, audience, Kept(audience, except));
         var phase := if target.Only? && audience != [] then Local else Offered;
         t == State(s.nodes[n := s.nodes[n].(log := s.nodes[n].log + [d])],
                    s.calls + [Call(n, item, target, except, phase)])
    case Publish(k, ok) =>
      && k < |s.calls| && s.calls[k].phase == Offered && s.calls[k].node < |s.nodes|
      && t == State(if ok then Received(s.nodes, Sent(s, k)) else s.nodes,
                    s.calls[k := s.calls[k].(phase := if ok then Published else Failed)])
    case Handle(n, i) =>
      && n < |s.nodes| && i < |s.nodes[n].inbox|
      && t == s.(nodes := s.nodes[n := AfterHandling(s.nodes[n], i)])
  }

  ghost predicate Run(population: set<Client>, states: seq<State>, steps: seq<Step>) {
    && DistinctIds(population)
    && |states| == |steps| + 1 && Init(states[0])
    && forall i :: 0 <= i < |steps| ==> Next(population, states[i], steps[i], states[i + 1])
  }
}
