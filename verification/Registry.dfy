/**
  The hub's registry: each method runs on its own and changes the hub's maps in place. The fields of
  clients and rooms that these methods change are kept in maps of the hub, by client and by room name.
  Every method is specified by the operation of RegistryModel that it carries out.
 */
module Registry {
  import opened RegistryModel

  ghost predicate Enumerates(xs: seq<Client>, members: set<Client>) {
    && (forall i, j :: 0 <= i < j < |xs| ==> xs[i] != xs[j])
    && (forall i :: 0 <= i < |xs| ==> xs[i] in members)
    && (forall c :: c in members ==> c in xs)
  }

  method Enumeration(members: set<Client>) returns (xs: seq<Client>)
    ensures Enumerates(xs, members)
  {
    xs := [];
    var rest := members;
    while rest != {}
      invariant rest <= members
      invariant Enumerates(xs, members - rest)
      decreases |rest|
    {
      var c :| c in rest;
      xs, rest := xs + [c], rest - {c};
    }
  }

  /** What the Run loop finds pending on its two channels. */
  datatype Pending = Registration(c: Client) | Unregistration(c: Client)

  ghost function AfterPending(s: State, events: seq<Pending>): (t: State)
    requires forall e :: e in events ==> e.c in s.userOf && e.c in s.roomsOf
    ensures t.userOf.Keys == s.userOf.Keys && t.roomsOf.Keys == s.roomsOf.Keys
  {
    if |events| == 0 then s
    else
      var t := AfterPending(s, events[..|events| - 1]);
      var e := events[|events| - 1];
      assert e in events;
      if e.Registration? then Register(t, e.c).state else Unregister(t, e.c)
  }

  /** The room exists, made empty if need be. */
  ghost function Found(s: State, room: string): State {
    s.(rooms := s.rooms[room := MembersOf(s.rooms, room)])
  }

  lemma JoinedAfterFinding(s: State, c: Client, room: string)
    requires c in s.roomsOf
    ensures Joined(Found(s, room), c, room) == Joined(s, c, room)
  {
    assert Added(Found(s, room).rooms, room, c) == Added(s.rooms, room, c);
  }

  class Hub {
    const limits: Limits
    var clients: set<Client>
    var clientIndex: map<string, Client>
    var clientCount: int
    var clientsSnapshot: seq<Client>
    var userIndex: map<string, set<Client>>
    var rooms: map<string, set<Client>>       // each room's clients
    var snapshots: map<string, seq<Client>>   // each room's snapshot
    var userOf: map<Client, string>           // client.userID
    var roomsOf: map<Client, set<string>>     // client.rooms
    var roomVersion: int

    /** Every room has a snapshot that lists its members. */
    ghost predicate Valid()
      reads this`rooms, this`snapshots
    {
      rooms.Keys == snapshots.Keys && forall n :: n in rooms ==> Enumerates(snapshots[n], rooms[n])
    }

    ghost function State(): State
      reads this
    {
      RegistryModel.State(
        limits, clients, clientIndex, clientCount, userIndex, rooms, userOf, roomsOf, roomVersion)
    }

    constructor (limits: Limits)
      ensures Valid() && State() == Empty(limits) && clientsSnapshot == []
    {
      this.limits := limits;
      clients, clientIndex, clientCount, clientsSnapshot := {}, map[], 0, [];
      userIndex, rooms, snapshots, roomVersion := map[], map[], map[], 0;
      userOf, roomsOf := map[], map[];
    }

    method NewClient(client: Client, userID: string)
      modifies this`userOf, this`roomsOf
      ensures State() == Create(old(State()), client, userID)
    {
      userOf, roomsOf := userOf[client := userID], roomsOf[client := {}];
    }

    /** userIndex[userID] made if missing, and the client put into it. */
    method InsertUser(client: Client, userID: string)
      modifies this`userIndex
      ensures userIndex == Added(old(userIndex), userID, client)
    {
      if userID !in userIndex {
        userIndex := userIndex[userID := {}];
      }
      userIndex := userIndex[userID := userIndex[userID] + {client}];
    }

    method AddToUserIndex(client: Client) returns (err: Error)
      requires client in userOf
      modifies this`userIndex
      ensures var full := userOf[client] != "" &&
                Reached(limits.maxConnectionsPerUser, |MembersOf(old(userIndex), userOf[client])|);
              && err == (if full then MaxUserConnectionsReached else Nil)
              && userIndex == if userOf[client] == "" || full then old(userIndex)
                              else Added(old(userIndex), userOf[client], client)
    {
      var userID := userOf[client];
      if userID == "" {
        return Nil;
      }
      var limit := limits.maxConnectionsPerUser;
      if limit > 0 && userID in userIndex && |userIndex[userID]| >= limit {
        return MaxUserConnectionsReached;
      }
      InsertUser(client, userID);
      return Nil;
    }

    method RemoveFromUserIndex(client: Client, userID: string)
      modifies this`userIndex
      ensures userIndex == if userID == "" then old(userIndex) else Removed(old(userIndex), userID, client)
    {
      if userID == "" {
        return;
      }
      if userID in userIndex {
        userIndex := userIndex[userID := userIndex[userID] - {client}];
        if |userIndex[userID]| == 0 {
          userIndex := userIndex - {userID};
        }
      }
    }

    method HandleRegister(client: Client) returns (err: Error)
      requires client in userOf
      modifies this`clients, this`clientIndex, this`clientCount, this`userIndex
      ensures Outcome(State(), err) == Register(old(State()), client)
    {
      if limits.maxConnections > 0 && |clients| >= limits.maxConnections {
        return MaxConnectionsReached;
      }
      err := AddToUserIndex(client);
      if err != Nil {
        return;
      }
      clients := clients + {client};
      clientIndex := clientIndex[client.id := client];
      clientCount := clientCount + 1;
    }

    method SetClientUserID(client: Client, newUserID: string) returns (err: Error)
      requires client in userOf
      modifies this`userIndex, this`userOf
      ensures Outcome(State(), err) == SetUser(old(State()), client, newUserID)
    {
      var oldUserID := userOf[client];
      if oldUserID == newUserID {
        return Nil;
      }
      if limits.maxConnectionsPerUser > 0 && newUserID != "" {
        if newUserID in userIndex && |userIndex[newUserID]| >= limits.maxConnectionsPerUser {
          return MaxUserConnectionsReached;
        }
      }
      userOf := userOf[client := newUserID];
      RemoveFromUserIndex(client, oldUserID);
      if newUserID != "" {
        InsertUser(client, newUserID);
      }
      return Nil;
    }

    method DeleteRoomIfEmpty(roomName: string)
      requires Valid() && roomName in rooms
      modifies this`rooms, this`snapshots
      ensures Valid()
      ensures rooms == if old(rooms)[roomName] == {} then old(rooms) - {roomName} else old(rooms)
    {
      if |rooms[roomName]| == 0 {
        rooms, snapshots := rooms - {roomName}, snapshots - {roomName};
      }
    }

    /** A room's new member set, with the snapshot to match. */
    method SetMembers(roomName: string, members: set<Client>)
      requires Valid()
      modifies this`rooms, this`snapshots
      ensures Valid() && rooms == old(rooms)[roomName := members]
    {
      var snapshot := Enumeration(members);
      rooms, snapshots := rooms[roomName := members], snapshots[roomName := snapshot];
    }

    method JoinRoom(client: Client, roomName: string) returns (err: Error)
      requires Valid() && client in roomsOf
      modifies this`rooms, this`snapshots, this`roomsOf, this`roomVersion
      ensures Valid()
      ensures Outcome(State(), err) == Join(old(State()), client, roomName)
    {
      if roomName == "" {
        return EmptyRoomName;
      }
      if client !in clients {
        return ClientNotFound;
      }
      err := OpenRoom(client, roomName);
      if err != Nil {
        return;
      }
      JoinedAfterFinding(old(State()), client, roomName);
      Enter(client, roomName);
    }

    /** Looking the room up or making it, the limit checks, and the cleanup when one of them fails. */
    method OpenRoom(client: Client, roomName: string) returns (err: Error)
      requires Valid() && client in clients && client in roomsOf && roomName != ""
      modifies this`rooms, this`snapshots
      ensures Valid()
      ensures err == JoinError(old(State()), client, roomName)
      ensures State() == if err == Nil then Found(old(State()), roomName) else old(State())
    {
      var existed := roomName in rooms;
      if !existed {
        rooms, snapshots := rooms[roomName := {}], snapshots[roomName := []];
      }
      err := CheckRoomLimits(client, roomName);
      if err != Nil && !existed && |rooms[roomName]| == 0 {
        DeleteRoomIfEmpty(roomName);
      }
    }

    /** The part of JoinRoom that runs once both limits have been passed. */
    method Enter(client: Client, roomName: string)
      requires Valid() && client in roomsOf && roomName in rooms
      modifies this`rooms, this`snapshots, this`roomsOf, this`roomVersion
      ensures Valid() && State() == Joined(old(State()), client, roomName)
    {
      roomsOf := roomsOf[client := roomsOf[client] + {roomName}];
      SetMembers(roomName, rooms[roomName] + {client});
      roomVersion := roomVersion + 1;
    }

    method CheckRoomLimits(client: Client, roomName: string) returns (err: Error)
      requires client in roomsOf && roomName in rooms
      ensures err == if Reached(limits.maxClientsPerRoom, |rooms[roomName]|) then RoomFull
                     else if client in rooms[roomName] then AlreadyInRoom
                     else if Reached(limits.maxRoomsPerClient, |roomsOf[client]|) then MaxRoomsReached
                     else Nil
    {
      if limits.maxClientsPerRoom > 0 && |rooms[roomName]| >= limits.maxClientsPerRoom {
        return RoomFull;
      }
      if client in rooms[roomName] {
        return AlreadyInRoom;
      }
      if limits.maxRoomsPerClient > 0 && |roomsOf[client]| >= limits.maxRoomsPerClient {
        return MaxRoomsReached;
      }
      return Nil;
    }

    /** Taking a member out of a room under its lock, and deleting the room if that left it empty. */
    method TakeOut(client: Client, roomName: string)
      requires Valid() && roomName in rooms
      modifies this`rooms, this`snapshots
      ensures Valid() && rooms == Removed(old(rooms), roomName, client)
    {
      SetMembers(roomName, rooms[roomName] - {client});
      if |rooms[roomName]| == 0 {
        DeleteRoomIfEmpty(roomName);
      }
    }

    method LeaveRoom(client: Client, roomName: string) returns (err: Error)
      requires Valid() && client in roomsOf
      modifies this`rooms, this`snapshots, this`roomsOf, this`roomVersion
      ensures Valid()
      ensures Outcome(State(), err) == Leave(old(State()), client, roomName)
    {
      if roomName == "" {
        return EmptyRoomName;
      }
      if roomName !in rooms {
        return RoomNotFound;
      }
      if client !in rooms[roomName] {
        return NotInRoom;
      }
      TakeOut(client, roomName);
      roomsOf := roomsOf[client := roomsOf[client] - {roomName}];
      roomVersion := roomVersion + 1;
      return Nil;
    }

    method RemoveClientFromAllRooms(client: Client)
      requires Valid() && client in roomsOf
      modifies this`rooms, this`snapshots, this`roomsOf, this`roomVersion
      ensures Valid()
      ensures State() == LeaveAll(old(State()), client)
    {
      var leftRooms := LeaveListed(client);
      assert leftRooms == Leaving(old(State()), client);
      roomsOf := roomsOf[client := roomsOf[client] - leftRooms];
      roomVersion := roomVersion + |leftRooms|;
    }

    /** The sweep's loop over the rooms the client lists, in no particular order. */
    method LeaveListed(client: Client) returns (leftRooms: set<string>)
      requires Valid() && client in roomsOf
      modifies this`rooms, this`snapshots
      ensures Valid()
      ensures leftRooms == set n | n in roomsOf[client] && Holds(old(rooms), n, client)
      ensures rooms == RemovedFromAll(old(rooms), leftRooms, client)
    {
      ghost var was := rooms;
      var roomNames := roomsOf[client];
      leftRooms := {};
      while roomNames != {}
        invariant Valid()
        invariant roomNames <= roomsOf[client]
        invariant leftRooms == set n | n in roomsOf[client] - roomNames && Holds(was, n, client)
        invariant rooms == RemovedFromAll(was, leftRooms, client)
        decreases |roomNames|
      {
        var name :| name in roomNames;
        roomNames := roomNames - {name};
        RemovedFromAllHolds(was, leftRooms, client);
        assert Holds(rooms, name, client) <==> Holds(was, name, client);
        if name in rooms && client in rooms[name] {
          RemovedOneMore(was, leftRooms, name, client);
          TakeOut(client, name);
          leftRooms := leftRooms + {name};
        }
      }
    }

    method HandleUnregister(client: Client)
      requires Valid() && client in userOf && client in roomsOf
      modifies this`clients, this`clientIndex, this`clientCount, this`userIndex,
        this`rooms, this`snapshots, this`roomsOf, this`roomVersion
      ensures Valid()
      ensures State() == Unregister(old(State()), client)
    {
      if client !in clients {
        return;
      }
      RemoveFromUserIndex(client, userOf[client]);
      RemoveClientFromAllRooms(client);
      clients := clients - {client};
      clientIndex := clientIndex - {client.id};
      clientCount := clientCount - 1;
    }

    /** Registrations and unregistrations found pending, in any order, then one snapshot for all. */
    method DrainAndRebuildSnapshot(events: seq<Pending>)
      requires Valid() && forall e :: e in events ==> e.c in userOf && e.c in roomsOf
      modifies this`clients, this`clientIndex, this`clientCount, this`userIndex, this`clientsSnapshot,
        this`rooms, this`snapshots, this`roomsOf, this`roomVersion
      ensures Valid()
      ensures State() == AfterPending(old(State()), events)
      ensures Enumerates(clientsSnapshot, clients)
    {
      for i := 0 to |events|
        invariant Valid() && State() == AfterPending(old(State()), events[..i])
      {
        assert events[..i + 1][..i] == events[..i];
        match events[i] {
          case Registration(c) => var _ := HandleRegister(c);
          case Unregistration(c) => HandleUnregister(c);
        }
      }
      assert events[..|events|] == events;
      clientsSnapshot := Enumeration(clients);
    }
  }
}
