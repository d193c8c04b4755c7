/**
  What each answer of the registry means, told by the registered clients, the rooms they list, their user
  ids and the limits.
 */
module RegistryAnswers {
  import opened RegistryModel
  import opened RegistryRuns
  import Registry

  /** There is room for one more. */
  ghost predicate Below(limit: int, n: nat) {
    limit > 0 ==> n < limit
  }

  /** The registered clients that list the room. */
  ghost function Listing(s: State, room: string): set<Client>
    requires s.clients <= s.roomsOf.Keys
  {
    set d | d in s.clients && room in s.roomsOf[d]
  }

  /** The registered clients with this user id. */
  ghost function OfUser(s: State, user: string): set<Client>
    requires s.clients <= s.userOf.Keys
  {
    set d | d in s.clients && s.userOf[d] == user
  }

  lemma RoomLookup(s: State, room: string)
    requires Inv(s)
    ensures MembersOf(s.rooms, room) == Listing(s, room)
    ensures room in s.rooms <==> Listing(s, room) != {}
  {
    LookupsFollow(s, "user", room);
  }

  lemma UserLookup(s: State, user: string)
    requires Inv(s) && user != ""
    ensures MembersOf(s.users, user) == OfUser(s, user)
  {
    LookupsFollow(s, user, "");
  }

  /** A client that lists a room is registered, and the room has a name. */
  lemma ListedFacts(s: State, c: Client, room: string)
    requires Inv(s) && c in s.roomsOf
    ensures room in s.roomsOf[c] ==> c in s.clients && room != "" && c in Listing(s, room)
  {
    if room in s.roomsOf[c] {
      assert Lists(s.roomsOf, c, room);
      RoomLookup(s, room);
    }
  }

  // ---------------------------------------------------------------- JoinRoom

  ghost predicate RoomHasPlace(s: State, room: string)
    requires s.clients <= s.roomsOf.Keys
  {
    Below(s.limits.maxClientsPerRoom, |Listing(s, room)|)
  }

  ghost predicate ClientHasPlace(s: State, c: Client)
    requires c in s.roomsOf
  {
    Below(s.limits.maxRoomsPerClient, |s.roomsOf[c]|)
  }

  /** A join succeeds exactly when nothing speaks against it. */
  lemma JoinSucceedsExactlyWhen(s: State, c: Client, room: string)
    requires Inv(s) && c in s.roomsOf
    ensures Join(s, c, room).err == Nil <==>
              && room != "" && c in s.clients && room !in s.roomsOf[c]
              && RoomHasPlace(s, room) && ClientHasPlace(s, c)
  {
    RoomLookup(s, room);
    MembersAgree(s, c, room);
  }

  /** And each error has its reason: the first that applies. */
  lemma JoinErrorsMean(s: State, c: Client, room: string)
    requires Inv(s) && c in s.roomsOf
    ensures var err := Join(s, c, room).err;
            var registered := room != "" && c in s.clients;
            && (err == EmptyRoomName <==> room == "")
            && (err == ClientNotFound <==> room != "" && c !in s.clients)
            && (err == RoomFull <==> registered && !RoomHasPlace(s, room))
            && (err == AlreadyInRoom <==> registered && RoomHasPlace(s, room) && room in s.roomsOf[c])
            && (err == MaxRoomsReached <==>
                  registered && RoomHasPlace(s, room) && room !in s.roomsOf[c] && !ClientHasPlace(s, c))
    ensures Join(s, c, room).err != Nil ==> Join(s, c, room).state == s
  {
    RoomLookup(s, room);
    MembersAgree(s, c, room);
  }

  /** After a successful join the client lists the room and is one of its members; nothing else has changed. */
  lemma JoinedIsMember(s: State, c: Client, room: string)
    requires Inv(s) && c in s.roomsOf && Join(s, c, room).err == Nil
    ensures var t := Join(s, c, room).state;
            && t.roomsOf == s.roomsOf[c := s.roomsOf[c] + {room}]
            && (forall n, d :: Holds(t.rooms, n, d) <==> Holds(s.rooms, n, d) || (n == room && d == c))
            && t == s.(rooms := t.rooms, roomsOf := t.roomsOf, version := s.version + 1)
  {
    AddedHolds(s.rooms, room, c);
  }

  // ---------------------------------------------------------------- LeaveRoom

  /** A leave succeeds exactly when the client lists the room, and each error has its reason. */
  lemma LeaveAnswersMean(s: State, c: Client, room: string)
    requires Inv(s) && c in s.roomsOf
    ensures var err := Leave(s, c, room).err;
            && (err == Nil <==> room in s.roomsOf[c])
            && (err == EmptyRoomName <==> room == "")
            && (err == RoomNotFound <==> room != "" && Listing(s, room) == {})
            && (err == NotInRoom <==> room != "" && Listing(s, room) != {} && room !in s.roomsOf[c])
    ensures Leave(s, c, room).err != Nil ==> Leave(s, c, room).state == s
  {
    RoomLookup(s, room);
    MembersAgree(s, c, room);
    ListedFacts(s, c, room);
  }

  /** After a successful leave the client neither lists the room nor is a member; nothing else has changed. */
  lemma LeftIsNoMember(s: State, c: Client, room: string)
    requires Inv(s) && c in s.roomsOf && Leave(s, c, room).err == Nil
    ensures var t := Leave(s, c, room).state;
            && t.roomsOf == s.roomsOf[c := s.roomsOf[c] - {room}]
            && (forall n, d :: Holds(t.rooms, n, d) <==> Holds(s.rooms, n, d) && !(n == room && d == c))
            && (room in t.rooms <==> exists d :: d in Listing(s, room) && d != c)
            && t == s.(rooms := t.rooms, roomsOf := t.roomsOf, version := s.version + 1)
  {
    RemovedHolds(s.rooms, room, c);
    RoomLookup(s, room);
    forall d | d in s.rooms[room] - {c}
      ensures d in Listing(s, room) && d != c
    {}
    forall d | d in Listing(s, room) && d != c
      ensures d in s.rooms[room] - {c}
    {}
  }

  // ---------------------------------------------------------------- registration and user ids

  ghost predicate UserHasPlace(s: State, user: string)
    requires s.clients <= s.userOf.Keys
  {
    user == "" || Below(s.limits.maxConnectionsPerUser, |OfUser(s, user)|)
  }

  /** What a registration answers, and that it registers the client or changes nothing. */
  lemma RegisterAnswersMean(s: State, c: Client)
    requires Inv(s) && Fresh(s, c)
    ensures var t, err := Register(s, c).state, Register(s, c).err;
            var place := Below(s.limits.maxConnections, |s.clients|);
            && (err == Nil <==> place && UserHasPlace(s, s.userOf[c]))
            && (err == MaxConnectionsReached <==> !place)
            && (err == MaxUserConnectionsReached <==> place && !UserHasPlace(s, s.userOf[c]))
            && (err == Nil ==> t.clients == s.clients + {c} && t.userOf == s.userOf && t.roomsOf == s.roomsOf)
            && (err != Nil ==> t == s)
  {
    if s.userOf[c] != "" {
      UserLookup(s, s.userOf[c]);
    }
  }

  /** What SetUserID answers, and that the client then has the new user id or nothing has changed. */
  lemma SetUserAnswersMean(s: State, c: Client, user: string)
    requires Inv(s) && c in s.userOf
    ensures var t, err := SetUser(s, c, user).state, SetUser(s, c, user).err;
            && (err == Nil <==> s.userOf[c] == user || UserHasPlace(s, user))
            && (err == MaxUserConnectionsReached <==> err != Nil)
            && (err == Nil ==> t.userOf == s.userOf[c := user] && t.clients == s.clients && t.roomsOf == s.roomsOf)
            && (err != Nil ==> t == s)
  {
    if user != "" {
      UserLookup(s, user);
    }
    if s.userOf[c] == user {
      assert s.userOf[c := user] == s.userOf;
    }
  }

  /** After SetUserID of a registered client, the new user's connections include it and the old one's do not. */
  lemma SetUserMovesClient(s: State, c: Client, user: string)
    requires Inv(s) && c in s.clients && SetUser(s, c, user).err == Nil
    ensures var t := SetUser(s, c, user).state;
            && (user != "" ==> c in MembersOf(t.users, user))
            && (forall u, d :: Holds(t.users, u, d) <==>
                  if d == c then u == user && user != "" else Holds(s.users, u, d))
  {
    assert forall u :: Holds(s.users, u, c) <==> IsUser(s.userOf, c, u);
    if s.userOf[c] != user {
      SetUserHolds(s, c, user);
    }
    assert user != "" ==> Holds(SetUser(s, c, user).state.users, user, c);
  }

  // ---------------------------------------------------------------- pending events

  /** Whether the last of the events about c, if there is any, is its registration. */
  ghost predicate EndsRegistered(events: seq<Registry.Pending>, c: Client, before: bool) {
    if |events| == 0 then before
    else
      var last := events[|events| - 1];
      if last.c == c then last.Registration? else EndsRegistered(events[..|events| - 1], c, before)
  }

  /** Without limits on connections, the last pending event about a client decides whether it is registered. */
  lemma {:induction false} LastEventDecides(s: State, events: seq<Registry.Pending>, c: Client)
    requires forall e :: e in events ==> e.c in s.userOf && e.c in s.roomsOf
    requires s.limits.maxConnections <= 0 && s.limits.maxConnectionsPerUser <= 0
    ensures c in Registry.AfterPending(s, events).clients <==> EndsRegistered(events, c, c in s.clients)
    ensures Registry.AfterPending(s, events).limits == s.limits
  {
    if |events| > 0 {
      LastEventDecides(s, events[..|events| - 1], c);
    }
  }
}
