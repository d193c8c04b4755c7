/** Whom a broadcast is for, told by the registry that the node's snapshots and indexes were taken from. */
module Audiences {
  import opened RegistryModel
  import opened RegistryRuns
  import opened Relay

  ghost predicate Lists(xs: seq<Client>, members: set<Client>) {
    && (forall c :: c in xs <==> c in members)
    && (forall i, j :: 0 <= i < j < |xs| ==> xs[i] != xs[j])
  }

  ghost predicate ListsEach(m: map<string, seq<Client>>, sets: map<string, set<Client>>) {
    m.Keys == sets.Keys && forall key :: key in sets ==> Lists(m[key], sets[key])
  }

  /** The snapshots and lookups of a node whose registry is in state s. */
  ghost predicate Shows(view: View, s: RegistryModel.State) {
    && Lists(view.snapshot, s.clients) && ListsEach(view.rooms, s.rooms) && ListsEach(view.users, s.users)
    && view.index == s.index
  }

  /** The call is for this client. */
  ghost predicate Addresses(s: RegistryModel.State, target: Target, c: Client)
    requires s.clients <= s.userOf.Keys && s.clients <= s.roomsOf.Keys
  {
    c in s.clients &&
    match target
    case Everyone => true
    case InRoom(room) => room in s.roomsOf[c]
    case OfUser(userId) => userId != "" && s.userOf[c] == userId
    case Only(clientId) => c.id == clientId
  }

  lemma RoomEntry(view: View, s: RegistryModel.State, room: string, c: Client)
    requires Inv(s) && Shows(view, s)
    ensures c in Entries(view.rooms, room) <==> c in s.clients && room in s.roomsOf[c]
  {
    LookupsFollow(s, "user", room);
    assert c in Entries(view.rooms, room) <==> c in MembersOf(s.rooms, room);
  }

  lemma NoEmptyUser(s: RegistryModel.State)
    requires Inv(s)
    ensures "" !in s.users
  {
    if "" in s.users {
      var c :| c in s.users[""];
      assert Holds(s.users, "", c);
    }
  }

  lemma UserEntry(view: View, s: RegistryModel.State, userId: string, c: Client)
    requires Inv(s) && Shows(view, s)
    ensures c in Entries(view.users, userId) <==> c in s.clients && userId != "" && s.userOf[c] == userId
  {
    NoEmptyUser(s);
    if userId != "" {
      LookupsFollow(s, userId, "");
    }
    assert c in Entries(view.users, userId) <==> c in MembersOf(s.users, userId);
  }

  /**
    The audience of a call are exactly the registered clients it is for, once each: all of them, those that
    list the room, those with the user id, or the one with the client id.
   */
  lemma AudienceIsAddressed(view: View, s: RegistryModel.State, target: Target, c: Client)
    requires Inv(s) && Shows(view, s)
    ensures c in Audience(view, target) <==> Addresses(s, target, c)
    ensures ViewFits(view, s.clients) && NoDuplicates(Audience(view, target))
  {
    match target {
      case Everyone =>
      case InRoom(room) => RoomEntry(view, s, room, c);
      case OfUser(userId) => UserEntry(view, s, userId, c);
      case Only(clientId) =>
        assert c in s.clients ==> s.index[c.id] == c;
    }
    ShownFits(view, s);
  }

  lemma ShownFits(view: View, s: RegistryModel.State)
    requires Inv(s) && Shows(view, s)
    ensures ViewFits(view, s.clients)
  {
    forall room | room in view.rooms
      ensures Among(view.rooms[room], s.clients)
    {
      forall i | 0 <= i < |view.rooms[room]|
        ensures view.rooms[room][i] in s.clients
      {
        assert view.rooms[room][i] in Entries(view.rooms, room);
        RoomEntry(view, s, room, view.rooms[room][i]);
      }
    }
    forall user | user in view.users
      ensures Among(view.users[user], s.clients)
    {
      forall i | 0 <= i < |view.users[user]|
        ensures view.users[user][i] in s.clients
      {
        assert view.users[user][i] in Entries(view.users, user);
        UserEntry(view, s, user, view.users[user][i]);
      }
    }
  }

  /**
    What one API call offers on its own node: the item goes once to each registered client the call is for
    and that it does not exclude, and to nobody else.
   */
  lemma OfferedAreAddressed(view: View, s: RegistryModel.State, target: Target, except: seq<Client>, c: Client)
    requires Inv(s) && Shows(view, s)
    ensures multiset(Kept(Audience(view, target), except))[c] ==
            if Addresses(s, target, c) && c !in except then 1 else 0
  {
    AudienceIsAddressed(view, s, target, c);
    KeptCounts(Audience(view, target), except, c);
  }
}
