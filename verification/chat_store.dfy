/** The WebSocket store: client channels and the two-way room index under one lock. */
module ChatStore {
  import opened GoChannels
  import opened ChatIndex
  import opened ChatClients

  /** The loop of DeliverToRoom: one non-blocking send per member who has a client. */
  method OfferEach(heap: Heap<Payload>, clients: map<User, ChanId>, members: set<User>, ev: Payload)
    requires heap.Valid() && Reachable(clients, heap.cells)
    modifies heap
    ensures heap.Valid() && heap.cells == OfferAll(old(heap.cells), Sockets(clients, members), ev)
  {
    ghost var was := heap.cells;
    var todo := members;
    assert was == OfferAll(was, Sockets(clients, members - todo), ev);
    while todo != {}
      invariant todo <= members && heap.Valid()
      invariant heap.cells == OfferAll(was, Sockets(clients, members - todo), ev)
    {
      var user :| user in todo;
      SocketsMore(clients, members - todo, user);
      assert members - (todo - {user}) == members - todo + {user};
      if user in clients {
        OfferOne(was, Sockets(clients, members - todo), clients[user], ev);
        var sent := heap.Offer(clients[user], ev);
      }
      todo := todo - {user};
    }
    assert members - todo == members;
  }

  /** The clients' channels are open and no two users share one. */
  ghost predicate Reachable(clients: map<User, ChanId>, cells: Table<Payload>) {
    && (forall u :: u in clients ==> clients[u] in cells && !cells[clients[u]].closed)
    && Injective(clients)
  }

  lemma SocketsMore(clients: map<User, ChanId>, users: set<User>, user: User)
    ensures Sockets(clients, users + {user}) ==
            if user in clients then Sockets(clients, users) + {clients[user]} else Sockets(clients, users)
    ensures user in clients && user !in users && Injective(clients) ==> clients[user] !in Sockets(clients, users)
  {
  }

  class WSStore {
    var clients: map<User, ChanId>
    var rooms: Index
    var userRooms: Index
    const heap: Heap<Payload>
    ghost var issued: map<ChanId, User>

    ghost function BookView(): Book
      reads this
    {
      Book(clients, rooms, userRooms)
    }

    ghost function RosterView(): Roster
      reads this, heap
    {
      Roster(clients, heap.cells, issued)
    }

    ghost predicate Valid()
      reads this, heap
    {
      heap.Valid() && BookView().Valid() && RosterView().Valid()
    }

    constructor ()
      ensures Valid() && BookView() == EMPTY_BOOK && RosterView() == NOBODY && fresh(heap)
    {
      clients, rooms, userRooms, issued := map[], map[], map[], map[];
      heap := new Heap<Payload>();
    }

    /** A user who is connected already loses the old connection. */
    method Register(user: User) returns (ch: ChanId)
      requires Valid()
      modifies this, heap
      ensures Valid() && ch !in old(heap.cells)
      ensures RosterView() == ChatClients.Register(old(RosterView()), user, ch)
      ensures rooms == old(rooms) && userRooms == old(userRooms)
    {
      hide Roster.Valid, IndexValid, Sockets;
      ghost var was := RosterView();
      ch := heap.Make();
      RegisterKeepsValid(was, user, ch);
      CloseThenMake(was, user, ch);
      if user in clients {
        heap.Close(clients[user]);
      }
      clients := clients[user := ch];
      issued := issued[ch := user];
    }

    /** Drops whatever client the user has now, whoever asks. */
    method Unregister(user: User)
      requires Valid()
      modifies this, heap
      ensures Valid()
      ensures RosterView() == ChatClients.Unregister(old(RosterView()), user)
      ensures rooms == old(rooms) && userRooms == old(userRooms)
    {
      hide IndexValid;
      ghost var was := RosterView();
      UnregisterKeepsValid(was, user);
      if user !in clients {
        return;
      }
      var ch := clients[user];
      assert Sockets(clients, {user}) == {ch};
      clients := clients - {user};
      heap.Close(ch);
    }

    method JoinRoom(room: Room, user: User) returns (added: bool)
      requires Valid()
      modifies `rooms, `userRooms
      ensures Valid() && (BookView(), added) == Join(old(BookView()), room, user)
    {
      hide IndexValid, Roster.Valid;
      JoinKeepsValid(BookView(), room, user);
      if user !in clients {
        return false;
      }
      if user in userRooms {
        if room in userRooms[user] {
          return false;
        }
      } else {
        userRooms := userRooms[user := {}];
      }
      var members := if room in rooms then rooms[room] else {};
      rooms := rooms[room := members + {user}];
      userRooms := userRooms[user := userRooms[user] + {room}];
      added := true;
      assert userRooms == Put(old(userRooms), user, room);
    }

    method LeaveRoom(room: Room, user: User) returns (removed: bool, roomEmpty: bool)
      requires Valid()
      modifies `rooms, `userRooms
      ensures Valid() && Left(BookView(), removed, roomEmpty) == Leave(old(BookView()), room, user)
    {
      LeaveKeepsValid(BookView(), room, user);
      assert user in Row(rooms, room) <==> room in Row(userRooms, user);
      if room !in rooms || user !in rooms[room] {
        return false, false;
      }
      var members := rooms[room] - {user};
      removed, roomEmpty := true, |members| == 0;
      rooms := if roomEmpty then rooms - {room} else rooms[room := members];
      if user in userRooms {
        var ur := userRooms[user] - {room};
        userRooms := if |ur| == 0 then userRooms - {user} else userRooms[user := ur];
      }
    }

    /** The user's rooms in some order, each of them once. */
    method RoomsForUser(user: User) returns (out: seq<Room>)
      requires Valid()
      ensures forall r :: r in out <==> (r, user) in Members(rooms)
      ensures forall i, j :: 0 <= i < j < |out| ==> out[i] != out[j]
    {
      var ur := if user in userRooms then userRooms[user] else {};
      out := [];
      var todo := ur;
      while todo != {}
        invariant todo <= ur
        invariant forall r :: r in out <==> r in ur - todo
        invariant forall i, j :: 0 <= i < j < |out| ==> out[i] != out[j]
      {
        var room :| room in todo;
        assert room !in out;
        out, todo := out + [room], todo - {room};
      }
      assert forall r :: r in Row(userRooms, user) <==> user in Row(rooms, r);
    }

    method DeliverToRoom(room: Room, ev: Payload)
      requires Valid()
      modifies heap
      ensures Valid() && RosterView() == Deliver(old(RosterView()), Row(rooms, room), ev)
    {
      ghost var was := RosterView();
      DeliverKeepsValid(was, Row(rooms, room), ev);
      ClientsReachable(was);
      OfferEach(heap, clients, if room in rooms then rooms[room] else {}, ev);
    }

    /** How many members the room has, connected or not. */
    method CountMembers(room: Room) returns (n: nat)
      ensures n == |Row(rooms, room)|
    {
      n := if room in rooms then |rooms[room]| else 0;
    }

    method Close()
      requires Valid()
      modifies this, heap
      ensures Valid() && BookView() == EMPTY_BOOK
      ensures RosterView() == CloseAllClients(old(RosterView()))
    {
      hide Roster.Valid, Sockets, IndexValid;
      CloseAllClientsKeepsValid(RosterView());
      ClientsReachable(RosterView());
      EmptyBookIsValid();
      CloseClients();
      rooms, userRooms := map[], map[];
    }

    /** Close's loop. */
    method CloseClients()
      requires heap.Valid() && Reachable(clients, heap.cells)
      modifies `clients, heap
      ensures heap.Valid() && clients == map[]
      ensures heap.cells == CloseAll(old(heap.cells), Sockets(old(clients), old(clients).Keys))
    {
      hide Shut;
      ghost var was, cells := clients, heap.cells;
      ghost var done: set<User> := {};
      ShutNone(was, cells);
      while clients != map[]
        invariant heap.Valid() && Shut(was, cells, clients, heap.cells, done)
        decreases |clients|
      {
        var user :| user in clients;
        ShutOneMore(was, cells, clients, heap.cells, done, user);
        heap.Close(clients[user]);
        clients, done := clients - {user}, done + {user};
      }
      ShutAll(was, cells, heap.cells, done);
    }
  }

  /** Midway through Close's loop: the clients in `done` are gone and their channels closed. */
  ghost predicate Shut(was: map<User, ChanId>, cells: Table<Payload>, now: map<User, ChanId>, after: Table<Payload>,
                       done: set<User>) {
    Reachable(was, cells) && now == was - done && after == CloseAll(cells, Sockets(was, done))
  }

  lemma ShutNone(was: map<User, ChanId>, cells: Table<Payload>)
    requires Reachable(was, cells)
    ensures Shut(was, cells, was, cells, {})
  {
  }

  lemma ShutOneMore(was: map<User, ChanId>, cells: Table<Payload>, now: map<User, ChanId>, after: Table<Payload>,
                    done: set<User>, user: User)
    requires Shut(was, cells, now, after, done) && user in now
    ensures now[user] in after && !after[now[user]].closed
    ensures Shut(was, cells, now - {user}, CloseAll(after, {now[user]}), done + {user}) && |now - {user}| < |now|
  {
    hide Sockets, CloseAll;
    TakeAway(was, done, user);
    SocketsMore(was, done, user);
    NotYetClosed(was, cells, done, user);
    CloseMore(cells, Sockets(was, done), {was[user]});
  }

  lemma NotYetClosed(was: map<User, ChanId>, cells: Table<Payload>, done: set<User>, user: User)
    requires Reachable(was, cells) && user in was && user !in done
    ensures var after := CloseAll(cells, Sockets(was, done)); was[user] in after && !after[was[user]].closed
  {
  }

  lemma ShutAll(was: map<User, ChanId>, cells: Table<Payload>, after: Table<Payload>, done: set<User>)
    requires Shut(was, cells, map[], after, done)
    ensures after == CloseAll(cells, Sockets(was, was.Keys))
  {
    assert forall u :: u in was && u !in done ==> u in was - done;
    assert Sockets(was, done) == Sockets(was, was.Keys);
  }

  lemma TakeAway<K, V>(m: map<K, V>, gone: set<K>, k: K)
    requires k in m - gone
    ensures m - gone - {k} == m - (gone + {k}) && |m - gone - {k}| < |m - gone|
  {
    assert (m - gone - {k}).Keys == (m - gone).Keys - {k};
  }

  lemma CloseThenMake(r: Roster, user: User, ch: ChanId)
    requires r.Valid() && ch !in r.cells
    ensures CloseAll(r.cells[ch := Fresh()], Sockets(r.clients, {user})) == ChatClients.Register(r, user, ch).cells
    ensures user in r.clients ==>
              && Sockets(r.clients, {user}) == {r.clients[user]}
              && r.clients[user] in r.cells && !r.cells[r.clients[user]].closed
    ensures user !in r.clients ==> CloseAll(r.cells[ch := Fresh()], Sockets(r.clients, {user})) == r.cells[ch := Fresh()]
  {
  }

  lemma EmptyBookIsValid()
    ensures EMPTY_BOOK.Valid()
  {
  }

  lemma ClientsReachable(r: Roster)
    requires r.Valid()
    ensures Reachable(r.clients, r.cells)
  {
  }
}
