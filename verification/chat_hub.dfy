/** The chat hub itself, over a bus and a store that it shares with other goroutines. */
module ChatHub {
  import opened GoChannels
  import opened Maps
  import opened ChannelNames
  import opened PubSub
  import opened RedisBus
  import opened ChatIndex
  import opened ChatClients
  import opened ChatStore
  import opened ChatWiring
  import opened ChatLeaveAll

  /** What one iteration of a bridge's select loop did. */
  datatype Turn = Stopped | Delivered(ev: Payload) | Waiting

  class Hub {
    const bus: RedisPubSub
    const store: WSStore
    var entries: map<Room, RoomEntry>
    var bridges: map<ChanId, RoomBridge>

    ghost function View(): ChatView
      reads this, bus, bus.heap, store
    {
      ChatView(bus.View(), entries, bridges, store.BookView())
    }

    /** Kept by every call, whoever calls and in whatever order. */
    ghost predicate Valid()
      reads this, bus, bus.heap, store, store.heap
    {
      && bus.Valid() && store.Valid() && bus.heap as object != store.heap
      && bridges.Keys <= bus.heap.cells.Keys
      && Wired(View())
    }

    constructor (bus: RedisPubSub, store: WSStore)
      requires bus.Valid() && store.Valid() && bus.heap as object != store.heap
      requires store.BookView() == EMPTY_BOOK && forall r :: RoomChannel(r) !in bus.subs
      ensures Valid() && this.bus == bus && this.store == store
      ensures entries == map[] && bridges == map[]
    {
      this.bus, this.store := bus, store;
      entries, bridges := map[], map[];
    }

    method JoinRoom(room: Room, user: User, t: Transport) returns (err: Error, ghost redis: ChanId)
      requires Valid()
      modifies this, bus, bus.heap, store`rooms, store`userRooms
      ensures Valid()
      ensures (View(), err) == ChatWiring.JoinRoom(old(View()), room, user, redis, t)
      ensures redis !in old(bridges) && redis !in old(bus.heap.cells)
    {
      hide Bus.Valid, Book.Valid, Roster.Valid, Served, Counted, BusSubscribe, Join, Leave;
      ghost var was := View();
      err, redis := NoError, bus.heap.next;
      var added := store.JoinRoom(room, user);
      if !added {
        return;
      }
      if room !in entries {
        err, redis := Attach(room, t);
        if !err.NoError? {
          LeaveUndoesJoin(was.book, room, user);
          var removed, roomEmpty := store.LeaveRoom(room, user);
          JoinKeepsWired(was, room, user, redis, t);
          return;
        }
      }
      JoinKeepsWired(was, room, user, redis, t);
      OverwriteTwice(was.entries, room, RoomEntry(0, redis), RoomEntry(1, redis));
      entries := entries[room := entries[room].(refs := entries[room].refs + 1)];
    }

    /** What holds even between the hub's visits to the store. */
    ghost predicate Plumbed()
      reads this, bus, bus.heap
    {
      bus.Valid() && bus.heap as object != store.heap && bridges.Keys <= bus.heap.cells.Keys
    }

    /** The part of JoinRoom for a room without an entry. */
    method Attach(room: Room, t: Transport) returns (err: Error, ghost redis: ChanId)
      requires Plumbed() && room !in entries
      modifies `entries, `bridges, bus, bus.heap
      ensures Plumbed() && redis !in old(bridges) && redis !in old(bus.heap.cells)
      ensures (bus.View(), err) == BusSubscribe(old(bus.View()), RoomChannel(room), redis, t)
      ensures entries == if err.NoError? then old(entries)[room := RoomEntry(0, redis)] else old(entries)
      ensures bridges == if err.NoError? then old(bridges)[redis := RoomBridge(room, false)] else old(bridges)
    {
      hide Bus.Valid;
      ghost var was := bus.View();
      redis := bus.heap.next;
      var redisCh;
      redisCh, err := bus.Subscribe(RoomChannel(room), t);
      FailureIgnoresChannel(was, RoomChannel(room), redis, redisCh, t);
      if err.NoError? {
        redis := redisCh;
        entries := entries[room := RoomEntry(0, redisCh)];
        bridges := bridges[redisCh := RoomBridge(room, false)];
      }
    }

    method LeaveRoom(room: Room, user: User, t: Transport)
      requires Valid()
      modifies this, bus, bus.heap, store`rooms, store`userRooms
      ensures Valid()
      ensures View() == ChatWiring.LeaveRoom(old(View()), room, user, t)
    {
      hide Bus.Valid, Book.Valid, Roster.Valid, Served, Counted, BusUnsubscribe, Leave, CancelAll;
      ghost var was := View();
      LeaveKeepsWired(was, room, user, t);
      var removed, roomEmpty := store.LeaveRoom(room, user);
      if !removed || room !in entries {
        return;
      }
      var refs := entries[room].refs - 1;
      entries := entries[room := entries[room].(refs := refs)];
      if !roomEmpty {
        return;
      }
      OverwriteThenDrop(was.entries, room, was.entries[room].(refs := refs));
      Detach(room, t);
    }

    /** The part of LeaveRoom for a room that has lost its last member. */
    method Detach(room: Room, t: Transport)
      requires Plumbed() && room in entries
      modifies `entries, `bridges, bus, bus.heap
      ensures Plumbed() && entries == old(entries) - {room}
      ensures bridges == CancelAll(old(bridges), {old(entries)[room].redis})
      ensures bus.View() == BusUnsubscribe(old(bus.View()), RoomChannel(room), old(entries)[room].redis, t).0
    {
      hide Bus.Valid, BusUnsubscribe;
      var entry := entries[room];
      UnsubscribeShape(bus.View(), RoomChannel(room), entry.redis, t);
      bridges := CancelAll(bridges, {entry.redis});
      var err := bus.Unsubscribe(RoomChannel(room), entry.redis, t);
      entries := entries - {room};
    }

    /** `outcome` says how the transport answers for each room. */
    method LeaveAllForUser(user: User, outcome: Room -> Transport)
      requires Valid()
      modifies this, bus, bus.heap, store`rooms, store`userRooms
      ensures Valid()
      ensures Members(store.rooms) == iset r: Room, u: User | (r, u) in Members(old(store.rooms)) && u != user :: (r, u)
      ensures store.userRooms == old(store.userRooms) - {user} && store.clients == old(store.clients)
      ensures entries == EntriesAfter(old(entries), old(store.rooms), user, Row(old(store.userRooms), user))
      ensures TornDown(old(View()), bus.View(), bridges,
                       Emptied(old(store.rooms), user, Row(old(store.userRooms), user)))
    {
      hide Bus.Valid, Book.Valid, Roster.Valid, Wired, LeftSome, ChatWiring.LeaveRoom;
      ghost var was := View();
      var rooms := store.RoomsForUser(user);
      LeftNone(was, user);
      assert Seen(rooms[..0]) == {};
      for i := 0 to |rooms|
        invariant Valid() && LeftSome(was, View(), user, Seen(rooms[..i]))
      {
        SeenMore(rooms, i);
        assert (rooms[i], user) in Members(was.book.rooms);
        LeftOneMore(was, View(), user, Seen(rooms[..i]), rooms[i], outcome(rooms[i]));
        LeaveRoom(rooms[i], user, outcome(rooms[i]));
      }
      assert rooms[..|rooms|] == rooms;
      AllSeen(was.book, user, rooms);
      LeftAll(was, View(), user);
      LeftParts(was, View(), user, Seen(rooms));
    }

    /** One iteration of a bridge.  `preferDone` is the choice select makes when the context has been
        cancelled and a message is waiting as well. */
    method BridgeTurn(redis: ChanId, preferDone: bool) returns (turn: Turn)
      requires Valid() && redis in bridges
      modifies bus.heap, store.heap
      ensures Valid()
      ensures turn.Delivered? <==> old(bus.heap.cells)[redis].buf != [] && !(bridges[redis].cancelled && preferDone)
      ensures turn.Delivered? ==>
                && turn.ev == old(bus.heap.cells)[redis].buf[0].payload
                && bus.View() == BusReceive(old(bus.View()), redis)
                && store.RosterView() == Deliver(old(store.RosterView()), Row(store.rooms, bridges[redis].room), turn.ev)
      ensures !turn.Delivered? ==> View() == old(View()) && store.RosterView() == old(store.RosterView())
      ensures turn.Stopped? <==> !turn.Delivered? && (bridges[redis].cancelled || old(bus.heap.cells)[redis].closed)
    {
      hide Bus.Valid, Book.Valid, Roster.Valid, Bridged, Consumed, Counted;
      if bridges[redis].cancelled && preferDone {
        return Stopped;
      }
      var r := bus.Receive(redis);
      match r
      case Value(m) =>
        store.DeliverToRoom(bridges[redis].room, m.payload);
        turn := Delivered(m.payload);
      case Drained =>
        turn := Stopped;
      case Blocked =>
        turn := if bridges[redis].cancelled then Stopped else Waiting;
    }

    method Close(outcome: Room -> Transport)
      requires Valid()
      modifies this, bus, bus.heap, store, store.heap
      ensures Valid() && entries == map[] && store.BookView() == EMPTY_BOOK
      ensures store.RosterView() == CloseAllClients(old(store.RosterView()))
      ensures TornDown(old(View()), bus.View(), bridges, old(entries).Keys)
    {
      hide Bus.Valid, Book.Valid, Roster.Valid, Served, TornDown;
      ghost var was := View();
      DetachAll(outcome);
      NothingServed(entries, bridges, bus.View());
      entries := map[];
      store.Close();
      EmptyBookIsValid();
    }

    /** Close's loop. */
    method DetachAll(outcome: Room -> Transport)
      requires Valid()
      modifies `bridges, bus, bus.heap
      ensures bus.Valid() && bridges.Keys <= bus.heap.cells.Keys
      ensures TornDown(old(View()), bus.View(), bridges, entries.Keys)
      ensures Served(entries, bridges, bus.View(), entries.Keys)
    {
      hide Bus.Valid, Book.Valid, Roster.Valid, Served, TornDown, CancelAll, Counted;
      ghost var was := View();
      var todo := entries.Keys;
      ghost var done: set<Room> := {};
      TornDownNone(was);
      while todo != {}
        invariant todo !! done && todo + done == entries.Keys
        invariant bus.Valid() && bridges.Keys <= bus.heap.cells.Keys
        invariant Served(entries, bridges, bus.View(), done)
        invariant TornDown(was, bus.View(), bridges, done)
      {
        var room :| room in todo;
        var entry := entries[room];
        ConsumerOf(entries, bridges, bus.View(), room, done);
        TornDownOne(was, bus.View(), bridges, done, room, outcome(room));
        ServedDetach(entries, bridges, bus.View(), room, done, outcome(room));
        UnsubscribeShape(bus.View(), RoomChannel(room), entry.redis, outcome(room));
        bridges := CancelAll(bridges, {entry.redis});
        var err := bus.Unsubscribe(RoomChannel(room), entry.redis, outcome(room));
        todo, done := todo - {room}, done + {room};
      }
      assert done == entries.Keys;
    }
  }

  lemma FailureIgnoresChannel(b: Bus, name: Name, c: ChanId, d: ChanId, t: Transport)
    ensures BusSubscribe(b, name, c, t).1 == BusSubscribe(b, name, d, t).1
    ensures !BusSubscribe(b, name, c, t).1.NoError? ==> BusSubscribe(b, name, c, t) == BusSubscribe(b, name, d, t)
  {
  }

  lemma ConsumerOf(entries: map<Room, RoomEntry>, bridges: map<ChanId, RoomBridge>, b: Bus, room: Room, gone: set<Room>)
    requires Served(entries, bridges, b, gone) && room in entries && room !in gone
    ensures !b.closed ==> b.List(RoomChannel(room)) == [entries[room].redis]
  {
  }

  lemma NothingServed(entries: map<Room, RoomEntry>, bridges: map<ChanId, RoomBridge>, b: Bus)
    requires Served(entries, bridges, b, entries.Keys)
    ensures Served(map[], bridges, b, {})
  {
  }

  ghost function Seen(rooms: seq<Room>): set<Room> {
    set r | r in rooms
  }

  lemma SeenMore(rooms: seq<Room>, i: nat)
    requires i < |rooms| && forall j, k :: 0 <= j < k < |rooms| ==> rooms[j] != rooms[k]
    ensures Seen(rooms[..i + 1]) == Seen(rooms[..i]) + {rooms[i]} && rooms[i] !in Seen(rooms[..i])
  {
    assert rooms[..i + 1] == rooms[..i] + [rooms[i]];
  }

  lemma AllSeen(b: Book, user: User, rooms: seq<Room>)
    requires b.Valid() && forall r :: r in rooms <==> (r, user) in Members(b.rooms)
    ensures Seen(rooms) == Row(b.userRooms, user)
  {
    forall r ensures r in rooms <==> r in Row(b.userRooms, user) {
      assert (r, user) in Members(b.rooms) <==> user in Row(b.rooms, r);
    }
  }

  lemma LeftParts(was: ChatView, now: ChatView, user: User, done: set<Room>)
    requires LeftSome(was, now, user, done)
    ensures now.book.clients == was.book.clients
    ensures now.entries == EntriesAfter(was.entries, was.book.rooms, user, done)
    ensures TornDown(was, now.bus, now.bridges, Emptied(was.book.rooms, user, done))
  {
  }
}
