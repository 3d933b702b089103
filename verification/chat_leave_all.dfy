/** Leaving every room: what a loop of LeaveRoom calls adds up to. */
module ChatLeaveAll {
  import opened GoChannels
  import opened ChannelNames
  import opened PubSub
  import opened ChatIndex
  import opened ChatWiring

  /** The rooms of `done` in which the user is the only member. */
  function Emptied(rooms: Index, user: User, done: set<Room>): set<Room> {
    set r | r in done && Row(rooms, r) == {user}
  }

  function EntriesAfter(entries: map<Room, RoomEntry>, rooms: Index, user: User, done: set<Room>): map<Room,
                        RoomEntry> {
    map r | r in entries && r !in Emptied(rooms, user, done) ::
      if r in done then entries[r].(refs := entries[r].refs - 1) else entries[r]
  }

  ghost function RedisOf(entries: map<Room, RoomEntry>, which: set<Room>): set<ChanId> {
    set r | r in which && r in entries :: entries[r].redis
  }

  ghost function NamesOf(which: set<Room>): set<Name> {
    set r | r in which :: RoomChannel(r)
  }

  /** The bus and the bridges once the rooms in `gone` have been torn down. */
  ghost predicate TornDown(was: ChatView, bus: Bus, bridges: map<ChanId, RoomBridge>, gone: set<Room>) {
    && bridges == CancelAll(was.bridges, RedisOf(was.entries, gone))
    && bus.closed == was.bus.closed
    && (bus.closed ==> bus == was.bus)
    && (!bus.closed ==> bus.subs == was.bus.subs - NamesOf(gone)
                        && bus.chans == CloseAll(was.bus.chans, RedisOf(was.entries, gone)))
  }

  ghost predicate UserRow(was: Index, now: Index, user: User, done: set<Room>) {
    NoEmptyRow(now) && forall u :: Row(now, u) == if u == user then Row(was, u) - done else Row(was, u)
  }

  /** `user` has left the rooms in `done`: they have lost exactly that member and one reference each, and
      those without another member are torn down. */
  ghost predicate LeftSome(was: ChatView, now: ChatView, user: User, done: set<Room>) {
    && now.book.clients == was.book.clients
    && now.book.rooms == Evict(was.book.rooms, user, done)
    && UserRow(was.book.userRooms, now.book.userRooms, user, done)
    && now.entries == EntriesAfter(was.entries, was.book.rooms, user, done)
    && TornDown(was, now.bus, now.bridges, Emptied(was.book.rooms, user, done))
  }

  lemma LeftNone(h: ChatView, user: User)
    requires Wired(h)
    ensures LeftSome(h, h, user, {})
  {
    hide Served, Counted;
    assert Evict(h.book.rooms, user, {}) == h.book.rooms;
    assert Emptied(h.book.rooms, user, {}) == {};
    assert h.entries == EntriesAfter(h.entries, h.book.rooms, user, {});
    TornDownNone(h);
  }

  lemma TornDownNone(h: ChatView)
    ensures TornDown(h, h.bus, h.bridges, {})
  {
    assert RedisOf(h.entries, {}) == {} && NamesOf({}) == {};
  }

  lemma TornDownOne(was: ChatView, bus: Bus, bridges: map<ChanId, RoomBridge>, gone: set<Room>, room: Room,
                    t: Transport)
    requires TornDown(was, bus, bridges, gone) && room in was.entries
    requires !bus.closed ==> bus.List(RoomChannel(room)) == [was.entries[room].redis]
    ensures var g := was.entries[room].redis;
            TornDown(was, BusUnsubscribe(bus, RoomChannel(room), g, t).0, CancelAll(bridges, {g}), gone + {room})
  {
    hide BusUnsubscribe;
    var g := was.entries[room].redis;
    RedisMore(was.entries, gone, room);
    CancelMore(was.bridges, RedisOf(was.entries, gone), {g});
    UnsubscribeShape(bus, RoomChannel(room), g, t);
    if !bus.closed {
      OneOff(bus, RoomChannel(room), g, t);
      CloseMore(was.bus.chans, RedisOf(was.entries, gone), {g});
      assert NamesOf(gone + {room}) == NamesOf(gone) + {RoomChannel(room)};
    }
  }

  lemma RedisMore(entries: map<Room, RoomEntry>, gone: set<Room>, room: Room)
    requires room in entries
    ensures RedisOf(entries, gone + {room}) == RedisOf(entries, gone) + {entries[room].redis}
  {
  }

  lemma CancelMore(bridges: map<ChanId, RoomBridge>, done: set<ChanId>, more: set<ChanId>)
    ensures CancelAll(CancelAll(bridges, done), more) == CancelAll(bridges, done + more)
  {
  }

  /** Unsubscribing a name's only consumer. */
  lemma OneOff(b: Bus, name: Name, c: ChanId, t: Transport)
    requires !b.closed && b.List(name) == [c]
    ensures var r := BusUnsubscribe(b, name, c, t).0; r.subs == b.subs - {name} && r.chans == CloseAll(b.chans, {c})
  {
    assert PubSub.Without([c], c) == [];
  }

  lemma OwnConsumer(h: ChatView, room: Room)
    requires Wired(h) && room in h.entries && !h.bus.closed
    ensures h.bus.List(RoomChannel(room)) == [h.entries[room].redis]
  {
    hide Bridged, Counted;
  }

  lemma EntriesLeave(entries: map<Room, RoomEntry>, rooms: Index, user: User, done: set<Room>, room: Room)
    requires room in entries && room !in done
    ensures var now := EntriesAfter(entries, rooms, user, done);
            && room in now && now[room] == entries[room]
            && EntriesAfter(entries, rooms, user, done + {room}) ==
               (if Row(rooms, room) == {user} then now - {room} else now[room := now[room].(refs := now[room].refs - 1)])
  {
    EmptiedMore(rooms, user, done, room);
  }

  lemma EmptiedMore(rooms: Index, user: User, done: set<Room>, room: Room)
    ensures Emptied(rooms, user, done + {room}) ==
            if Row(rooms, room) == {user} then Emptied(rooms, user, done) + {room} else Emptied(rooms, user, done)
  {
  }

  lemma RoomStillFull(rooms: Index, user: User, done: set<Room>, room: Room)
    requires NoEmptyRow(rooms) && room !in done && user in Row(rooms, room)
    ensures Row(Evict(rooms, user, done), room) == Row(rooms, room)
    ensures room in Cut(Evict(rooms, user, done), room, user) <==> Row(rooms, room) != {user}
  {
    hide Evict, Cut;
    EvictKeepsNoEmptyRow(rooms, user, done);
    CutKeepsNoEmptyRow(Evict(rooms, user, done), room, user);
    assert Row(Evict(rooms, user, done), room) != {};
    InKeys(Evict(rooms, user, done), room);
  }

  lemma InKeys(index: Index, key: string)
    requires Row(index, key) != {}
    ensures key in index
  {
  }

  lemma UserRowLeave(was: Index, now: Index, user: User, done: set<Room>, room: Room)
    requires UserRow(was, now, user, done)
    ensures UserRow(was, Cut(now, user, room), user, done + {room})
  {
    hide Cut, Row;
    CutKeepsNoEmptyRow(now, user, room);
    forall u ensures Row(Cut(now, user, room), u) == if u == user then Row(was, u) - (done + {room}) else Row(was, u) {
      RowLeave(was, now, user, done, room, u);
    }
  }

  lemma RowLeave(was: Index, now: Index, user: User, done: set<Room>, room: Room, u: User)
    requires UserRow(was, now, user, done)
    ensures Row(Cut(now, user, room), u) == if u == user then Row(was, u) - (done + {room}) else Row(was, u)
  {
    hide Cut, Row, NoEmptyRow;
    var row := Row(now, u);
    if u == user {
      assert Row(was, u) - done - {room} == Row(was, u) - (done + {room});
    }
  }

  /** One more call of LeaveRoom. */
  lemma LeftOneMore(was: ChatView, now: ChatView, user: User, done: set<Room>, room: Room, t: Transport)
    requires Wired(was) && Wired(now) && LeftSome(was, now, user, done)
    requires room !in done && user in Row(was.book.rooms, room)
    ensures LeftSome(was, LeaveRoom(now, room, user, t), user, done + {room})
  {
    hide Served, Bridged, Consumed, TornDown, UserRow, EntriesAfter, Emptied, Evict, Cut, BusUnsubscribe, CancelAll,
      Mirror;
    NoEmptyRooms(was.book);
    RoomStillFull(was.book.rooms, user, done, room);
    EvictOneMore(was.book.rooms, user, done, room);
    UserRowLeave(was.book.userRooms, now.book.userRooms, user, done, room);
    InKeys(was.book.rooms, room);
    EntriesLeave(was.entries, was.book.rooms, user, done, room);
    EmptiedMore(was.book.rooms, user, done, room);
    if Row(was.book.rooms, room) == {user} {
      if !now.bus.closed {
        OwnConsumer(now, room);
      }
      TornDownOne(was, now.bus, now.bridges, Emptied(was.book.rooms, user, done), room, t);
    }
  }

  /** All of the user's rooms: the membership relation is the old one without exactly that user's pairs. */
  lemma LeftAll(was: ChatView, now: ChatView, user: User)
    requires Wired(was) && LeftSome(was, now, user, Row(was.book.userRooms, user))
    ensures Members(now.book.rooms) == iset r: Room, u: User | (r, u) in Members(was.book.rooms) && u != user :: (r, u)
    ensures now.book.userRooms == was.book.userRooms - {user}
  {
    hide Served, Counted, TornDown, EntriesAfter, Emptied;
    EvictAll(was.book, user);
    UserGone(was.book.userRooms, now.book.userRooms, user);
  }

  lemma UserGone(was: Index, now: Index, user: User)
    requires NoEmptyRow(was) && UserRow(was, now, user, Row(was, user))
    ensures now == was - {user}
  {
    assert forall k :: k in now <==> Row(now, k) != {};
    assert forall k :: Row(now, k) == Row(was - {user}, k);
    SameRows(now, was - {user});
  }
}
