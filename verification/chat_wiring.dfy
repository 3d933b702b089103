/** The chat hub of one gateway as a value: it counts the members of each room and keeps one bridge from
    the bus to the store per room with members. */
module ChatWiring {
  import opened GoChannels
  import opened ChannelNames
  import opened PubSub
  import opened ChatIndex

  datatype RoomEntry = RoomEntry(refs: int, redis: ChanId)

  /** A bridge goroutine's parameters, by the bus channel it reads; `cancelled` is its context. */
  datatype RoomBridge = RoomBridge(room: Room, cancelled: bool)

  datatype ChatView = ChatView(
    bus: Bus,
    entries: map<Room, RoomEntry>,       // h.rooms
    bridges: map<ChanId, RoomBridge>,
    book: Book                             // the store's index
  )

  // --- What the operations do ----------------------------------------------------------------------------

  /** A join whose bus Subscribe fails leaves the index as it was. */
  function JoinRoom(h: ChatView, room: Room, user: User, redis: ChanId, t: Transport): (r: (ChatView, Error)) {
    var (book, added) := Join(h.book, room, user);
    if !added then (h, NoError) else
    if room in h.entries then
      var e := h.entries[room];
      (h.(book := book, entries := h.entries[room := e.(refs := e.refs + 1)]), NoError)
    else
      var (bus, err) := BusSubscribe(h.bus, RoomChannel(room), redis, t);
      if !err.NoError? then (h.(bus := bus), err) else
        (h.(bus := bus, book := book,
            entries := h.entries[room := RoomEntry(1, redis)],
            bridges := h.bridges[redis := RoomBridge(room, false)]), NoError)
  }

  function CancelAll(bridges: map<ChanId, RoomBridge>, which: set<ChanId>): (r: map<ChanId, RoomBridge>)
    ensures r.Keys == bridges.Keys
  {
    map g | g in bridges :: if g in which then bridges[g].(cancelled := true) else bridges[g]
  }

  function LeaveRoom(h: ChatView, room: Room, user: User, t: Transport): (r: ChatView) {
    var left := Leave(h.book, room, user);
    if !left.removed then h else
    if room !in h.entries then h.(book := left.book) else
      var e := h.entries[room];
      if !left.roomEmpty then h.(book := left.book, entries := h.entries[room := e.(refs := e.refs - 1)]) else
        ChatView(BusUnsubscribe(h.bus, RoomChannel(room), e.redis, t).0,
                 h.entries - {room}, CancelAll(h.bridges, {e.redis}), left.book)
  }

  // --- The composed invariant ----------------------------------------------------------------------------

  /** A room has an entry exactly when it has members, and `refs` is their number. */
  ghost predicate Counted(entries: map<Room, RoomEntry>, rooms: Index) {
    && entries.Keys == rooms.Keys
    && forall r :: r in entries ==> entries[r].refs == |Row(rooms, r)|
  }

  /** Every entry not in `leaving` has its own running bridge; all other bridges have been cancelled. */
  ghost predicate Bridged(entries: map<Room, RoomEntry>, bridges: map<ChanId, RoomBridge>, leaving: set<Room>) {
    && (forall r :: r in entries ==> entries[r].redis in bridges && bridges[entries[r].redis] == RoomBridge(r, r in leaving))
    && (forall g :: g in bridges && !bridges[g].cancelled ==>
          bridges[g].room in entries && entries[bridges[g].room].redis == g)
  }

  /** A room's channel has a consumer exactly when the room has an entry and is not in `gone`; it is then
      the entry's own, and the only one. */
  ghost predicate Consumed(entries: map<Room, RoomEntry>, lists: map<Name, seq<ChanId>>, gone: set<Room>) {
    forall r ::
      if r in entries && r !in gone then RoomChannel(r) in lists && lists[RoomChannel(r)] == [entries[r].redis]
      else RoomChannel(r) !in lists
  }

  ghost predicate Served(entries: map<Room, RoomEntry>, bridges: map<ChanId, RoomBridge>, bus: Bus, gone: set<Room>) {
    && Bridged(entries, bridges, gone)
    && (!bus.closed ==> Consumed(entries, bus.subs, gone))
  }

  ghost predicate Wired(h: ChatView) {
    && h.book.Valid()
    && Counted(h.entries, h.book.rooms)
    && Served(h.entries, h.bridges, h.bus, {})
  }

  // --- Entries and bus -------------------------------------------------------------------------------------

  lemma ServedAttach(entries: map<Room, RoomEntry>, bridges: map<ChanId, RoomBridge>, b: Bus, room: Room, refs: int,
                     redis: ChanId, t: Transport)
    requires Served(entries, bridges, b, {}) && room !in entries && redis !in bridges
    requires BusSubscribe(b, RoomChannel(room), redis, t).1.NoError?
    ensures Served(entries[room := RoomEntry(refs, redis)], bridges[redis := RoomBridge(room, false)],
                   BusSubscribe(b, RoomChannel(room), redis, t).0, {})
  {
    assert forall r :: RoomChannel(r) == RoomChannel(room) ==> r == room;
  }

  lemma ServedFailed(entries: map<Room, RoomEntry>, bridges: map<ChanId, RoomBridge>, b: Bus, name: Name,
                     redis: ChanId, t: Transport)
    requires Served(entries, bridges, b, {}) && !BusSubscribe(b, name, redis, t).1.NoError?
    ensures Served(entries, bridges, BusSubscribe(b, name, redis, t).0, {})
  {
  }

  /** The bridges and consumers do not depend on the counts. */
  lemma ServedCount(entries: map<Room, RoomEntry>, bridges: map<ChanId, RoomBridge>, b: Bus, room: Room, refs: int)
    requires Served(entries, bridges, b, {}) && room in entries
    ensures Served(entries[room := entries[room].(refs := refs)], bridges, b, {})
  {
  }

  lemma BridgedCancel(entries: map<Room, RoomEntry>, bridges: map<ChanId, RoomBridge>, room: Room, gone: set<Room>)
    requires Bridged(entries, bridges, gone) && room in entries
    ensures Bridged(entries, CancelAll(bridges, {entries[room].redis}), gone + {room})
  {
    assert forall r :: r in entries && r != room ==> entries[r].redis != entries[room].redis;
  }

  lemma ConsumedLeave(entries: map<Room, RoomEntry>, b: Bus, room: Room, gone: set<Room>, t: Transport)
    requires !b.closed && Consumed(entries, b.subs, gone) && room in entries && room !in gone
    ensures var r := BusUnsubscribe(b, RoomChannel(room), entries[room].redis, t).0;
            && Consumed(entries, r.subs, gone + {room})
            && r.subs == b.subs - {RoomChannel(room)} && r.chans == CloseAll(b.chans, {entries[room].redis})
  {
    var g := entries[room].redis;
    assert b.List(RoomChannel(room)) == [g];
    assert PubSub.Without([g], g) == [];
    assert forall r :: RoomChannel(r) == RoomChannel(room) ==> r == room;
  }

  lemma UnsubscribeShape(b: Bus, name: Name, c: ChanId, t: Transport)
    ensures var r := BusUnsubscribe(b, name, c, t).0;
            r.closed == b.closed && r.chans.Keys == b.chans.Keys && (b.closed ==> r == b)
  {
  }

  lemma ServedDetach(entries: map<Room, RoomEntry>, bridges: map<ChanId, RoomBridge>, b: Bus, room: Room,
                     gone: set<Room>, t: Transport)
    requires Served(entries, bridges, b, gone) && room in entries && room !in gone
    ensures Served(entries, CancelAll(bridges, {entries[room].redis}),
                   BusUnsubscribe(b, RoomChannel(room), entries[room].redis, t).0, gone + {room})
  {
    hide Bridged, Consumed, CancelAll, BusUnsubscribe;
    BridgedCancel(entries, bridges, room, gone);
    UnsubscribeShape(b, RoomChannel(room), entries[room].redis, t);
    if !b.closed {
      ConsumedLeave(entries, b, room, gone, t);
    }
  }

  /** An entry that is off the bus can be deleted. */
  lemma ServedDelete(entries: map<Room, RoomEntry>, bridges: map<ChanId, RoomBridge>, b: Bus, gone: set<Room>)
    requires Served(entries, bridges, b, gone)
    ensures Served(entries - gone, bridges, b, {})
  {
  }

  lemma ServedLeave(entries: map<Room, RoomEntry>, bridges: map<ChanId, RoomBridge>, b: Bus, room: Room, t: Transport)
    requires Served(entries, bridges, b, {}) && room in entries
    ensures Served(entries - {room}, CancelAll(bridges, {entries[room].redis}),
                   BusUnsubscribe(b, RoomChannel(room), entries[room].redis, t).0, {})
  {
    hide Served, CancelAll, BusUnsubscribe;
    ServedDetach(entries, bridges, b, room, {}, t);
    assert {} + {room} == {room};
    ServedDelete(entries, CancelAll(bridges, {entries[room].redis}),
                 BusUnsubscribe(b, RoomChannel(room), entries[room].redis, t).0, {room});
  }

  // --- The calls keep the invariant ------------------------------------------------------------------------

  lemma CountedJoin(entries: map<Room, RoomEntry>, rooms: Index, room: Room, user: User, redis: ChanId)
    requires Counted(entries, rooms) && NoEmptyRow(rooms) && user !in Row(rooms, room)
    ensures var e := if room in entries then entries[room].(refs := entries[room].refs + 1) else RoomEntry(1, redis);
            Counted(entries[room := e], Put(rooms, room, user))
  {
    hide Put;
    PutKeepsNoEmptyRow(rooms, room, user);
    assert room !in entries ==> Row(rooms, room) == {};
  }

  lemma CountedLeave(entries: map<Room, RoomEntry>, rooms: Index, room: Room, user: User)
    requires Counted(entries, rooms) && NoEmptyRow(rooms) && user in Row(rooms, room)
    ensures room in entries
    ensures room in Cut(rooms, room, user) <==> entries[room].refs > 1
    ensures Counted(if entries[room].refs > 1 then entries[room := entries[room].(refs := entries[room].refs - 1)] else entries - {room},
                    Cut(rooms, room, user))
  {
    hide Cut;
    CutKeepsNoEmptyRow(rooms, room, user);
    OneMember(Row(rooms, room), user);
  }

  lemma OneMember(s: set<string>, x: string)
    requires x in s
    ensures |s| >= 1 && (|s| > 1 <==> s != {x})
  {
    assert |s - {x}| == |s| - 1;
    assert s == (s - {x}) + {x};
  }

  lemma JoinKeepsWired(h: ChatView, room: Room, user: User, redis: ChanId, t: Transport)
    requires Wired(h) && redis !in h.bridges
    ensures Wired(JoinRoom(h, room, user, redis, t).0)
  {
    hide Served, Counted, BusSubscribe, IndexValid, Put;
    JoinKeepsValid(h.book, room, user);
    if Join(h.book, room, user).1 {
      JoinerIsNew(h.book, room, user);
      CountedJoin(h.entries, h.book.rooms, room, user, redis);
      if room in h.entries {
        ServedCount(h.entries, h.bridges, h.bus, room, h.entries[room].refs + 1);
      } else if BusSubscribe(h.bus, RoomChannel(room), redis, t).1.NoError? {
        ServedAttach(h.entries, h.bridges, h.bus, room, 1, redis, t);
      } else {
        ServedFailed(h.entries, h.bridges, h.bus, RoomChannel(room), redis, t);
      }
    }
  }

  lemma JoinerIsNew(b: Book, room: Room, user: User)
    requires b.Valid() && Join(b, room, user).1
    ensures NoEmptyRow(b.rooms) && user !in Row(b.rooms, room)
    ensures Join(b, room, user).0.rooms == Put(b.rooms, room, user)
  {
    assert user in Row(b.rooms, room) <==> room in Row(b.userRooms, user);
  }

  /** A member's leaving finds the room's entry, and the count reaches zero exactly when the store reports
      the room empty. */
  lemma RoomEmptyIffLastRef(h: ChatView, room: Room, user: User)
    requires Wired(h) && Leave(h.book, room, user).removed
    ensures room in h.entries && h.entries[room].refs >= 1
    ensures Leave(h.book, room, user).roomEmpty <==> h.entries[room].refs - 1 == 0
  {
    hide Served;
    CountedLeave(h.entries, h.book.rooms, room, user);
    OneMember(Row(h.book.rooms, room), user);
  }

  lemma LeaveKeepsWired(h: ChatView, room: Room, user: User, t: Transport)
    requires Wired(h)
    ensures Wired(LeaveRoom(h, room, user, t))
  {
    hide Served, Counted, BusUnsubscribe, IndexValid, Cut, CancelAll;
    LeaveKeepsValid(h.book, room, user);
    if Leave(h.book, room, user).removed {
      assert NoEmptyRow(h.book.rooms) by { NoEmptyRooms(h.book); }
      CountedLeave(h.entries, h.book.rooms, room, user);
      ServedCount(h.entries, h.bridges, h.bus, room, h.entries[room].refs - 1);
      ServedLeave(h.entries, h.bridges, h.bus, room, t);
    }
  }

  lemma NoEmptyRooms(b: Book)
    requires b.Valid()
    ensures NoEmptyRow(b.rooms)
  {
  }

  /** A join that fails changes neither side of the index, nor the hub's table, nor any consumer. */
  lemma FailedJoinChangesNothing(h: ChatView, room: Room, user: User, redis: ChanId, t: Transport)
    requires !JoinRoom(h, room, user, redis, t).1.NoError?
    ensures var r := JoinRoom(h, room, user, redis, t).0;
            && r.book == h.book && r.entries == h.entries && r.bridges == h.bridges
            && r.bus.subs == h.bus.subs && r.bus.chans == h.bus.chans
  {
  }
}
