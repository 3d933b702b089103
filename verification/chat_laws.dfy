/** What the calls of the chat hub do, told by members, entries, consumers and channels. */
module ChatLaws {
  import opened GoChannels
  import opened ChannelNames
  import opened PubSub
  import opened PubSubLaws
  import opened ChatIndex
  import opened ChatWiring
  import opened ChatLeaveAll

  ghost predicate IsMember(h: ChatView, room: Room, user: User) {
    (room, user) in Members(h.book.rooms)
  }

  lemma ListedIffEntry(h: ChatView, room: Room)
    requires Wired(h) && !h.bus.closed
    ensures RoomChannel(room) in h.bus.subs <==> room in h.entries
    ensures room in h.entries ==> h.bus.List(RoomChannel(room)) == [h.entries[room].redis]
  {
    hide Bridged, Counted;
  }

  ghost predicate OtherRoomsKept(h: ChatView, r: ChatView, room: Room) {
    forall q :: q != room ==> (q in r.entries <==> q in h.entries) && (q in h.entries ==> r.entries[q] == h.entries[q])
  }

  ghost predicate OtherBridgesKept(h: ChatView, r: ChatView, g: ChanId) {
    forall b :: b != g ==> (b in r.bridges <==> b in h.bridges) && (b in h.bridges ==> r.bridges[b] == h.bridges[b])
  }

  // --- Joining -----------------------------------------------------------------------------------------------------

  /** A user without a client, or who is a member already, joins nothing, and is told of no error. */
  lemma IdleJoinMeans(h: ChatView, room: Room, user: User, redis: ChanId, t: Transport)
    requires Wired(h) && (user !in h.book.clients || IsMember(h, room, user))
    ensures JoinRoom(h, room, user, redis, t) == (h, NoError)
  {
    hide Served, Counted, Join, Members;
    JoinIsInsert(h.book, room, user);
  }

  /** Anybody else's join succeeds if and only if the room has members already, or the bus is open and the transport
      agrees. */
  lemma JoinSucceedsIff(h: ChatView, room: Room, user: User, redis: ChanId, t: Transport)
    requires Wired(h) && h.bus.Valid() && user in h.book.clients && !IsMember(h, room, user)
    ensures var err := JoinRoom(h, room, user, redis, t).1;
            && (err.NoError? <==> room in h.entries || (!h.bus.closed && t.Ok?))
            && (err.ErrClosed? <==> room !in h.entries && h.bus.closed)
  {
    hide Bus.Valid, Served, Counted, Join, Members, BusSubscribe;
    JoinIsInsert(h.book, room, user);
    if !h.bus.closed {
      ListedIffEntry(h, room);
    }
    SubscribeSucceedsIff(h.bus, RoomChannel(room), redis, t);
  }

  /** The new member is the only change of membership, and is counted. */
  lemma JoinMeans(h: ChatView, room: Room, user: User, redis: ChanId, t: Transport)
    requires Wired(h) && user in h.book.clients && !IsMember(h, room, user) && JoinRoom(h, room, user, redis, t).1.NoError?
    ensures var r := JoinRoom(h, room, user, redis, t).0;
            && Members(r.book.rooms) == Members(h.book.rooms) + iset{(room, user)} && r.book.clients == h.book.clients
            && room in r.entries && r.entries[room].refs == (if room in h.entries then h.entries[room].refs else 0) + 1
            && OtherRoomsKept(h, r, room)
            && (room in h.entries ==>
                  r.entries[room].redis == h.entries[room].redis && r.bus == h.bus && r.bridges == h.bridges)
  {
    hide Served, Counted, Join, Members, BusSubscribe;
    JoinIsInsert(h.book, room, user);
  }

  /** The first member's join starts a bridge on a new open, empty channel, the only consumer of the room. */
  lemma FirstJoinMeans(h: ChatView, room: Room, user: User, redis: ChanId, t: Transport)
    requires Wired(h) && h.bus.Valid() && user in h.book.clients && !IsMember(h, room, user) && room !in h.entries
    requires redis !in h.bus.chans && JoinRoom(h, room, user, redis, t).1.NoError?
    ensures var r := JoinRoom(h, room, user, redis, t).0;
            && room in r.entries && r.entries[room].redis == redis
            && redis in r.bridges && r.bridges[redis] == RoomBridge(room, false) && OtherBridgesKept(h, r, redis)
            && r.bus.List(RoomChannel(room)) == [redis]
            && redis in r.bus.chans && r.bus.chans[redis] == Chan(64, [], false)
            && OtherNamesKept(h.bus, r.bus, RoomChannel(room)) && OtherChannelsKept(h.bus, r.bus, {})
  {
    hide Bus.Valid, Served, Counted, Join, Members, BusSubscribe, OtherNamesKept, OtherChannelsKept;
    JoinIsInsert(h.book, room, user);
    SubscribeSucceedsIff(h.bus, RoomChannel(room), redis, t);
    ListedIffEntry(h, room);
    SubscribeMeans(h.bus, RoomChannel(room), redis, t);
    assert h.bus.List(RoomChannel(room)) == [];
  }

  // --- Leaving -----------------------------------------------------------------------------------------------------

  lemma IdleLeaveMeans(h: ChatView, room: Room, user: User, t: Transport)
    requires Wired(h) && !IsMember(h, room, user)
    ensures LeaveRoom(h, room, user, t) == h
  {
    hide Served, Counted, Leave, Members;
    LeaveIsDelete(h.book, room, user);
  }

  /** The member who leaves is the only change of membership; the room's count goes down, and the room goes with its last
      member. */
  lemma LeaveMeans(h: ChatView, room: Room, user: User, t: Transport)
    requires Wired(h) && IsMember(h, room, user)
    ensures room in h.entries
    ensures var r := LeaveRoom(h, room, user, t);
            && Members(r.book.rooms) == Members(h.book.rooms) - iset{(room, user)} && r.book.clients == h.book.clients
            && OtherRoomsKept(h, r, room)
            && (room in r.entries <==> exists u :: u != user && IsMember(h, room, u))
            && (room in r.entries ==>
                  && r.entries[room] == RoomEntry(h.entries[room].refs - 1, h.entries[room].redis)
                  && r.bus == h.bus && r.bridges == h.bridges)
  {
    hide Served, Counted, Leave, Members, BusUnsubscribe, IndexValid, CancelAll;
    LeaveIsDelete(h.book, room, user);
    assert forall u :: (room, u) in Members(h.book.rooms) <==> IsMember(h, room, u);
    RoomEmptyIffLastRef(h, room, user);
  }

  /** The last one cancels the room's bridge and no other, and on an open bus closes its channel and no other. */
  lemma LastLeaveMeans(h: ChatView, room: Room, user: User, t: Transport)
    requires Wired(h) && h.bus.Valid() && IsMember(h, room, user) && forall u :: u != user ==> !IsMember(h, room, u)
    ensures room in h.entries
    ensures var r, g := LeaveRoom(h, room, user, t), h.entries[room].redis;
            && g in r.bridges && r.bridges[g] == RoomBridge(room, true) && OtherBridgesKept(h, r, g)
            && (h.bus.closed ==> r.bus == h.bus)
            && (!h.bus.closed ==>
                  && RoomChannel(room) !in r.bus.subs && OtherNamesKept(h.bus, r.bus, RoomChannel(room))
                  && g in h.bus.chans && g in r.bus.chans && r.bus.chans[g] == Chan(h.bus.chans[g].cap, h.bus.chans[g].buf, true)
                  && OtherChannelsKept(h.bus, r.bus, {g}))
  {
    hide Bus.Valid, Served, Counted, Leave, Members, BusUnsubscribe, IndexValid, OtherNamesKept, OtherChannelsKept;
    LeaveIsDelete(h.book, room, user);
    assert forall u :: (room, u) in Members(h.book.rooms) <==> IsMember(h, room, u);
    RoomEmptyIffLastRef(h, room, user);
    var g := h.entries[room].redis;
    OwnBridge(h, room);
    if h.bus.closed {
      IdleUnsubscribeMeans(h.bus, RoomChannel(room), g, t);
    } else {
      ListedIffEntry(h, room);
      assert g in h.bus.List(RoomChannel(room));
      UnsubscribeMeans(h.bus, RoomChannel(room), g, t);
    }
  }

  lemma OwnBridge(h: ChatView, room: Room)
    requires Wired(h) && room in h.entries
    ensures h.entries[room].redis in h.bridges && h.bridges[h.entries[room].redis] == RoomBridge(room, false)
  {
    hide Consumed, Counted;
  }

  // --- Leaving every room, and closing --------------------------------------------------------------------------------

  /** The user's rooms without another member. */
  ghost predicate Alone(h: ChatView, room: Room, user: User) {
    IsMember(h, room, user) && forall u :: u != user ==> !IsMember(h, room, u)
  }

  lemma AloneIsEmptied(h: ChatView, room: Room, user: User)
    requires h.book.Valid()
    ensures room in Emptied(h.book.rooms, user, Row(h.book.userRooms, user)) <==> Alone(h, room, user)
    ensures room in Row(h.book.userRooms, user) <==> IsMember(h, room, user)
  {
    assert user in Row(h.book.rooms, room) <==> room in Row(h.book.userRooms, user);
    if Alone(h, room, user) {
      LastMember(h.book.rooms, room, user);
    }
    assert forall u :: u in Row(h.book.rooms, room) <==> IsMember(h, room, u);
  }

  /** Entries after a user has left every room: gone for the rooms the user was alone in, one reference less for the
      user's other rooms, and as they were for all others. */
  lemma LeaveAllCounts(h: ChatView, user: User, room: Room)
    requires Wired(h)
    ensures var after := EntriesAfter(h.entries, h.book.rooms, user, Row(h.book.userRooms, user));
            && (room in after <==> room in h.entries && !Alone(h, room, user))
            && (room in after ==>
                  && after[room].redis == h.entries[room].redis
                  && after[room].refs == h.entries[room].refs - (if IsMember(h, room, user) then 1 else 0))
  {
    hide Served, Counted, Members, Emptied, Alone, IsMember, IndexValid;
    AloneIsEmptied(h, room, user);
  }

  /** Rooms that have been torn down have no consumer and no running bridge, and their channels are closed; all other rooms,
      names, bridges and channels are as they were. */
  lemma TornDownMeans(h: ChatView, bus: Bus, bridges: map<ChanId, RoomBridge>, gone: set<Room>)
    requires Wired(h) && TornDown(h, bus, bridges, gone) && gone <= h.entries.Keys
    ensures bridges.Keys == h.bridges.Keys
    ensures forall g :: g in bridges ==>
              bridges[g] == RoomBridge(h.bridges[g].room,
                                       h.bridges[g].cancelled || exists r :: r in gone && h.entries[r].redis == g)
    ensures h.bus.closed ==> bus == h.bus
    ensures !h.bus.closed ==>
              && !bus.closed
              && (forall n :: bus.List(n) == if n.RoomChannel? && n.roomID in gone then [] else h.bus.List(n))
              && (forall c :: c in h.bus.chans ==>
                    c in bus.chans &&
                    bus.chans[c] == if exists r :: r in gone && h.entries[r].redis == c
                                    then Chan(h.bus.chans[c].cap, h.bus.chans[c].buf, true) else h.bus.chans[c])
  {
    hide Wired;
    var redis := RedisOf(h.entries, gone);
    assert forall c :: c in redis <==> exists r :: r in gone && h.entries[r].redis == c;
    assert forall n :: n in NamesOf(gone) <==> n.RoomChannel? && n.roomID in gone;
  }

  /** In particular Close: no room has a consumer and no bridge runs on. */
  lemma CloseMeans(h: ChatView, bus: Bus, bridges: map<ChanId, RoomBridge>)
    requires Wired(h) && TornDown(h, bus, bridges, h.entries.Keys)
    ensures forall g :: g in bridges ==> bridges[g].cancelled
    ensures !h.bus.closed ==> forall r :: bus.List(RoomChannel(r)) == []
  {
    hide Wired, TornDown;
    TornDownMeans(h, bus, bridges, h.entries.Keys);
    forall g | g in bridges ensures bridges[g].cancelled {
      if !h.bridges[g].cancelled {
        RunningIsOwn(h, g);
      }
    }
    if !h.bus.closed {
      forall r ensures bus.List(RoomChannel(r)) == [] {
        ListedIffEntry(h, r);
      }
    }
  }

  lemma RunningIsOwn(h: ChatView, g: ChanId)
    requires Wired(h) && g in h.bridges && !h.bridges[g].cancelled
    ensures h.bridges[g].room in h.entries && h.entries[h.bridges[g].room].redis == g
  {
    hide Consumed, Counted, IndexValid;
  }
}
