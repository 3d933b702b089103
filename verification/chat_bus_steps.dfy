/** Room entries, bridges and bus consumers, step by step. */
module ChatBusSteps {
  import opened GoChannels
  import opened ChannelNames
  import opened PubSub
  import opened ChatIndex
  import opened ChatWiring
  import opened ChatRuns

  lemma CountKeepsBus(entries: map<Room, RoomEntry>, bridges: map<ChanId, RoomBridge>, b: Bus, room: Room, refs: int)
    requires BusInv(entries, bridges, b, Free) && room in entries
    ensures BusInv(entries[room := entries[room].(refs := refs)], bridges, b, Free)
  {
  }

  lemma CallKeepsBus(entries: map<Room, RoomEntry>, bridges: map<ChanId, RoomBridge>, b: Bus, call: Call, next: Call)
    requires BusInv(entries, bridges, b, call)
    requires !call.Detaching? && !call.ClosingBus? && !next.Detaching? && !next.ClosingBus?
    ensures BusInv(entries, bridges, b, next)
  {
    hide Bridged, Consumed;
  }

  lemma AttachKeepsBus(entries: map<Room, RoomEntry>, bridges: map<ChanId, RoomBridge>, b: Bus, room: Room, redis: ChanId,
                       t: Transport)
    requires BusInv(entries, bridges, b, Free) && room !in entries && redis !in b.chans
    ensures var (c, err) := BusSubscribe(b, RoomChannel(room), redis, t);
            if err.NoError?
            then BusInv(entries[room := RoomEntry(1, redis)], bridges[redis := RoomBridge(room, false)], c, Free)
            else BusInv(entries, bridges, c, Free)
  {
    hide Bridged, Consumed;
    if BusSubscribe(b, RoomChannel(room), redis, t).1.NoError? {
      ServedAttach(entries, bridges, b, room, 1, redis, t);
    } else {
      ServedFailed(entries, bridges, b, RoomChannel(room), redis, t);
    }
  }

  lemma CancelKeepsBus(entries: map<Room, RoomEntry>, bridges: map<ChanId, RoomBridge>, b: Bus, room: Room, refs: int)
    requires BusInv(entries, bridges, b, Free) && room in entries
    ensures BusInv(entries[room := entries[room].(refs := refs)], CancelAll(bridges, {entries[room].redis}), b, Detaching(room))
  {
    hide Bridged, Consumed, CancelAll;
    CountKeepsBus(entries, bridges, b, room, refs);
    BridgedCancel(entries[room := entries[room].(refs := refs)], bridges, room, {});
    assert {} + {room} == {room};
  }

  lemma DetachKeepsBus(entries: map<Room, RoomEntry>, bridges: map<ChanId, RoomBridge>, b: Bus, room: Room, t: Transport)
    requires BusInv(entries, bridges, b, Detaching(room)) && room in entries
    ensures BusInv(entries - {room}, bridges, BusUnsubscribe(b, RoomChannel(room), entries[room].redis, t).0, Free)
  {
    hide Bridged, Consumed, BusUnsubscribe;
    var c := BusUnsubscribe(b, RoomChannel(room), entries[room].redis, t).0;
    UnsubscribeShape(b, RoomChannel(room), entries[room].redis, t);
    if !b.closed {
      ConsumedLeave(entries, b, room, {}, t);
      assert {} + {room} == {room};
      assert Served(entries, bridges, c, {room});
      ServedDelete(entries, bridges, c, {room});
    } else {
      BridgedDelete(entries, bridges, room);
    }
  }

  lemma BridgedDelete(entries: map<Room, RoomEntry>, bridges: map<ChanId, RoomBridge>, room: Room)
    requires Bridged(entries, bridges, {room})
    ensures Bridged(entries - {room}, bridges, {})
  {
  }

  lemma BeginCloseKeepsBus(entries: map<Room, RoomEntry>, bridges: map<ChanId, RoomBridge>, b: Bus)
    requires BusInv(entries, bridges, b, Free)
    ensures BusInv(entries, bridges, b, ClosingBus(entries.Keys))
  {
    hide Bridged, Consumed;
    assert entries.Keys - entries.Keys == {};
  }

  lemma CloseOneKeepsBus(entries: map<Room, RoomEntry>, bridges: map<ChanId, RoomBridge>, b: Bus, todo: set<Room>, room: Room,
                         t: Transport)
    requires BusInv(entries, bridges, b, ClosingBus(todo)) && room in todo && todo <= entries.Keys
    ensures BusInv(entries, CancelAll(bridges, {entries[room].redis}),
                   BusUnsubscribe(b, RoomChannel(room), entries[room].redis, t).0, ClosingBus(todo - {room}))
  {
    hide Bridged, Consumed, BusUnsubscribe, CancelAll;
    var gone := entries.Keys - todo;
    assert entries.Keys - (todo - {room}) == gone + {room};
    UnsubscribeShape(b, RoomChannel(room), entries[room].redis, t);
    ServedDetach(entries, bridges, b, room, gone, t);
  }

  lemma CloseEntriesKeepsBus(entries: map<Room, RoomEntry>, bridges: map<ChanId, RoomBridge>, b: Bus)
    requires BusInv(entries, bridges, b, ClosingBus({}))
    ensures BusInv(map[], bridges, b, ClosingStore)
  {
    assert entries.Keys - {} == entries.Keys;
  }

  // --- The rest of the bus -----------------------------------------------------------------------------------

  /** The lists of rooms are as they were, or the bus has been closed. */
  ghost predicate RoomsKept(b: Bus, c: Bus) {
    && (c.closed || (!b.closed && forall r :: RoomChannel(r) in b.subs <==> RoomChannel(r) in c.subs))
    && (c.closed || forall r :: RoomChannel(r) in b.subs && RoomChannel(r) in c.subs ==>
                      c.subs[RoomChannel(r)] == b.subs[RoomChannel(r)])
    && (forall g :: g in b.chans ==> g in c.chans)
  }

  lemma OthersKeepBus(entries: map<Room, RoomEntry>, bridges: map<ChanId, RoomBridge>, b: Bus, c: Bus, call: Call)
    requires BusInv(entries, bridges, b, call) && RoomsKept(b, c)
    ensures BusInv(entries, bridges, c, call)
  {
    hide Bridged;
  }

  lemma OtherSubscribeKeepsRooms(b: Bus, post: string, out: ChanId, t: Transport)
    ensures RoomsKept(b, BusSubscribe(b, PostChannel(post), out, t).0)
  {
  }

  lemma OtherUnsubscribeKeepsRooms(b: Bus, post: string, sub: ChanId, t: Transport)
    ensures RoomsKept(b, BusUnsubscribe(b, PostChannel(post), sub, t).0)
  {
  }

  lemma DeliveryKeepsRooms(b: Bus)
    ensures forall m :: RoomsKept(b, FanOut(b, m))
    ensures forall c :: c in b.chans && b.chans[c].buf != [] ==> RoomsKept(b, BusReceive(b, c))
    ensures RoomsKept(b, BusClose(b))
  {
  }
}
