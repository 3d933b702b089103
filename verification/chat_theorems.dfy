/** What holds of every run of the chat membership path. */
module ChatTheorems {
  import opened GoChannels
  import opened ChannelNames
  import opened PubSub
  import opened ChatIndex
  import opened ChatClients
  import opened ChatWiring
  import opened ChatRuns
  import opened ChatBusSteps
  import opened Maps

  // --- Joining -----------------------------------------------------------------------------------------------

  lemma JoinStep(s: Chat, room: Room, user: User)
    requires Inv(s) && s.call.Free?
    ensures Inv(DoJoin(s, room, user))
  {
    hide Bus.Valid, Roster.Valid, IndexValid, Put, RefsMatch, KeysMatch, Restorable, BusInv;
    if Join(s.book, room, user).1 {
      JoinKeepsValid(s.book, room, user);
      Newcomer(s.book, room, user);
      RefsPut(s.entries, s.book.rooms, room, user);
      KeysPut(s.entries, s.book.rooms, room, user, s.Saved());
      RestorableJoin(s.entries, s.book, room, user);
      if room in s.entries {
        CountKeepsBus(s.entries, s.bridges, s.bus, room, s.entries[room].refs + 1);
        assert s.entries[room := s.entries[room].(refs := s.entries[room].refs + 1)].Keys == s.entries.Keys + {room};
      } else {
        CallKeepsBus(s.entries, s.bridges, s.bus, Free, Joining(room, user, s.Saved()));
      }
    }
  }

  lemma Newcomer(b: Book, room: Room, user: User)
    requires b.Valid() && Join(b, room, user).1
    ensures user !in Row(b.rooms, room) && room !in Row(b.userRooms, user) && NoEmptyRow(b.rooms)
  {
    assert user in Row(b.rooms, room) <==> room in Row(b.userRooms, user);
  }

  lemma KeysPut(entries: map<Room, RoomEntry>, rooms: Index, room: Room, user: User, was: Snapshot)
    requires KeysMatch(entries.Keys, rooms.Keys, Free) && NoEmptyRow(rooms)
    ensures room in entries ==> KeysMatch(entries.Keys + {room}, Put(rooms, room, user).Keys, Free) && entries.Keys + {room} == entries.Keys
    ensures room !in entries ==> KeysMatch(entries.Keys, Put(rooms, room, user).Keys, Joining(room, user, was))
  {
    hide Put;
    PutKeepsNoEmptyRow(rooms, room, user);
  }

  lemma RestorableJoin(entries: map<Room, RoomEntry>, b: Book, room: Room, user: User)
    requires b.Valid() && Join(b, room, user).1 && KeysMatch(entries.Keys, b.rooms.Keys, Free)
    ensures room !in entries ==>
              Restorable(entries, Join(b, room, user).0, Joining(room, user, Snapshot(entries, b.rooms, b.userRooms)))
    ensures forall m, c: Book :: Restorable(m, c, Free)
  {
    hide Put;
    Newcomer(b, room, user);
  }

  lemma RefsPut(entries: map<Room, RoomEntry>, rooms: Index, room: Room, user: User)
    requires RefsMatch(entries, rooms) && user !in Row(rooms, room)
    ensures room in entries ==>
              RefsMatch(entries[room := entries[room].(refs := entries[room].refs + 1)], Put(rooms, room, user))
    ensures room !in entries ==> RefsMatch(entries, Put(rooms, room, user))
  {
    hide Put;
    assert |Row(rooms, room) + {user}| == |Row(rooms, room)| + 1;
  }

  lemma JoinBusStep(s: Chat, redis: ChanId, t: Transport)
    requires Inv(s) && s.call.Joining? && redis !in s.bus.chans
    ensures Inv(DoJoinBus(s, redis, t))
  {
    hide Bus.Valid, Roster.Valid, IndexValid, KeysMatch, RefsMatch, Restorable, BusInv, BusSubscribe;
    var room, err := s.call.room, BusSubscribe(s.bus, RoomChannel(s.call.room), redis, t).1;
    SubscribeKeepsValid(s.bus, RoomChannel(room), redis, t);
    NoEntryYet(s.entries, s.book.rooms, s.call);
    CallKeepsBus(s.entries, s.bridges, s.bus, s.call, Free);
    AttachKeepsBus(s.entries, s.bridges, s.bus, room, redis, t);
    if err.NoError? {
      FirstMember(s.entries, s.book, s.call, redis);
    } else {
      Failed(s.entries, s.book, s.call);
      CallKeepsBus(s.entries, s.bridges, BusSubscribe(s.bus, RoomChannel(room), redis, t).0, Free,
                   Undoing(room, s.call.user, s.call.was));
    }
  }

  lemma NoEntryYet(entries: map<Room, RoomEntry>, rooms: Index, call: Call)
    requires KeysMatch(entries.Keys, rooms.Keys, call) && call.Joining?
    ensures call.room !in entries
  {
  }

  lemma FirstMember(entries: map<Room, RoomEntry>, b: Book, call: Call, redis: ChanId)
    requires RefsMatch(entries, b.rooms) && KeysMatch(entries.Keys, b.rooms.Keys, call) && Restorable(entries, b, call) && call.Joining?
    ensures var after := entries[call.room := RoomEntry(1, redis)];
            RefsMatch(after, b.rooms) && KeysMatch(after.Keys, b.rooms.Keys, Free) && Restorable(after, b, Free)
  {
    hide Put, RefsMatch, KeysMatch;
    RefsFirst(entries, b.rooms, call.was.rooms, call.room, call.user, redis);
    KeysFirst(entries, b.rooms.Keys, call, redis);
  }

  lemma RefsFirst(entries: map<Room, RoomEntry>, rooms: Index, was: Index, room: Room, user: User, redis: ChanId)
    requires RefsMatch(entries, rooms) && rooms == Put(was, room, user) && Row(was, room) == {}
    ensures RefsMatch(entries[room := RoomEntry(1, redis)], rooms)
  {
    hide Put;
    assert Row(rooms, room) == {user};
  }

  lemma KeysFirst(entries: map<Room, RoomEntry>, rooms: set<Room>, call: Call, redis: ChanId)
    requires KeysMatch(entries.Keys, rooms, call) && call.Joining?
    ensures KeysMatch(entries[call.room := RoomEntry(1, redis)].Keys, rooms, Free)
  {
  }

  lemma Failed(entries: map<Room, RoomEntry>, b: Book, call: Call)
    requires KeysMatch(entries.Keys, b.rooms.Keys, call) && Restorable(entries, b, call) && call.Joining?
    ensures Restorable(entries, b, Undoing(call.room, call.user, call.was))
    ensures KeysMatch(entries.Keys, b.rooms.Keys, Undoing(call.room, call.user, call.was))
  {
    hide Put;
  }

  lemma JoinUndoStep(s: Chat)
    requires Inv(s) && s.call.Undoing?
    ensures Inv(DoJoinUndo(s)) && DoJoinUndo(s).Saved() == s.call.was
  {
    hide Bus.Valid, Roster.Valid, IndexValid, KeysMatch, RefsMatch, Restorable, BusInv, Put, Cut;
    LeaveKeepsValid(s.book, s.call.room, s.call.user);
    Restored(s.entries, s.book, s.call);
    CallKeepsBus(s.entries, s.bridges, s.bus, s.call, Free);
  }

  lemma Restored(entries: map<Room, RoomEntry>, b: Book, call: Call)
    requires RefsMatch(entries, b.rooms) && KeysMatch(entries.Keys, b.rooms.Keys, call) && Restorable(entries, b, call) && call.Undoing?
    ensures var left := Leave(b, call.room, call.user).book;
            && left.rooms == call.was.rooms && left.userRooms == call.was.userRooms && entries == call.was.entries
            && RefsMatch(entries, left.rooms) && KeysMatch(entries.Keys, left.rooms.Keys, Free) && Restorable(entries, left, Free)
  {
    hide Put, Cut, KeysMatch, RefsMatch;
    CutUndoesPut(call.was.rooms, call.room, call.user);
    CutUndoesPut(call.was.userRooms, call.user, call.room);
    KeysBefore(entries.Keys, call.was.rooms, call);
    RefsBefore(entries, call.was.rooms, call.room, call.user);
  }

  lemma RefsBefore(entries: map<Room, RoomEntry>, rooms: Index, room: Room, user: User)
    requires RefsMatch(entries, Put(rooms, room, user)) && room !in entries
    ensures RefsMatch(entries, rooms)
  {
    hide Put;
  }

  lemma KeysBefore(entries: set<Room>, rooms: Index, call: Call)
    requires call.Undoing? && KeysMatch(entries, Put(rooms, call.room, call.user).Keys, call)
    requires NoEmptyRow(rooms) && Row(rooms, call.room) == {}
    ensures KeysMatch(entries, rooms.Keys, Free) && call.room !in entries
  {
    hide Put;
    PutKeepsNoEmptyRow(rooms, call.room, call.user);
    assert call.room !in rooms;
  }

  // --- Leaving -----------------------------------------------------------------------------------------------

  lemma RefsCut(entries: map<Room, RoomEntry>, rooms: Index, room: Room, user: User)
    requires RefsMatch(entries, rooms) && user in Row(rooms, room) && room in entries
    ensures RefsMatch(entries[room := entries[room].(refs := entries[room].refs - 1)], Cut(rooms, room, user))
  {
    hide Cut;
    assert |Row(rooms, room) - {user}| == |Row(rooms, room)| - 1;
  }

  /** A member's room has an entry; once the member is gone it is to be deleted exactly when no one is left. */
  lemma KeysCut(entries: map<Room, RoomEntry>, rooms: Index, room: Room, user: User)
    requires KeysMatch(entries.Keys, rooms.Keys, Free) && NoEmptyRow(rooms) && user in Row(rooms, room)
    ensures room in entries && entries.Keys + {room} == entries.Keys
    ensures KeysMatch(entries.Keys, Cut(rooms, room, user).Keys, if room in Cut(rooms, room, user) then Free else Detaching(room))
  {
    hide Cut;
    CutKeepsNoEmptyRow(rooms, room, user);
  }

  lemma LeaveStep(s: Chat, room: Room, user: User)
    requires Inv(s) && s.call.Free?
    ensures Inv(DoLeave(s, room, user))
  {
    hide Bus.Valid, Roster.Valid, IndexValid, Cut, RefsMatch, KeysMatch, BusInv, CancelAll;
    if Leave(s.book, room, user).removed {
      LeaveKeepsValid(s.book, room, user);
      NoEmptyRooms(s.book);
      KeysCut(s.entries, s.book.rooms, room, user);
      RefsCut(s.entries, s.book.rooms, room, user);
      CountKeepsBus(s.entries, s.bridges, s.bus, room, s.entries[room].refs - 1);
      CancelKeepsBus(s.entries, s.bridges, s.bus, room, s.entries[room].refs - 1);
      var after := s.entries[room := s.entries[room].(refs := s.entries[room].refs - 1)];
      assert after.Keys == s.entries.Keys + {room};
    }
  }

  lemma LeaveBusStep(s: Chat, t: Transport)
    requires Inv(s) && s.call.Detaching?
    ensures Inv(DoLeaveBus(s, t)) && DoLeaveBus(s, t).call.Free?
  {
    hide Bus.Valid, Roster.Valid, IndexValid, RefsMatch, KeysMatch, BusInv, BusUnsubscribe, UnsubscribePanics;
    EntryGone(s.entries, s.book.rooms, s.call.room);
    var redis := s.entries[s.call.room].redis;
    NoUnsubscribePanic(s.bus, RoomChannel(s.call.room), redis);
    UnsubscribeKeepsValid(s.bus, RoomChannel(s.call.room), redis, t);
    DetachKeepsBus(s.entries, s.bridges, s.bus, s.call.room, t);
  }

  lemma EntryGone(entries: map<Room, RoomEntry>, rooms: Index, room: Room)
    requires RefsMatch(entries, rooms) && KeysMatch(entries.Keys, rooms.Keys, Detaching(room))
    ensures room in entries
    ensures RefsMatch(entries - {room}, rooms) && KeysMatch((entries - {room}).Keys, rooms.Keys, Free)
  {
  }

  // --- Closing -----------------------------------------------------------------------------------------------

  lemma BeginCloseStep(s: Chat)
    requires Inv(s) && s.call.Free?
    ensures Inv(s.(call := ClosingBus(s.entries.Keys)))
  {
    hide Bus.Valid, Roster.Valid, IndexValid, RefsMatch, BusInv;
    BeginCloseKeepsBus(s.entries, s.bridges, s.bus);
  }

  lemma CloseOneStep(s: Chat, room: Room, t: Transport)
    requires Inv(s) && s.call.ClosingBus? && room in s.call.todo
    ensures Inv(DoCloseOne(s, room, t))
  {
    hide Bus.Valid, Roster.Valid, IndexValid, RefsMatch, BusInv, BusUnsubscribe, UnsubscribePanics, CancelAll;
    var redis := s.entries[room].redis;
    NoUnsubscribePanic(s.bus, RoomChannel(room), redis);
    UnsubscribeKeepsValid(s.bus, RoomChannel(room), redis, t);
    CloseOneKeepsBus(s.entries, s.bridges, s.bus, s.call.todo, room, t);
  }

  lemma CloseEntriesStep(s: Chat)
    requires Inv(s) && s.call == ClosingBus({})
    ensures Inv(s.(call := ClosingStore, entries := map[]))
  {
    hide Bus.Valid, Roster.Valid, IndexValid, BusInv;
    CloseEntriesKeepsBus(s.entries, s.bridges, s.bus);
  }

  lemma CloseStoreStep(s: Chat)
    requires Inv(s) && s.call.ClosingStore?
    ensures Inv(DoCloseStore(s))
  {
    hide Bus.Valid, Roster.Valid, Sockets, Injective, CloseAll, IndexValid, RefsMatch, KeysMatch, Restorable, BusInv;
    TouchedIsOpen(s.Roster(), OpCloseAll);
    CloseAllClientsKeepsValid(s.Roster());
    EmptiedStore(s.entries, s.book.rooms);
    CallKeepsBus(s.entries, s.bridges, s.bus, ClosingStore, Free);
  }

  lemma EmptiedStore(entries: map<Room, RoomEntry>, rooms: Index)
    requires KeysMatch(entries.Keys, rooms.Keys, ClosingStore)
    ensures EMPTY_BOOK.Valid() && RefsMatch(entries, EMPTY_BOOK.rooms) && KeysMatch(entries.Keys, EMPTY_BOOK.rooms.Keys, Free)
    ensures Restorable(entries, EMPTY_BOOK, Free)
  {
  }

  // --- Clients and the rest of the bus --------------------------------------------------------------------------

  lemma ClientStep(s: Chat, step: Step)
    requires Inv(s) && Can(s, step)
    requires step.RegisterClient? || step.UnregisterClient? || step.Send? || step.WriterTake?
    ensures Inv(Do(s, step))
  {
    hide Bus.Valid, Roster.Valid, Sockets, IndexValid, RefsMatch, KeysMatch, BusInv, Register, Unregister, Deliver, Take;
    match step
    case RegisterClient(user, ch) =>
      TouchedIsOpen(s.Roster(), OpRegister(user, ch));
      RegisterKeepsValid(s.Roster(), user, ch);
    case UnregisterClient(user) =>
      TouchedIsOpen(s.Roster(), OpUnregister(user));
      UnregisterKeepsValid(s.Roster(), user);
    case Send(th, user) =>
      TouchedIsOpen(s.Roster(), OpDeliver({user}, s.deliveries[th].ev));
      DeliverKeepsValid(s.Roster(), {user}, s.deliveries[th].ev);
    case WriterTake(c) =>
      TakeKeepsValid(s.Roster(), c);
  }

  lemma OtherBusStep(s: Chat, step: Step)
    requires Inv(s) && Can(s, step)
    requires step.BusFanOut? || step.BusTake? || step.BusShut? || step.OtherSubscribe? || step.OtherUnsubscribe?
    ensures Inv(Do(s, step))
  {
    hide Bus.Valid, Roster.Valid, IndexValid, RefsMatch, KeysMatch, BusInv, Restorable, RoomsKept, FanOut, BusReceive, BusClose,
      BusSubscribe, BusUnsubscribe, FanOutPanics, BusClosePanics, UnsubscribePanics;
    DeliveryKeepsRooms(s.bus);
    match step
    case BusFanOut(m) =>
      NoFanOutPanic(s.bus, m.channel);
      FanOutKeepsValid(s.bus, m);
      OthersKeepBus(s.entries, s.bridges, s.bus, FanOut(s.bus, m), s.call);
    case BusTake(c) =>
      ReceiveKeepsValid(s.bus, c);
      OthersKeepBus(s.entries, s.bridges, s.bus, BusReceive(s.bus, c), s.call);
    case BusShut =>
      NoBusClosePanic(s.bus);
      CloseKeepsValid(s.bus);
      OthersKeepBus(s.entries, s.bridges, s.bus, BusClose(s.bus), s.call);
    case OtherSubscribe(post, out, t) =>
      SubscribeKeepsValid(s.bus, PostChannel(post), out, t);
      OtherSubscribeKeepsRooms(s.bus, post, out, t);
      OthersKeepBus(s.entries, s.bridges, s.bus, BusSubscribe(s.bus, PostChannel(post), out, t).0, s.call);
    case OtherUnsubscribe(post, sub, t) =>
      NoUnsubscribePanic(s.bus, PostChannel(post), sub);
      UnsubscribeKeepsValid(s.bus, PostChannel(post), sub, t);
      OtherUnsubscribeKeepsRooms(s.bus, post, sub, t);
      OthersKeepBus(s.entries, s.bridges, s.bus, BusUnsubscribe(s.bus, PostChannel(post), sub, t).0, s.call);
  }

  // --- Runs --------------------------------------------------------------------------------------------------

  lemma StepKeepsInv(s: Chat, step: Step)
    requires Inv(s) && Can(s, step)
    ensures Inv(Do(s, step))
  {
    hide Bus.Valid, Roster.Valid, IndexValid, RefsMatch, KeysMatch, BusInv, DoJoin, DoJoinBus, DoJoinUndo, DoLeave, DoLeaveBus,
      DoCloseOne, DoCloseStore, DoClient, DoSend, Take;
    match step
    case BeginJoin(room, user) => JoinStep(s, room, user);
    case JoinBus(redis, t) => JoinBusStep(s, redis, t);
    case JoinUndo => JoinUndoStep(s);
    case BeginLeave(room, user) => LeaveStep(s, room, user);
    case LeaveBus(t) => LeaveBusStep(s, t);
    case BeginLeaveAll(_, _, _) =>
    case LeaveNext(th) => LeaveStep(Popped(s, th), s.leavers[th].rooms[0], s.leavers[th].user);
    case BeginClose => BeginCloseStep(s);
    case CloseOne(room, t) => CloseOneStep(s, room, t);
    case CloseEntries => CloseEntriesStep(s);
    case CloseStore => CloseStoreStep(s);
    case RegisterClient(_, _) => ClientStep(s, step);
    case UnregisterClient(_) => ClientStep(s, step);
    case BeginDelivery(_, _, _) =>
    case Send(_, _) => ClientStep(s, step);
    case EndDelivery(_) =>
    case WriterTake(_) => ClientStep(s, step);
    case _ => OtherBusStep(s, step);
  }

  lemma InitInv()
    ensures Inv(INIT)
  {
  }

  lemma {:induction false} RunKeepsInv(ss: seq<Chat>, steps: seq<Step>, i: nat)
    requires Run(ss, steps) && i < |ss|
    ensures Inv(ss[i])
  {
    hide Inv, Can, Do;
    if i == 0 {
      InitInv();
    } else {
      RunKeepsInv(ss, steps, i - 1);
      StepKeepsInv(ss[i - 1], steps[i - 1]);
    }
  }

  /** In every run, whenever no call holds the hub's mutex, hub, store and bus agree: the rooms with an entry are the
      rooms with members, each counted by the number of its members, and with the bus open each with one running bridge
      and one consumer; and nothing has panicked. */
  lemma AtRest(ss: seq<Chat>, steps: seq<Step>, i: nat)
    requires Run(ss, steps) && i < |ss|
    ensures !ss[i].panicked
    ensures ss[i].call.Free? ==> Wired(ss[i].View())
    ensures ss[i].call.Free? ==>
              forall r :: (r in ss[i].entries <==> exists u :: (r, u) in Members(ss[i].book.rooms))
                          && (r in ss[i].entries ==> ss[i].entries[r].refs == |Row(ss[i].book.rooms, r)| >= 1)
  {
    hide Inv, Can, Do, Members, Wired;
    RunKeepsInv(ss, steps, i);
    NotPanicked(ss[i]);
    if ss[i].call.Free? {
      FreeIsWired(ss[i]);
      var rooms := ss[i].book.rooms;
      forall r ensures (r in ss[i].entries <==> exists u :: (r, u) in Members(rooms))
                       && (r in ss[i].entries ==> ss[i].entries[r].refs == |Row(rooms, r)| >= 1)
      {
        Inhabited(rooms, r);
        WiredEntry(ss[i].View(), r);
      }
    }
  }

  lemma NotPanicked(s: Chat)
    requires Inv(s)
    ensures !s.panicked && s.bus.Valid()
  {
    hide Bus.Valid, Roster.Valid, IndexValid, RefsMatch, KeysMatch, BusInv, Restorable;
  }

  lemma FreeIsWired(s: Chat)
    requires Inv(s) && s.call.Free?
    ensures Wired(s.View()) && NoEmptyRow(s.book.rooms)
  {
    hide Bus.Valid, Roster.Valid, Bridged, Consumed, Mirror;
  }

  lemma WiredEntry(h: ChatView, r: Room)
    requires Wired(h)
    ensures r in h.entries <==> r in h.book.rooms
    ensures r in h.entries ==> h.entries[r].refs == |Row(h.book.rooms, r)|
  {
    hide IndexValid, Served;
  }

  lemma Inhabited(rooms: Index, r: Room)
    requires NoEmptyRow(rooms)
    ensures r in rooms <==> exists u :: (r, u) in Members(rooms)
    ensures r in rooms ==> |Row(rooms, r)| >= 1
  {
    if r in rooms {
      var u :| u in rooms[r];
      assert (r, u) in Members(rooms);
    }
  }

  /** A member who leaves takes one reference along, and the hub tears the room down exactly when that was
      the last one. */
  lemma LastReference(s: Chat, room: Room, user: User)
    requires Inv(s) && s.call.Free? && (room, user) in Members(s.book.rooms)
    ensures var r := DoLeave(s, room, user);
            && room in s.entries && room in r.entries && r.entries[room].refs == s.entries[room].refs - 1
            && (r.entries[room].refs == 0 <==> r.call == Detaching(room))
            && (r.entries[room].refs == 0 <==> room !in r.book.rooms)
            && (room, user) !in Members(r.book.rooms)
  {
    hide Bus.Valid, Roster.Valid, IndexValid, Cut, Members, Restorable, BusInv, CancelAll;
    Present(s.book.rooms, room, user);
    NoEmptyRooms(s.book);
    CutIsDelete(s.book.rooms, room, user);
    CutKeepsNoEmptyRow(s.book.rooms, room, user);
    KeysCut(s.entries, s.book.rooms, room, user);
    Last(Row(s.book.rooms, room), user);
  }

  lemma Present(rooms: Index, room: Room, user: User)
    ensures (room, user) in Members(rooms) <==> user in Row(rooms, room)
  {
  }

  lemma Last(s: set<string>, x: string)
    requires x in s
    ensures |s| - 1 == 0 <==> s == {x}
  {
    assert |s - {x}| == |s| - 1;
    assert s == s - {x} + {x};
  }

  // --- The calls, when nothing interferes --------------------------------------------------------------------------

  /** The steps of an undisturbed JoinRoom. */
  ghost function JoinSteps(s: Chat, room: Room, user: User, redis: ChanId, t: Transport): Chat {
    var s1 := DoJoin(s, room, user);
    var s2 := if s1.call.Joining? then DoJoinBus(s1, redis, t) else s1;
    if s2.call.Undoing? then DoJoinUndo(s2) else s2
  }

  lemma JoinAlone(s: Chat, room: Room, user: User, redis: ChanId, t: Transport)
    requires s.call.Free? && s.book.Valid()
    ensures var r := JoinSteps(s, room, user, redis, t);
            r.call.Free? && r.View() == JoinRoom(s.View(), room, user, redis, t).0
  {
    hide Book.Valid, Join, Leave, BusSubscribe, JoinSteps, JoinRoom;
    if !Join(s.book, room, user).1 || room in s.entries {
      JoinAgainAlone(s, room, user, redis, t);
    } else if BusSubscribe(s.bus, RoomChannel(room), redis, t).1.NoError? {
      JoinFirstAlone(s, room, user, redis, t);
    } else {
      LeaveUndoesJoin(s.book, room, user);
      JoinFailsAlone(s, room, user, redis, t);
    }
  }

  lemma JoinAgainAlone(s: Chat, room: Room, user: User, redis: ChanId, t: Transport)
    requires s.call.Free? && (!Join(s.book, room, user).1 || room in s.entries)
    ensures var r := JoinSteps(s, room, user, redis, t);
            r.call.Free? && r.View() == JoinRoom(s.View(), room, user, redis, t).0
  {
    hide Join, BusSubscribe, DoJoinBus, DoJoinUndo;
  }

  lemma JoinFirstAlone(s: Chat, room: Room, user: User, redis: ChanId, t: Transport)
    requires s.call.Free? && Join(s.book, room, user).1 && room !in s.entries
    requires BusSubscribe(s.bus, RoomChannel(room), redis, t).1.NoError?
    ensures var r := JoinSteps(s, room, user, redis, t);
            r.call.Free? && r.View() == JoinRoom(s.View(), room, user, redis, t).0
  {
    hide Join, BusSubscribe, DoJoinUndo;
  }

  lemma JoinFailsAlone(s: Chat, room: Room, user: User, redis: ChanId, t: Transport)
    requires s.call.Free? && Join(s.book, room, user).1 && room !in s.entries
    requires !BusSubscribe(s.bus, RoomChannel(room), redis, t).1.NoError?
    requires Leave(Join(s.book, room, user).0, room, user).book == s.book
    ensures var r := JoinSteps(s, room, user, redis, t);
            r.call.Free? && r.View() == JoinRoom(s.View(), room, user, redis, t).0
  {
    hide Join, Leave, BusSubscribe;
  }

  /** The steps of an undisturbed LeaveRoom. */
  ghost function LeaveSteps(s: Chat, room: Room, user: User, t: Transport): Chat {
    var s1 := DoLeave(s, room, user);
    if s1.call.Detaching? then DoLeaveBus(s1, t) else s1
  }

  lemma LeaveAlone(s: Chat, room: Room, user: User, t: Transport)
    requires s.call.Free? && s.bus.Valid()
    ensures var r := LeaveSteps(s, room, user, t);
            r.call.Free? && r.panicked == s.panicked && r.View() == LeaveRoom(s.View(), room, user, t)
  {
    hide Bus.Valid, Leave, LeaveSteps, LeaveRoom;
    if Leave(s.book, room, user).roomEmpty && room in s.entries {
      NoUnsubscribePanic(s.bus, RoomChannel(room), s.entries[room].redis);
      OverwriteThenDrop(s.entries, room, s.entries[room].(refs := s.entries[room].refs - 1));
      LastLeaveAlone(s, room, user, t);
    } else {
      LeaveOthersAlone(s, room, user, t);
    }
  }

  lemma LeaveOthersAlone(s: Chat, room: Room, user: User, t: Transport)
    requires s.call.Free? && (!Leave(s.book, room, user).roomEmpty || room !in s.entries)
    ensures var r := LeaveSteps(s, room, user, t);
            r.call.Free? && r.panicked == s.panicked && r.View() == LeaveRoom(s.View(), room, user, t)
  {
    hide Leave, DoLeaveBus, CancelAll;
  }

  lemma LastLeaveAlone(s: Chat, room: Room, user: User, t: Transport)
    requires s.call.Free? && Leave(s.book, room, user).roomEmpty && room in s.entries
    requires !UnsubscribePanics(s.bus, RoomChannel(room), s.entries[room].redis)
    requires s.entries[room := s.entries[room].(refs := s.entries[room].refs - 1)] - {room} == s.entries - {room}
    ensures var r := LeaveSteps(s, room, user, t);
            r.call.Free? && r.panicked == s.panicked && r.View() == LeaveRoom(s.View(), room, user, t)
  {
    hide Leave, BusUnsubscribe, UnsubscribePanics, CancelAll;
  }

  // --- A failed join ---------------------------------------------------------------------------------------

  /** While a call holds the hub's mutex nobody else changes the index or the counts. */
  lemma HeldStep(s: Chat, step: Step)
    requires Can(s, step) && (s.call.Joining? || s.call.Undoing?) && Inv(s)
    ensures var r := Do(s, step);
            || (r.call == s.call)
            || (step.JoinBus? && (r.call.Free? || r.call == Undoing(s.call.room, s.call.user, s.call.was)))
            || (step.JoinUndo? && r.call.Free? && r.Saved() == s.call.was)
  {
    hide Inv, BusSubscribe, BusUnsubscribe, DoJoin, DoLeave, Leave, DoCloseOne, DoLeaveBus, DoCloseStore, DoSend, Register, Unregister, Take,
      FanOutPanics, BusClosePanics, UnsubscribePanics, FanOut, BusClose, BusReceive, CanCloseAll, Sockets;
    if step.JoinUndo? {
      JoinUndoStep(s);
    }
  }

  /** From the moment JoinRoom has added a pair until it either succeeds or has undone it, whatever clients come
      and go meanwhile: if it ends in the rollback, counts and both sides of the index are what they were. */
  lemma {:induction false} FailedJoinRestores(ss: seq<Chat>, steps: seq<Step>, i: nat, j: nat)
    requires Run(ss, steps) && i < j < |steps|
    requires steps[i].BeginJoin? && ss[i + 1].call.Joining? && steps[j].JoinUndo?
    requires forall k :: i < k <= j ==> !ss[k].call.Free?
    ensures ss[j + 1].Saved() == ss[i].Saved()
  {
    hide Inv, Can;
    SameJoin(ss, steps, i, j);
    RunKeepsInv(ss, steps, j);
    UndoComesFromUndoing(ss[j]);
    JoinUndoStep(ss[j]);
  }

  lemma UndoComesFromUndoing(s: Chat)
    requires Can(s, JoinUndo)
    ensures s.call.Undoing? && Do(s, JoinUndo) == DoJoinUndo(s)
  {
  }

  lemma {:induction false} SameJoin(ss: seq<Chat>, steps: seq<Step>, i: nat, j: nat)
    requires Run(ss, steps) && i < j < |ss| && i < |steps|
    requires steps[i].BeginJoin? && ss[i + 1].call.Joining?
    requires forall k :: i < k <= j ==> !ss[k].call.Free?
    ensures (ss[j].call.Joining? || ss[j].call.Undoing?) && ss[j].call.was == ss[i].Saved()
  {
    hide Inv, Can;
    if j == i + 1 {
      BeginsJoin(ss[i], steps[i]);
    } else {
      hide Do;
      SameJoin(ss, steps, i, j - 1);
      RunKeepsInv(ss, steps, j - 1);
      HeldStep(ss[j - 1], steps[j - 1]);
    }
  }

  lemma BeginsJoin(s: Chat, step: Step)
    requires Can(s, step) && step.BeginJoin? && Do(s, step).call.Joining?
    ensures Do(s, step).call.was == s.Saved()
  {
    hide Join;
  }

  // --- The plain specification ---------------------------------------------------------------------------------

  /** The steps at which the membership relation changes, and how; every other step leaves it alone, whether or
      not the members have clients. */
  lemma RefinesRelation(ss: seq<Chat>, steps: seq<Step>, n: nat)
    requires Run(ss, steps) && n < |steps|
    ensures RelationStep(ss[n], steps[n], Members(ss[n].book.rooms), Members(ss[n + 1].book.rooms))
  {
    hide Inv, Can, Do, Members, RelationStep;
    RunKeepsInv(ss, steps, n);
    StepRefinesRelation(ss[n], steps[n]);
  }

  ghost predicate RelationStep(s: Chat, step: Step, before: iset<(Room, User)>, after: iset<(Room, User)>) {
    match step
    case BeginJoin(room, user) => after == if user in s.book.clients then before + iset{(room, user)} else before
    case JoinUndo => s.call.Undoing? && after == before - iset{(s.call.room, s.call.user)}
    case BeginLeave(room, user) => after == before - iset{(room, user)}
    case LeaveNext(th) =>
      th in s.leavers && s.leavers[th].rooms != [] && after == before - iset{(s.leavers[th].rooms[0], s.leavers[th].user)}
    case CloseStore => after == iset{}
    case _ => after == before
  }

  lemma StepRefinesRelation(s: Chat, step: Step)
    requires Inv(s) && Can(s, step)
    ensures RelationStep(s, step, Members(s.book.rooms), Members(Do(s, step).book.rooms))
  {
    hide Inv, Can, Do, Members;
    match step
    case BeginJoin(room, user) => JoinInserts(s, room, user);
    case JoinUndo => UndoDeletes(s);
    case BeginLeave(room, user) => LeaveDeletes(s, step, room, user);
    case LeaveNext(th) => NextDeletes(s, th);
    case CloseStore => CloseClears(s);
    case _ => KeepsRooms(s, step);
  }

  lemma JoinInserts(s: Chat, room: Room, user: User)
    requires Inv(s) && Can(s, BeginJoin(room, user))
    ensures RelationStep(s, BeginJoin(room, user), Members(s.book.rooms), Members(Do(s, BeginJoin(room, user)).book.rooms))
  {
    hide Roster.Valid, RefsMatch, KeysMatch, BusInv, Bus.Valid, Restorable, Members, IndexValid, Join;
    JoinIsInsert(s.book, room, user);
    Absorb(s.book, room, user);
  }

  lemma UndoDeletes(s: Chat)
    requires Inv(s) && Can(s, JoinUndo)
    ensures RelationStep(s, JoinUndo, Members(s.book.rooms), Members(Do(s, JoinUndo).book.rooms))
  {
    hide Roster.Valid, RefsMatch, KeysMatch, BusInv, Bus.Valid, Restorable, Members, IndexValid, Leave;
    LeaveIsDelete(s.book, s.call.room, s.call.user);
  }

  lemma LeaveDeletes(s: Chat, step: Step, room: Room, user: User)
    requires Inv(s) && Can(s, step) && step == BeginLeave(room, user)
    ensures RelationStep(s, step, Members(s.book.rooms), Members(Do(s, step).book.rooms))
  {
    hide Roster.Valid, RefsMatch, KeysMatch, BusInv, Bus.Valid, Restorable, Members, IndexValid, Leave;
    LeaveIsDelete(s.book, room, user);
  }

  lemma NextDeletes(s: Chat, th: Thread)
    requires Inv(s) && Can(s, LeaveNext(th))
    ensures RelationStep(s, LeaveNext(th), Members(s.book.rooms), Members(Do(s, LeaveNext(th)).book.rooms))
  {
    hide Roster.Valid, RefsMatch, KeysMatch, BusInv, Bus.Valid, Restorable, Members, IndexValid, Leave;
    LeaveIsDelete(s.book, s.leavers[th].rooms[0], s.leavers[th].user);
  }

  lemma CloseClears(s: Chat)
    requires Inv(s) && Can(s, CloseStore)
    ensures RelationStep(s, CloseStore, Members(s.book.rooms), Members(Do(s, CloseStore).book.rooms))
  {
    hide Roster.Valid, RefsMatch, KeysMatch, BusInv, Bus.Valid, Restorable, Members, IndexValid, Sockets, CanCloseAll, Injective, CloseAllClients;
    CloseStoreStep(s);
    NoMembers();
  }

  lemma KeepsRooms(s: Chat, step: Step)
    requires Can(s, step)
    requires !step.BeginJoin? && !step.JoinUndo? && !step.BeginLeave? && !step.LeaveNext? && !step.CloseStore?
    ensures Do(s, step).book.rooms == s.book.rooms
  {
    hide Register, Unregister, Take, DoJoin, DoJoinUndo, DoLeave, DoCloseStore, DoJoinBus, DoLeaveBus, DoCloseOne, DoClient, DoSend,
      BusSubscribe, BusUnsubscribe, FanOut, BusClose, BusReceive, FanOutPanics, BusClosePanics, UnsubscribePanics;
  }

  lemma Absorb(b: Book, room: Room, user: User)
    ensures (room, user) in Members(b.rooms) ==> Members(b.rooms) + iset{(room, user)} == Members(b.rooms)
  {
  }

  lemma NoMembers()
    ensures Members(map[]) == iset{}
  {
  }

  // --- Client channels -----------------------------------------------------------------------------------------

  /** Every channel Register ever returned is its user's current one and open, or nobody's and closed; a send goes
      to the current channel of a user who has one, and reaches no other channel. */
  lemma ClientChannels(ss: seq<Chat>, steps: seq<Step>, i: nat)
    requires Run(ss, steps) && i < |ss|
    ensures forall c :: c in ss[i].issued ==>
              c in ss[i].cells && (ss[i].cells[c].closed <==> !ss[i].Roster().Current(c))
    ensures i < |steps| && steps[i].Send? ==>
              forall c :: c in ss[i].cells ==>
                c in ss[i + 1].cells &&
                (ss[i + 1].cells[c] != ss[i].cells[c] ==> ss[i].Roster().Current(c) && ss[i].issued[c] == steps[i].user)
  {
    hide Inv, Can, Do;
    RunKeepsInv(ss, steps, i);
    RosterIsValid(ss[i]);
    if i < |steps| && steps[i].Send? {
      SendReaches(ss[i], steps[i].th, steps[i].user);
    }
  }

  lemma RosterIsValid(s: Chat)
    requires Inv(s)
    ensures s.Roster().Valid()
  {
  }

  lemma SendReaches(s: Chat, th: Thread, user: User)
    requires Inv(s) && Can(s, Send(th, user))
    ensures var r := Do(s, Send(th, user));
            forall c :: c in s.cells ==>
              c in r.cells && (r.cells[c] != s.cells[c] ==> s.Roster().Current(c) && s.issued[c] == user)
  {
    hide IndexValid, RefsMatch, KeysMatch, BusInv, Bus.Valid, Restorable;
    TouchedIsOpen(s.Roster(), OpDeliver({user}, s.deliveries[th].ev));
    forall c ensures c in Sockets(s.book.clients, {user}) ==> s.Roster().Current(c) && s.issued[c] in {user} {
      SocketIsCurrent(s.Roster(), {user}, c);
    }
  }

  /** A member need not have a client: unregistering takes the client away and leaves every membership, and the hub
      goes on counting it. */
  lemma MembershipOutlivesClient(s: Chat, room: Room, user: User)
    requires Inv(s) && Can(s, UnregisterClient(user)) && (room, user) in Members(s.book.rooms)
    ensures var r := Do(s, UnregisterClient(user));
            user !in r.book.clients && (room, user) in Members(r.book.rooms) && r.entries == s.entries
  {
    hide Members, IndexValid, Bus.Valid, RefsMatch, KeysMatch, BusInv, Restorable;
    TouchedIsOpen(s.Roster(), OpUnregister(user));
  }
}
