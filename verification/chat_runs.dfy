/**
 All interleavings of the chat membership path.

 A step is one critical section, or one operation of a goroutine that holds no lock.  A call of the hub holds
 the hub's mutex for several steps; between them the bus's reader and its other users go on, and Register,
 Unregister and deliveries, which take the store's lock only.  Deliveries hold the read lock for several steps.
 Bridges appear by the deliveries they make: any room, any payload, any time, so that a cancelled bridge that is
 still draining its channel is among them.
 */
module ChatRuns {
  import opened GoChannels
  import opened ChannelNames
  import opened PubSub
  import opened ChatIndex
  import opened ChatClients
  import opened ChatWiring

  /** What a failed join has to restore. */
  datatype Snapshot = Snapshot(entries: map<Room, RoomEntry>, rooms: Index, userRooms: Index)

  /** What the holder of the hub's mutex does next; `was` is history. */
  datatype Call =
    | Free
    | Joining(room: Room, user: User, was: Snapshot)     // about to subscribe
    | Undoing(room: Room, user: User, was: Snapshot)     // Subscribe has failed
    | Detaching(room: Room)                                // about to unsubscribe and delete the entry
    | ClosingBus(todo: set<Room>)
    | ClosingStore

  /** A LeaveAllForUser call and the rooms of its snapshot it has not left yet. */
  datatype Leaver = Leaver(user: User, rooms: seq<Room>)

  /** A DeliverToRoom call and the members it has not come to yet. */
  datatype Delivery = Delivery(room: Room, ev: Payload, todo: set<User>)

  type Thread = nat

  datatype Chat = Chat(
    bus: Bus,
    entries: map<Room, RoomEntry>,
    bridges: map<ChanId, RoomBridge>,
    book: Book,
    cells: Table<Payload>,
    issued: map<ChanId, User>,
    call: Call,
    leavers: map<Thread, Leaver>,
    deliveries: map<Thread, Delivery>,
    panicked: bool
  ) {
    function View(): ChatView {
      ChatView(bus, entries, bridges, book)
    }

    function Roster(): Roster {
      ChatClients.Roster(book.clients, cells, issued)
    }

    function Saved(): Snapshot {
      Snapshot(entries, book.rooms, book.userRooms)
    }
  }

  const INIT: Chat := Chat(EMPTY_BUS, map[], map[], EMPTY_BOOK, map[], map[], Free, map[], map[], false)

  ghost predicate CanCloseAll(cells: Table<Payload>, which: set<ChanId>) {
    forall c :: c in which ==> CanClose(cells, c)
  }

  datatype Step =
    | BeginJoin(room: Room, user: User)
    | JoinBus(redis: ChanId, t: Transport)
    | JoinUndo
    | BeginLeave(room: Room, user: User)
    | LeaveBus(t: Transport)
    | BeginLeaveAll(th: Thread, user: User, order: seq<Room>)
    | LeaveNext(th: Thread)
    | BeginClose
    | CloseOne(room: Room, t: Transport)
    | CloseEntries
    | CloseStore
    | RegisterClient(user: User, ch: ChanId)
    | UnregisterClient(user: User)
    | BeginDelivery(th: Thread, room: Room, ev: Payload)
    | Send(th: Thread, user: User)
    | EndDelivery(th: Thread)
    | WriterTake(c: ChanId)
    | BusFanOut(m: Message)
    | BusTake(c: ChanId)
    | BusShut
    | OtherSubscribe(post: string, out: ChanId, t: Transport)
    | OtherUnsubscribe(post: string, sub: ChanId, t: Transport)

  ghost predicate Can(s: Chat, step: Step) {
    && !s.panicked
    && match step
       case BeginJoin(_, _) => s.call.Free? && s.deliveries == map[]
       case JoinBus(redis, _) => s.call.Joining? && redis !in s.bus.chans
       case JoinUndo => s.call.Undoing? && s.deliveries == map[]
       case BeginLeave(_, _) => s.call.Free? && s.deliveries == map[]
       case LeaveBus(_) => s.call.Detaching?
       case BeginLeaveAll(th, user, order) => th !in s.leavers && Rooms(order) == Row(s.book.userRooms, user)
       case LeaveNext(th) => th in s.leavers && s.leavers[th].rooms != [] && s.call.Free? && s.deliveries == map[]
       case BeginClose => s.call.Free?
       case CloseOne(room, _) => s.call.ClosingBus? && room in s.call.todo
       case CloseEntries => s.call.ClosingBus? && s.call.todo == {}
       case CloseStore => s.call.ClosingStore? && s.deliveries == map[]
       case RegisterClient(_, ch) => ch !in s.cells && s.deliveries == map[]
       case UnregisterClient(_) => s.deliveries == map[]
       case BeginDelivery(th, _, _) => th !in s.deliveries
       case Send(th, user) => th in s.deliveries && user in s.deliveries[th].todo
       case EndDelivery(th) => th in s.deliveries && s.deliveries[th].todo == {}
       case WriterTake(c) => c in s.cells && s.cells[c].buf != []
       case BusFanOut(_) => true
       case BusTake(c) => c in s.bus.chans && s.bus.chans[c].buf != []
       case BusShut => true
       case OtherSubscribe(_, out, _) => out !in s.bus.chans
       case OtherUnsubscribe(_, _, _) => true
  }

  function Rooms(order: seq<Room>): set<Room> {
    set r | r in order
  }

  // --- Joining ----------------------------------------------------------------------------------------------

  function DoJoin(s: Chat, room: Room, user: User): Chat {
    var (book, added) := Join(s.book, room, user);
    if !added then s else
    if room in s.entries then
      var e := s.entries[room];
      s.(book := book, entries := s.entries[room := e.(refs := e.refs + 1)])
    else s.(book := book, call := Joining(room, user, s.Saved()))
  }

  function DoJoinBus(s: Chat, redis: ChanId, t: Transport): (r: Chat)
    requires s.call.Joining?
    ensures r.book == s.book
  {
    var (bus, err) := BusSubscribe(s.bus, RoomChannel(s.call.room), redis, t);
    if err.NoError?
    then s.(bus := bus, call := Free, entries := s.entries[s.call.room := RoomEntry(1, redis)],
            bridges := s.bridges[redis := RoomBridge(s.call.room, false)])
    else s.(bus := bus, call := Undoing(s.call.room, s.call.user, s.call.was))
  }

  function DoJoinUndo(s: Chat): Chat
    requires s.call.Undoing?
  {
    s.(call := Free, book := Leave(s.book, s.call.room, s.call.user).book)
  }

  // --- Leaving ----------------------------------------------------------------------------------------------

  function DoLeave(s: Chat, room: Room, user: User): Chat {
    var left := Leave(s.book, room, user);
    if !left.removed then s else
    if room !in s.entries then s.(book := left.book) else
      var e := s.entries[room];
      var counted := s.(book := left.book, entries := s.entries[room := e.(refs := e.refs - 1)]);
      if left.roomEmpty then counted.(bridges := CancelAll(s.bridges, {e.redis}), call := Detaching(room)) else counted
  }

  function RedisAt(entries: map<Room, RoomEntry>, room: Room): ChanId {
    if room in entries then entries[room].redis else 0
  }

  ghost function DoLeaveBus(s: Chat, t: Transport): (r: Chat)
    requires s.call.Detaching?
    ensures r.book == s.book
  {
    var name, redis := RoomChannel(s.call.room), RedisAt(s.entries, s.call.room);
    Unless(s, !UnsubscribePanics(s.bus, name, redis),
           s.(call := Free, bus := BusUnsubscribe(s.bus, name, redis, t).0, entries := s.entries - {s.call.room}))
  }

  /** A LeaveAllForUser call going on to its next room. */
  function Popped(s: Chat, th: Thread): Chat
    requires th in s.leavers && s.leavers[th].rooms != []
  {
    s.(leavers := s.leavers[th := s.leavers[th].(rooms := s.leavers[th].rooms[1..])])
  }

  ghost function DoCloseOne(s: Chat, room: Room, t: Transport): (r: Chat)
    requires s.call.ClosingBus?
    ensures r.book == s.book
  {
    var redis := RedisAt(s.entries, room);
    Unless(s, !UnsubscribePanics(s.bus, RoomChannel(room), redis),
           s.(call := ClosingBus(s.call.todo - {room}), bridges := CancelAll(s.bridges, {redis}),
              bus := BusUnsubscribe(s.bus, RoomChannel(room), redis, t).0))
  }

  // --- Clients ----------------------------------------------------------------------------------------------

  ghost function Unless(s: Chat, fine: bool, r: Chat): Chat {
    if fine then r else s.(panicked := true)
  }

  function With(s: Chat, r: Roster): Chat {
    s.(book := s.book.(clients := r.clients), cells := r.cells, issued := r.issued)
  }

  ghost function DoSend(s: Chat, th: Thread, user: User): (r: Chat)
    requires th in s.deliveries
    ensures r.book == s.book && r.entries == s.entries && r.call == s.call
  {
    var d := s.deliveries[th];
    var left := s.(deliveries := s.deliveries[th := d.(todo := d.todo - {user})]);
    Unless(s, CanCloseAll(s.cells, Sockets(s.book.clients, {user})), With(left, Deliver(s.Roster(), {user}, d.ev)))
  }

  ghost function DoCloseStore(s: Chat): Chat {
    Unless(s, CanCloseAll(s.cells, Sockets(s.book.clients, s.book.clients.Keys)) && Injective(s.book.clients),
           With(s, CloseAllClients(s.Roster())).(book := EMPTY_BOOK, call := Free))
  }

  /** Register and Unregister. */
  ghost function DoClient(s: Chat, user: User, r: Roster): (q: Chat)
    ensures q.book.rooms == s.book.rooms && q.book.userRooms == s.book.userRooms && q.entries == s.entries && q.call == s.call
  {
    Unless(s, CanCloseAll(s.cells, Sockets(s.book.clients, {user})), With(s, r))
  }

  ghost function Do(s: Chat, step: Step): Chat
    requires Can(s, step)
  {
    match step
    case BeginJoin(room, user) => DoJoin(s, room, user)
    case JoinBus(redis, t) => DoJoinBus(s, redis, t)
    case JoinUndo => DoJoinUndo(s)
    case BeginLeave(room, user) => DoLeave(s, room, user)
    case LeaveBus(t) => DoLeaveBus(s, t)
    case BeginLeaveAll(th, user, order) => s.(leavers := s.leavers[th := Leaver(user, order)])
    case LeaveNext(th) => DoLeave(Popped(s, th), s.leavers[th].rooms[0], s.leavers[th].user)
    case BeginClose => s.(call := ClosingBus(s.entries.Keys))
    case CloseOne(room, t) => DoCloseOne(s, room, t)
    case CloseEntries => s.(call := ClosingStore, entries := map[])
    case CloseStore => DoCloseStore(s)
    case RegisterClient(user, ch) => DoClient(s, user, Register(s.Roster(), user, ch))
    case UnregisterClient(user) => DoClient(s, user, Unregister(s.Roster(), user))
    case BeginDelivery(th, room, ev) => s.(deliveries := s.deliveries[th := Delivery(room, ev, Row(s.book.rooms, room))])
    case Send(th, user) => DoSend(s, th, user)
    case EndDelivery(th) => s.(deliveries := s.deliveries - {th})
    case WriterTake(c) => With(s, Take(s.Roster(), c))
    case BusFanOut(m) => Unless(s, !FanOutPanics(s.bus, m.channel), s.(bus := FanOut(s.bus, m)))
    case BusTake(c) => s.(bus := BusReceive(s.bus, c))
    case BusShut => Unless(s, !BusClosePanics(s.bus), s.(bus := BusClose(s.bus)))
    case OtherSubscribe(post, out, t) => s.(bus := BusSubscribe(s.bus, PostChannel(post), out, t).0)
    case OtherUnsubscribe(post, sub, t) =>
      Unless(s, !UnsubscribePanics(s.bus, PostChannel(post), sub), s.(bus := BusUnsubscribe(s.bus, PostChannel(post), sub, t).0))
  }

  ghost predicate Run(ss: seq<Chat>, steps: seq<Step>) {
    && |ss| == |steps| + 1
    && ss[0] == INIT
    && forall i :: 0 <= i < |steps| ==> Can(ss[i], steps[i]) && ss[i + 1] == Do(ss[i], steps[i])
  }

  // --- The invariant ---------------------------------------------------------------------------------------

  ghost predicate RefsMatch(entries: map<Room, RoomEntry>, rooms: Index) {
    forall r :: r in entries ==> entries[r].refs == |Row(rooms, r)|
  }

  /** The rooms with an entry are the rooms with members, up to the call in progress. */
  ghost predicate KeysMatch(entries: set<Room>, rooms: set<Room>, call: Call) {
    match call
    case Free => entries == rooms
    case Joining(room, _, _) => room !in entries && rooms == entries + {room}
    case Undoing(room, _, _) => room !in entries && rooms == entries + {room}
    case Detaching(room) => room !in rooms && entries == rooms + {room}
    case ClosingBus(todo) => entries == rooms && todo <= entries
    case ClosingStore => entries == {}
  }

  /** A join that is under way has added one pair to what it will have to restore. */
  ghost predicate Restorable(entries: map<Room, RoomEntry>, book: Book, call: Call) {
    call.Joining? || call.Undoing? ==>
      && entries == call.was.entries
      && NoEmptyRow(call.was.rooms) && NoEmptyRow(call.was.userRooms)
      && call.user !in Row(call.was.rooms, call.room) && call.room !in Row(call.was.userRooms, call.user)
      && Row(call.was.rooms, call.room) == {}
      && book.rooms == Put(call.was.rooms, call.room, call.user)
      && book.userRooms == Put(call.was.userRooms, call.user, call.room)
  }

  /** Rooms whose entry's bridge the current call has cancelled. */
  function Cancelled(call: Call, entries: map<Room, RoomEntry>): set<Room> {
    match call
    case Detaching(room) => {room}
    case ClosingBus(todo) => entries.Keys - todo
    case _ => {}
  }

  /** Rooms whose entry the current call has taken off the bus. */
  function OffBus(call: Call, entries: map<Room, RoomEntry>): set<Room> {
    if call.ClosingBus? then entries.Keys - call.todo else {}
  }

  ghost predicate BusInv(entries: map<Room, RoomEntry>, bridges: map<ChanId, RoomBridge>, bus: Bus, call: Call) {
    && Bridged(entries, bridges, Cancelled(call, entries))
    && (!bus.closed ==> Consumed(entries, bus.subs, OffBus(call, entries)))
    && (forall g :: g in bridges ==> g in bus.chans)
  }

  ghost predicate Inv(s: Chat) {
    && !s.panicked
    && s.bus.Valid()
    && s.book.Valid()
    && RefsMatch(s.entries, s.book.rooms)
    && KeysMatch(s.entries.Keys, s.book.rooms.Keys, s.call)
    && Restorable(s.entries, s.book, s.call)
    && BusInv(s.entries, s.bridges, s.bus, s.call)
    && s.Roster().Valid()
  }
}
