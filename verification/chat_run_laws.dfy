/** The steps of a delivery and of a join, inside the runs. */
module ChatRunLaws {
  import opened GoChannels
  import opened ChannelNames
  import opened PubSub
  import opened PubSubLaws
  import opened ChatIndex
  import opened ChatClients
  import opened ChatWiring
  import opened ChatRuns
  import opened ChatTheorems

  /** The first member's visit to the bus succeeds if and only if the bus is open and the transport agrees. */
  lemma AttachSucceedsIff(s: Chat, redis: ChanId, t: Transport)
    requires Inv(s) && Can(s, JoinBus(redis, t))
    ensures Do(s, JoinBus(redis, t)).call.Free? <==> !s.bus.closed && t.Ok?
    ensures Do(s, JoinBus(redis, t)).call.Undoing? <==> s.bus.closed || t.Failed?
  {
    hide Bus.Valid, Roster.Valid, IndexValid, RefsMatch, Restorable, Bridged, BusSubscribe;
    SubscribeSucceedsIff(s.bus, RoomChannel(s.call.room), redis, t);
  }

  /** The sends of one delivery, one after the other. */
  ghost function SendEach(s: Chat, th: Thread, order: seq<User>): Chat
    requires th in s.deliveries
    decreases |order|
  {
    if order == [] then s else
      var next := DoSend(s, th, order[0]);
      if th in next.deliveries then SendEach(next, th, order[1..]) else next
  }

  ghost function DeliverySteps(s: Chat, th: Thread, room: Room, ev: Payload, order: seq<User>): Chat {
    var begun := s.(deliveries := s.deliveries[th := Delivery(room, ev, Row(s.book.rooms, room))]);
    var sent := SendEach(begun, th, order);
    sent.(deliveries := sent.deliveries - {th})
  }

  ghost predicate ListsAll(order: seq<User>, todo: set<User>) {
    (forall u :: u in order <==> u in todo) && Distinct(order)
  }

  lemma Shorter(order: seq<User>, todo: set<User>)
    requires order != [] && ListsAll(order, todo)
    ensures ListsAll(order[1..], todo - {order[0]}) && order[0] in todo
  {
    assert forall u :: u in order <==> u == order[0] || u in order[1..];
  }

  /** Delivering to one more user. */
  lemma DeliverOneMore(r: Roster, user: User, rest: set<User>, ev: Payload)
    requires r.Valid() && user !in rest
    ensures Deliver(Deliver(r, {user}, ev), rest, ev) == Deliver(r, rest + {user}, ev)
  {
    hide OfferAll, Sockets, Roster.Valid;
    SocketsApart(r, user, rest);
    OfferBoth(r.cells, Sockets(r.clients, {user}), Sockets(r.clients, rest), ev);
  }

  lemma SocketsApart(r: Roster, user: User, rest: set<User>)
    requires r.Valid() && user !in rest
    ensures Sockets(r.clients, {user}) !! Sockets(r.clients, rest)
    ensures Sockets(r.clients, rest + {user}) == Sockets(r.clients, {user}) + Sockets(r.clients, rest)
  {
  }

  lemma OfferBoth<T>(table: Table<T>, a: set<ChanId>, b: set<ChanId>, m: T)
    requires a !! b
    ensures OfferAll(OfferAll(table, a, m), b, m) == OfferAll(table, a + b, m)
  {
  }

  lemma DeliverToNobody(r: Roster, ev: Payload)
    ensures Deliver(r, {}, ev) == r
  {
  }

  lemma OneSend(s: Chat, th: Thread, user: User)
    requires Inv(s) && th in s.deliveries && user in s.deliveries[th].todo
    ensures var r, d := DoSend(s, th, user), s.deliveries[th];
            && Inv(r) && r.Roster() == Deliver(s.Roster(), {user}, d.ev) && r.book.rooms == s.book.rooms
            && r.deliveries == s.deliveries[th := d.(todo := d.todo - {user})] && r.View() == s.View()
  {
    hide Bus.Valid, Roster.Valid, IndexValid, RefsMatch, KeysMatch, BusInv, Restorable, Deliver, Sockets;
    NotPanicked(s);
    ClientStep(s, Send(th, user));
    SendIsFine(s, th, user);
  }

  lemma SendIsFine(s: Chat, th: Thread, user: User)
    requires Inv(s)
    ensures CanCloseAll(s.cells, Sockets(s.book.clients, {user})) && Deliver(s.Roster(), {user}, 0).clients == s.book.clients
  {
    hide Bus.Valid, IndexValid, RefsMatch, KeysMatch, BusInv, Restorable;
    TouchedIsOpen(s.Roster(), OpDeliver({user}, 0));
  }

  lemma {:induction false} AllSends(s: Chat, th: Thread, order: seq<User>)
    requires Inv(s) && th in s.deliveries && ListsAll(order, s.deliveries[th].todo)
    ensures var r, d := SendEach(s, th, order), s.deliveries[th];
            && Inv(r) && r.Roster() == Deliver(s.Roster(), d.todo, d.ev) && r.View() == s.View()
            && r.deliveries == s.deliveries[th := d.(todo := {})]
    decreases |order|
  {
    hide Inv, DoSend, Deliver, ListsAll;
    var d := s.deliveries[th];
    if order == [] {
      NoneLeft(order, d.todo);
      DeliverToNobody(s.Roster(), d.ev);
    } else {
      var user := order[0];
      Shorter(order, d.todo);
      OneSend(s, th, user);
      AllSends(DoSend(s, th, user), th, order[1..]);
      RosterIsValid(s);
      DeliverOneMore(s.Roster(), user, d.todo - {user}, d.ev);
      assert d.todo - {user} + {user} == d.todo;
    }
  }

  lemma NoneLeft(order: seq<User>, todo: set<User>)
    requires order == [] && ListsAll(order, todo)
    ensures todo == {}
  {
  }

  /** One delivery, undisturbed, in whatever order it comes to the members: the client channels end as the store's
      DeliverToRoom leaves them, and nothing else has changed. */
  lemma DeliveryAlone(s: Chat, th: Thread, room: Room, ev: Payload, order: seq<User>)
    requires Inv(s) && th !in s.deliveries && ListsAll(order, Row(s.book.rooms, room))
    ensures var r := DeliverySteps(s, th, room, ev, order);
            && !r.panicked && r.Roster() == Deliver(s.Roster(), Row(s.book.rooms, room), ev)
            && r.View() == s.View() && r.deliveries == s.deliveries
  {
    hide Inv, Deliver, ListsAll, SendEach;
    NotPanicked(s);
    StepKeepsInv(s, BeginDelivery(th, room, ev));
    var begun := s.(deliveries := s.deliveries[th := Delivery(room, ev, Row(s.book.rooms, room))]);
    AllSends(begun, th, order);
    NotPanicked(SendEach(begun, th, order));
  }
}
