/** The steps of the bus, its other users, the bridges and the handlers keep the invariant, and none of
    them panics. */
module FeedDeliverySteps {
  import opened GoChannels
  import opened ChannelNames
  import opened PubSub
  import opened SubscriptionStore
  import opened FeedWiring
  import opened FeedRuns
  import opened FeedInvariant
  import opened FeedAcquireSteps
  import opened FeedReleaseSteps

  // --- The bus fans out one message ----------------------------------------------------------------------

  function FannedGens(gens: map<ChanId, Gen>, b: Bus, name: Name, m: Payload): map<ChanId, Gen> {
    map g | g in gens ::
      if !b.closed && g in b.List(name) && g in b.chans then Fanned(gens[g], m, b.chans[g].Full()) else gens[g]
  }

  lemma TakenAppend(fs: seq<Fan>, m: Payload, taken: bool)
    ensures Taken(fs + [Fan(m, taken)]) == if taken then Taken(fs) + [m] else Taken(fs)
  {
    assert (fs + [Fan(m, taken)])[..|fs|] == fs;
  }

  lemma PayloadsAppend(ms: seq<Message>, m: Message)
    ensures Payloads(ms + [m]) == Payloads(ms) + [m.payload]
  {
  }

  /** One more message, taken when there is room and dropped when there is not. */
  lemma FannedOk(gen: Gen, cell: Chan<Message>, m: Message)
    requires GenOk(gen, cell, m.payload)
    ensures GenOk(Fanned(gen, m.payload, cell.Full()), cell.Offer(m), m.payload + 1)
  {
    hide Taken, Payloads;
    TakenAppend(gen.fanned, m.payload, !cell.Full());
    PayloadsAppend(cell.buf, m);
  }

  lemma LaterOk(gen: Gen, cell: Chan<Message>, m: Payload)
    requires GenOk(gen, cell, m)
    ensures GenOk(gen, cell, m + 1)
  {
    hide Taken, Payloads, Held;
  }

  /** A message goes to at most one bridge: a channel name has at most one list, and a post's list holds
      only the post's own consumer. */
  lemma OneConsumer(s: Feed, name: Name, g: ChanId, h: ChanId)
    requires BusInv(s.posts, s.bus, Ctl(s.gens), s.call) && !s.bus.closed
    requires g in s.gens && h in s.gens && g in s.bus.List(name) && h in s.bus.List(name)
    requires s.bus.Valid()
    ensures g == h
  {
    assert s.bus.madeFor[g] == name;
    assert name == PostChannel(Ctl(s.gens)[g].post);
    assert Consumed(s.posts, s.bus.subs, OffBus(s.call, s.posts));
    assert s.bus.subs[name] == [s.posts[name.postID].redis];
  }

  lemma ApartFanned(a: Gen, b: Gen, m: Payload, full: bool)
    requires Apart(a.fanned, b.fanned)
    requires forall i :: 0 <= i < |b.fanned| ==> b.fanned[i].m < m
    ensures Apart(Fanned(a, m, full).fanned, b.fanned) && Apart(b.fanned, Fanned(a, m, full).fanned)
  {
  }

  lemma GenFanned(s: Feed, name: Name)
    requires GenInv(s.gens, s.bus.chans, s.next) && !s.bus.closed
    requires forall g, h :: g in s.gens && h in s.gens && g in s.bus.List(name) && h in s.bus.List(name) ==> g == h
    ensures GenInv(FannedGens(s.gens, s.bus, name, s.next), PubSub.FanOut(s.bus, Message(name, s.next)).chans, s.next + 1)
  {
    hide GenOk, Apart;
    var r, m := FannedGens(s.gens, s.bus, name, s.next), Message(name, s.next);
    var chans := PubSub.FanOut(s.bus, m).chans;
    forall g | g in r ensures g in chans && GenOk(r[g], chans[g], s.next + 1) {
      if g in s.bus.List(name) {
        FannedOk(s.gens[g], s.bus.chans[g], m);
      } else {
        LaterOk(s.gens[g], s.bus.chans[g], s.next);
      }
    }
    forall g, h | g in r && h in r && g != h ensures Apart(r[g].fanned, r[h].fanned) {
      FannedBelow(s, g);
      FannedBelow(s, h);
      assert Apart(s.gens[g].fanned, s.gens[h].fanned) && Apart(s.gens[h].fanned, s.gens[g].fanned);
      ApartFanned(s.gens[g], s.gens[h], s.next, s.bus.chans[g].Full());
      ApartFanned(s.gens[h], s.gens[g], s.next, s.bus.chans[h].Full());
    }
  }

  lemma FannedBelow(s: Feed, g: ChanId)
    requires GenInv(s.gens, s.bus.chans, s.next) && g in s.gens
    ensures forall i :: 0 <= i < |s.gens[g].fanned| ==> s.gens[g].fanned[i].m < s.next
  {
    hide Taken, Payloads, Held, Apart;
    assert GenOk(s.gens[g], s.bus.chans[g], s.next);
  }

  lemma GenUnfanned(s: Feed)
    requires GenInv(s.gens, s.bus.chans, s.next)
    ensures GenInv(s.gens, s.bus.chans, s.next + 1)
  {
    hide GenOk, Apart;
    forall g | g in s.gens ensures GenOk(s.gens[g], s.bus.chans[g], s.next + 1) {
      LaterOk(s.gens[g], s.bus.chans[g], s.next);
    }
  }

  lemma BusFanned(s: Feed, name: Name)
    requires BusInv(s.posts, s.bus, Ctl(s.gens), s.call)
    ensures BusInv(s.posts, PubSub.FanOut(s.bus, Message(name, s.next)), Ctl(s.gens), s.call)
    ensures Ctl(FannedGens(s.gens, s.bus, name, s.next)) == Ctl(s.gens)
    ensures SameDelivery(s.gens, FannedGens(s.gens, s.bus, name, s.next))
  {
    hide Bridged, Consumed;
  }

  lemma FanOutStep(s: Feed, name: Name)
    requires Inv(s)
    ensures Inv(DoFanOut(s, name))
  {
    hide Bus.Valid, HubInv, OwedInv, BusInv, ChanInv, GenInv, WatchInv, TodoInv, FanOutPanics, Ctl, PubSub.FanOut;
    NoFanOutPanic(s.bus, name);
    FanOutKeepsValid(s.bus, Message(name, s.next));
    BusFanned(s, name);
    WatchFrame(s.watches, s.gens, FannedGens(s.gens, s.bus, name, s.next), s.events);
    TodoFrame(s.gens, FannedGens(s.gens, s.bus, name, s.next), s.subs);
    if s.bus.closed {
      ClosedFanOut(s, name);
      GenUnfanned(s);
    } else {
      forall g, h | g in s.gens && h in s.gens && g in s.bus.List(name) && h in s.bus.List(name) ensures g == h {
        OneConsumer(s, name, g, h);
      }
      GenFanned(s, name);
    }
    assert DoFanOut(s, name).gens == FannedGens(s.gens, s.bus, name, s.next);
  }

  lemma ClosedFanOut(s: Feed, name: Name)
    requires s.bus.closed
    ensures PubSub.FanOut(s.bus, Message(name, s.next)) == s.bus
    ensures FannedGens(s.gens, s.bus, name, s.next) == s.gens
  {
  }

  // --- The bus is closed -----------------------------------------------------------------------------------

  lemma BusClosed(s: Feed)
    requires BusInv(s.posts, s.bus, Ctl(s.gens), s.call)
    ensures BusInv(s.posts, BusClose(s.bus), Ctl(s.gens), s.call)
  {
    hide Bridged, Consumed, Ctl;
  }

  lemma BusShutStep(s: Feed)
    requires Inv(s)
    ensures Inv(Unless(s, BusClosePanics(s.bus), s.(bus := BusClose(s.bus))))
  {
    hide Bus.Valid, HubInv, OwedInv, BusInv, ChanInv, GenInv, WatchInv, TodoInv, BusClosePanics, Ctl;
    NoBusClosePanic(s.bus);
    CloseKeepsValid(s.bus);
    BusClosed(s);
    GenFrame(s.gens, s.bus.chans, BusClose(s.bus).chans, s.next);
  }

  // --- Other users of the bus ------------------------------------------------------------------------------

  lemma BusOther(s: Feed, b: Bus)
    requires BusInv(s.posts, s.bus, Ctl(s.gens), s.call)
    requires b.closed == s.bus.closed && s.bus.chans.Keys <= b.chans.Keys
    requires forall c :: c in s.bus.madeFor ==> c in b.madeFor && b.madeFor[c] == s.bus.madeFor[c]
    requires forall p :: PostChannel(p) in b.subs <==> PostChannel(p) in s.bus.subs
    requires forall p :: PostChannel(p) in b.subs ==> b.subs[PostChannel(p)] == s.bus.subs[PostChannel(p)]
    ensures BusInv(s.posts, b, Ctl(s.gens), s.call)
  {
    hide Bridged, Ctl;
  }

  lemma OtherSubscribeStep(s: Feed, room: string, out: ChanId, t: Transport)
    requires Inv(s) && out !in s.bus.chans
    ensures Inv(s.(bus := BusSubscribe(s.bus, RoomChannel(room), out, t).0))
  {
    hide Bus.Valid, HubInv, OwedInv, BusInv, ChanInv, GenInv, WatchInv, TodoInv, Ctl, BusSubscribe;
    SubscribeKeepsValid(s.bus, RoomChannel(room), out, t);
    SubscribeElsewhere(s.bus, room, out, t);
    BusOther(s, BusSubscribe(s.bus, RoomChannel(room), out, t).0);
    GenFrame(s.gens, s.bus.chans, BusSubscribe(s.bus, RoomChannel(room), out, t).0.chans, s.next);
  }

  lemma SubscribeElsewhere(b: Bus, room: string, out: ChanId, t: Transport)
    requires b.Valid() && out !in b.chans
    ensures var r := BusSubscribe(b, RoomChannel(room), out, t).0;
            && r.closed == b.closed
            && (forall c :: c in b.chans ==> c in r.chans && r.chans[c] == b.chans[c])
            && (forall c :: c in b.madeFor ==> c in r.madeFor && r.madeFor[c] == b.madeFor[c])
            && (forall p :: PostChannel(p) in r.subs <==> PostChannel(p) in b.subs)
            && (forall p :: PostChannel(p) in r.subs ==> r.subs[PostChannel(p)] == b.subs[PostChannel(p)])
  {
    hide ListsValid, CellsValid;
  }

  lemma UnsubscribeElsewhere(b: Bus, room: string, c: ChanId, t: Transport)
    ensures var r := BusUnsubscribe(b, RoomChannel(room), c, t).0;
            && (forall p :: PostChannel(p) in r.subs <==> PostChannel(p) in b.subs)
            && (forall p :: PostChannel(p) in r.subs ==> r.subs[PostChannel(p)] == b.subs[PostChannel(p)])
  {
  }

  lemma OtherUnsubscribeStep(s: Feed, room: string, c: ChanId, t: Transport)
    requires Inv(s)
    ensures Inv(Unless(s, UnsubscribePanics(s.bus, RoomChannel(room), c),
                       s.(bus := BusUnsubscribe(s.bus, RoomChannel(room), c, t).0)))
  {
    hide Bus.Valid, HubInv, OwedInv, BusInv, ChanInv, GenInv, WatchInv, TodoInv, Ctl, BusUnsubscribe, UnsubscribePanics;
    NoUnsubscribePanic(s.bus, RoomChannel(room), c);
    UnsubscribeKeepsValid(s.bus, RoomChannel(room), c, t);
    UnsubscribeElsewhere(s.bus, room, c, t);
    UnsubscribeCells(s.bus, RoomChannel(room), c, t);
    BusOther(s, BusUnsubscribe(s.bus, RoomChannel(room), c, t).0);
    GenFrame(s.gens, s.bus.chans, BusUnsubscribe(s.bus, RoomChannel(room), c, t).0.chans, s.next);
  }

  lemma OtherReceiveStep(s: Feed, c: ChanId)
    requires Inv(s) && c !in s.gens && c in s.bus.chans && s.bus.chans[c].buf != []
    ensures Inv(s.(bus := BusReceive(s.bus, c)))
  {
    hide Bus.Valid, HubInv, OwedInv, BusInv, ChanInv, GenInv, WatchInv, TodoInv, Ctl;
    ReceiveKeepsValid(s.bus, c);
    BusOther(s, BusReceive(s.bus, c));
    GenReceiveElsewhere(s, c);
  }

  lemma GenReceiveElsewhere(s: Feed, c: ChanId)
    requires GenInv(s.gens, s.bus.chans, s.next) && c !in s.gens && c in s.bus.chans && s.bus.chans[c].buf != []
    ensures GenInv(s.gens, BusReceive(s.bus, c).chans, s.next)
  {
    hide GenOk, Apart;
  }

  // --- A bridge ----------------------------------------------------------------------------------------------

  /** The bridge itself moves on; nothing about its post, context or history of fan-outs changes. */
  ghost predicate Moves(gens: map<ChanId, Gen>, g: ChanId, gen: Gen) {
    g in gens && gen.post == gens[g].post && gen.cancelled == gens[g].cancelled && gen.fanned == gens[g].fanned
  }

  lemma GenMoves(gens: map<ChanId, Gen>, g: ChanId, gen: Gen, chans: Table<Message>, cell: Chan<Message>, next: Payload)
    requires GenInv(gens, chans, next) && Moves(gens, g, gen) && GenOk(gen, cell, next)
    ensures GenInv(gens[g := gen], chans[g := cell], next)
    ensures Ctl(gens[g := gen]) == Ctl(gens)
  {
    hide GenOk, Apart;
  }

  lemma SameCell(chans: Table<Message>, g: ChanId)
    requires g in chans
    ensures chans[g := chans[g]] == chans
  {
  }

  lemma ReceivedOk(gen: Gen, cell: Chan<Message>, next: Payload)
    requires GenOk(gen, cell, next) && gen.phase.Idle? && cell.buf != []
    ensures GenOk(gen.(phase := Holding(cell.buf[0].payload)), cell.(buf := cell.buf[1..]), next)
  {
    hide Taken;
    assert Payloads(cell.buf) == [cell.buf[0].payload] + Payloads(cell.buf[1..]);
    assert gen.published + Payloads(cell.buf)
        == gen.published + [cell.buf[0].payload] + Payloads(cell.buf[1..]);
  }

  lemma InGens(s: Feed, g: ChanId)
    requires GenInv(s.gens, s.bus.chans, s.next) && g in s.gens
    ensures g in s.bus.chans && GenOk(s.gens[g], s.bus.chans[g], s.next)
  {
    hide GenOk, Apart;
  }

  /** A phase change that neither starts nor ends a publication is invisible to the connections. */
  lemma QuietMove(s: Feed, g: ChanId, phase: Phase)
    requires g in s.gens && WatchInv(s.watches, s.gens, s.events) && TodoInv(s.gens, s.subs)
    requires !phase.Publishing? && (s.gens[g].phase.Publishing? ==> s.gens[g].phase.todo == {})
    ensures WatchInv(s.watches, s.gens[g := s.gens[g].(phase := phase)], s.events)
    ensures TodoInv(s.gens[g := s.gens[g].(phase := phase)], s.subs)
  {
    hide OffersOk, Accepted;
    forall ch | ch in s.watches ensures OffersOk(s.watches[ch], s.gens[g := s.gens[g].(phase := phase)]) {
      QuietOffers(s.watches[ch], s.gens, g, phase);
    }
  }

  lemma QuietOffers(w: Watch, gens: map<ChanId, Gen>, g: ChanId, phase: Phase)
    requires g in gens && OffersOk(w, gens)
    requires !phase.Publishing? && (gens[g].phase.Publishing? ==> gens[g].phase.todo == {})
    ensures OffersOk(w, gens[g := gens[g].(phase := phase)])
  {
    hide Of, Due, BoundsOk;
  }

  lemma BusReceived(s: Feed, g: ChanId)
    requires BusInv(s.posts, s.bus, Ctl(s.gens), s.call) && g in s.bus.chans && s.bus.chans[g].buf != []
    ensures BusInv(s.posts, BusReceive(s.bus, g), Ctl(s.gens), s.call)
  {
    hide Bridged, Consumed, Ctl;
  }

  lemma BridgeReceiveStep(s: Feed, g: ChanId)
    requires Inv(s) && g in s.gens && s.gens[g].phase.Idle? && g in s.bus.chans && s.bus.chans[g].buf != []
    ensures Inv(DoBridgeReceive(s, g))
  {
    hide Bus.Valid, HubInv, OwedInv, BusInv, ChanInv, GenInv, WatchInv, TodoInv, Ctl, GenOk;
    ReceiveKeepsValid(s.bus, g);
    InGens(s, g);
    var cell := s.bus.chans[g];
    var gen := s.gens[g].(phase := Holding(cell.buf[0].payload));
    ReceivedOk(s.gens[g], cell, s.next);
    GenMoves(s.gens, g, gen, s.bus.chans, cell.(buf := cell.buf[1..]), s.next);
    QuietMove(s, g, gen.phase);
    BusReceived(s, g);
  }

  lemma ExitedOk(gen: Gen, cell: Chan<Message>, next: Payload)
    requires GenOk(gen, cell, next) && gen.phase.Idle? && (gen.cancelled || cell.closed)
    ensures GenOk(gen.(phase := Exited), cell, next)
  {
    hide Taken, Payloads;
  }

  lemma DoneOk(gen: Gen, cell: Chan<Message>, next: Payload)
    requires GenOk(gen, cell, next) && gen.phase.Publishing?
    ensures GenOk(gen.(phase := Idle), cell, next)
  {
    hide Taken, Payloads;
  }

  lemma PhaseStep(s: Feed, g: ChanId, phase: Phase)
    requires Inv(s) && g in s.gens && g in s.bus.chans
    requires !phase.Publishing? && (s.gens[g].phase.Publishing? ==> s.gens[g].phase.todo == {})
    requires GenOk(s.gens[g].(phase := phase), s.bus.chans[g], s.next)
    ensures Inv(s.(gens := s.gens[g := s.gens[g].(phase := phase)]))
  {
    hide Bus.Valid, HubInv, OwedInv, BusInv, ChanInv, GenInv, WatchInv, TodoInv, Ctl, GenOk;
    GenMoves(s.gens, g, s.gens[g].(phase := phase), s.bus.chans, s.bus.chans[g], s.next);
    SameCell(s.bus.chans, g);
    QuietMove(s, g, phase);
  }

  lemma BridgeExitStep(s: Feed, g: ChanId)
    requires Inv(s) && g in s.gens && s.gens[g].phase.Idle? && g in s.bus.chans
    requires s.gens[g].cancelled || s.bus.chans[g].closed
    ensures Inv(s.(gens := s.gens[g := s.gens[g].(phase := Exited)]))
  {
    hide Bus.Valid, HubInv, OwedInv, BusInv, ChanInv, GenInv, WatchInv, TodoInv, Ctl, GenOk;
    InGens(s, g);
    ExitedOk(s.gens[g], s.bus.chans[g], s.next);
    PhaseStep(s, g, Exited);
  }

  lemma BridgeDoneStep(s: Feed, g: ChanId)
    requires Inv(s) && g in s.gens && s.gens[g].phase.Publishing? && s.gens[g].phase.todo == {}
    ensures Inv(s.(gens := s.gens[g := s.gens[g].(phase := Idle)]))
  {
    hide Bus.Valid, HubInv, OwedInv, BusInv, ChanInv, GenInv, WatchInv, TodoInv, Ctl, GenOk;
    InGens(s, g);
    DoneOk(s.gens[g], s.bus.chans[g], s.next);
    PhaseStep(s, g, Idle);
  }

  // --- A bridge publishes --------------------------------------------------------------------------------

  function PublishingGen(gen: Gen, subs: Subs): Gen
    requires gen.phase.Holding?
  {
    gen.(phase := Publishing(gen.phase.m, Inner(subs, gen.post).Keys), published := gen.published + [gen.phase.m])
  }

  lemma PublishedOk(gen: Gen, cell: Chan<Message>, next: Payload, subs: Subs)
    requires GenOk(gen, cell, next) && gen.phase.Holding?
    ensures GenOk(PublishingGen(gen, subs), cell, next)
  {
    hide Taken, Payloads;
  }

  /** When a bridge starts to publish, the message becomes due to, and pending for, exactly the registered
      connections of its post. */
  lemma PublishOffers(w: Watch, gens: map<ChanId, Gen>, g: ChanId, subs: Subs)
    requires g in gens && gens[g].phase.Holding? && OffersOk(w, gens)
    requires w.live && gens[g].post == w.post ==> Has(subs, w.post, w.conn)
    ensures OffersOk(w, gens[g := PublishingGen(gens[g], subs)])
  {
    hide Of;
    var gen := PublishingGen(gens[g], subs);
    if gens[g].post == w.post {
      var lo := if g in w.since then w.since[g] else 0;
      assert BoundsOk(w, gens[g].published, g);
      if w.live {
        assert gen.published[lo..] == gens[g].published[lo..] + [gens[g].phase.m];
        assert Due(w, gen.published, g) == Due(w, gens[g].published, g) + [gens[g].phase.m];
      } else {
        DueFixed(w, gens[g].published, gens[g].phase.m, g);
      }
    }
  }

  lemma DueFixed(w: Watch, published: seq<Payload>, m: Payload, g: ChanId)
    requires !w.live && BoundsOk(w, published, g)
    ensures Due(w, published + [m], g) == Due(w, published, g)
  {
  }

  lemma WatchPublish(s: Feed, g: ChanId)
    requires g in s.gens && s.gens[g].phase.Holding? && WatchInv(s.watches, s.gens, s.events) && TodoInv(s.gens, s.subs)
    requires ChanInv(s.subs, s.events, s.watches, s.call)
    ensures WatchInv(s.watches, s.gens[g := PublishingGen(s.gens[g], s.subs)], s.events)
    ensures TodoInv(s.gens[g := PublishingGen(s.gens[g], s.subs)], s.subs)
  {
    hide OffersOk, Accepted, ChannelsValid;
    forall ch | ch in s.watches ensures OffersOk(s.watches[ch], s.gens[g := PublishingGen(s.gens[g], s.subs)]) {
      PublishOffers(s.watches[ch], s.gens, g, s.subs);
    }
  }

  lemma BridgePublishStep(s: Feed, g: ChanId)
    requires Inv(s) && g in s.gens && s.gens[g].phase.Holding?
    ensures Inv(DoBridgePublish(s, g))
  {
    hide Bus.Valid, HubInv, OwedInv, BusInv, ChanInv, GenInv, WatchInv, TodoInv, Ctl, GenOk;
    InGens(s, g);
    PublishedOk(s.gens[g], s.bus.chans[g], s.next, s.subs);
    GenMoves(s.gens, g, PublishingGen(s.gens[g], s.subs), s.bus.chans, s.bus.chans[g], s.next);
    SameCell(s.bus.chans, g);
    WatchPublish(s, g);
  }

  // --- A bridge offers its message to one connection -------------------------------------------------------

  function SentGen(gen: Gen, to: Conn): Gen
    requires gen.phase.Publishing?
  {
    gen.(phase := Publishing(gen.phase.m, gen.phase.todo - {to}))
  }

  lemma SentOk(gen: Gen, cell: Chan<Message>, next: Payload, to: Conn)
    requires GenOk(gen, cell, next) && gen.phase.Publishing?
    ensures GenOk(SentGen(gen, to), cell, next)
  {
    hide Taken, Payloads;
  }

  lemma OfAppend(os: seq<Offer>, o: Offer, g: ChanId)
    ensures Of(os + [o], g) == if o.gen == g then Of(os, g) + [o.m] else Of(os, g)
  {
    assert (os + [o])[..|os|] == os;
  }

  lemma AcceptedAppend(os: seq<Offer>, o: Offer)
    ensures Accepted(os + [o]) == if o.taken then Accepted(os) + [o.m] else Accepted(os)
  {
    assert (os + [o])[..|os|] == os;
  }

  /** The connection that is served: what was pending has been offered. */
  lemma OffersServed(w: Watch, gens: map<ChanId, Gen>, g: ChanId, taken: bool)
    requires g in gens && gens[g].phase.Publishing? && OffersOk(w, gens)
    requires w.live && w.conn in gens[g].phase.todo && gens[g].post == w.post
    ensures OffersOk(w.(offered := w.offered + [Offer(g, gens[g].phase.m, taken)]), gens[g := SentGen(gens[g], w.conn)])
  {
    hide Of, BoundsOk;
    var o := Offer(g, gens[g].phase.m, taken);
    var v := w.(offered := w.offered + [o]);
    var r := gens[g := SentGen(gens[g], w.conn)];
    forall h | h in r && r[h].post == v.post ensures Of(v.offered, h) + Pending(v, r[h].phase) == Due(v, r[h].published, h) {
      OfAppend(w.offered, o, h);
      assert Of(w.offered, h) + Pending(w, gens[h].phase) == Due(w, gens[h].published, h);
    }
    assert forall h :: h in r ==> BoundsOk(w, gens[h].published, h) == BoundsOk(v, r[h].published, h) by {
      BoundsSame(w, v);
    }
  }

  lemma BoundsSame(w: Watch, v: Watch)
    requires v.live == w.live && v.since == w.since && v.until == w.until
    ensures forall published, g :: BoundsOk(w, published, g) == BoundsOk(v, published, g)
  {
  }

  /** Every other connection: nothing changes. */
  lemma OffersUnserved(w: Watch, gens: map<ChanId, Gen>, g: ChanId, to: Conn)
    requires g in gens && gens[g].phase.Publishing? && OffersOk(w, gens)
    requires !(w.live && w.conn == to && gens[g].post == w.post)
    ensures OffersOk(w, gens[g := SentGen(gens[g], to)])
  {
    hide Of, BoundsOk, Due;
  }

  /** The channel registered for a connection belongs to that connection's history. */
  lemma Registered(s: Feed, post: Post, conn: Conn)
    requires ChanInv(s.subs, s.events, s.watches, s.call) && Has(s.subs, post, conn)
    ensures var ch := Inner(s.subs, post)[conn].ch;
            && ch in s.events && !s.events[ch].closed && ch in s.watches
            && s.watches[ch].post == post && s.watches[ch].conn == conn && s.watches[ch].live
    ensures forall c :: c in s.watches && s.watches[c].live && s.watches[c].post == post && s.watches[c].conn == conn ==>
                          c == Inner(s.subs, post)[conn].ch
  {
    var ch := Inner(s.subs, post)[conn].ch;
    assert OwnerOf(s.watches)[ch] == (post, conn);
  }

  lemma WatchSend(s: Feed, g: ChanId, to: Conn, ch: ChanId)
    requires g in s.gens && s.gens[g].phase.Publishing? && to in s.gens[g].phase.todo
    requires WatchInv(s.watches, s.gens, s.events) && TodoInv(s.gens, s.subs)
    requires ch in s.watches && ch in s.events && s.watches[ch].live && s.watches[ch].conn == to && s.watches[ch].post == s.gens[g].post
    requires forall c :: c in s.watches && s.watches[c].live && s.watches[c].post == s.gens[g].post && s.watches[c].conn == to ==> c == ch
    ensures var w := s.watches[ch].(offered := s.watches[ch].offered + [Offer(g, s.gens[g].phase.m, !s.events[ch].Full())]);
            WatchInv(s.watches[ch := w], s.gens[g := SentGen(s.gens[g], to)], s.events[ch := s.events[ch].Offer(s.gens[g].phase.m)])
    ensures TodoInv(s.gens[g := SentGen(s.gens[g], to)], s.subs)
  {
    hide OffersOk, Accepted;
    var o := Offer(g, s.gens[g].phase.m, !s.events[ch].Full());
    AcceptedAppend(s.watches[ch].offered, o);
    OffersServed(s.watches[ch], s.gens, g, o.taken);
    forall c | c in s.watches && c != ch ensures OffersOk(s.watches[c], s.gens[g := SentGen(s.gens[g], to)]) {
      OffersUnserved(s.watches[c], s.gens, g, to);
    }
  }

  lemma ChanSend(s: Feed, ch: ChanId, o: Offer)
    requires ChanInv(s.subs, s.events, s.watches, s.call) && ch in s.watches && ch in s.events && !s.events[ch].closed
    requires s.call.AtBus? || s.call.AtStore? ==> ch != s.call.ch
    ensures ChanInv(s.subs, s.events[ch := s.events[ch].Offer(o.m)],
                    s.watches[ch := s.watches[ch].(offered := s.watches[ch].offered + [o])], s.call)
  {
    hide ChannelsValid;
    assert OwnerOf(s.watches[ch := s.watches[ch].(offered := s.watches[ch].offered + [o])]) == OwnerOf(s.watches);
    ChannelsSend(s.subs, s.events, OwnerOf(s.watches), ch, o.m);
  }

  lemma ChannelsSend(subs: Subs, events: Table<Payload>, owner: Owner, ch: ChanId, m: Payload)
    requires ChannelsValid(subs, events, owner) && ch in events
    ensures ChannelsValid(subs, events[ch := events[ch].Offer(m)], owner)
  {
  }

  lemma NotTheNewChannel(s: Feed, ch: ChanId)
    requires ChanInv(s.subs, s.events, s.watches, s.call) && ch in s.watches && (s.call.AtBus? || s.call.AtStore?)
    ensures ch != s.call.ch
  {
    hide ChannelsValid;
  }

  lemma TodoIsRegistered(s: Feed, g: ChanId, to: Conn)
    requires TodoInv(s.gens, s.subs) && g in s.gens && s.gens[g].phase.Publishing? && to in s.gens[g].phase.todo
    ensures Has(s.subs, s.gens[g].post, to)
  {
  }

  lemma BridgeSendStep(s: Feed, g: ChanId, to: Conn)
    requires Inv(s) && g in s.gens && s.gens[g].phase.Publishing? && to in s.gens[g].phase.todo
    ensures Inv(DoBridgeSend(s, g, to))
  {
    hide Bus.Valid, HubInv, OwedInv, BusInv, ChanInv, GenInv, WatchInv, TodoInv, Ctl, GenOk;
    TodoIsRegistered(s, g, to);
    Registered(s, s.gens[g].post, to);
    var ch := s.subs[s.gens[g].post][to].ch;
    InGens(s, g);
    SentOk(s.gens[g], s.bus.chans[g], s.next, to);
    GenMoves(s.gens, g, SentGen(s.gens[g], to), s.bus.chans, s.bus.chans[g], s.next);
    SameCell(s.bus.chans, g);
    WatchSend(s, g, to, ch);
    if s.call.AtBus? || s.call.AtStore? {
      NotTheNewChannel(s, ch);
    }
    ChanSend(s, ch, Offer(g, s.gens[g].phase.m, !s.events[ch].Full()));
  }

  // --- A handler receives ----------------------------------------------------------------------------------

  function ReceivedWatch(w: Watch, m: Payload): Watch {
    w.(received := w.received + [m])
  }

  lemma OffersReceived(w: Watch, gens: map<ChanId, Gen>, m: Payload)
    requires OffersOk(w, gens)
    ensures OffersOk(ReceivedWatch(w, m), gens)
  {
    hide Of;
  }

  lemma WatchReceive(s: Feed, ch: ChanId)
    requires WatchInv(s.watches, s.gens, s.events) && ch in s.watches && ch in s.events && s.events[ch].buf != []
    ensures WatchInv(s.watches[ch := ReceivedWatch(s.watches[ch], s.events[ch].buf[0])], s.gens,
                     s.events[ch := s.events[ch].(buf := s.events[ch].buf[1..])])
  {
    hide OffersOk, Accepted;
    var w, buf := s.watches[ch], s.events[ch].buf;
    OffersReceived(w, s.gens, buf[0]);
    assert w.received + buf == w.received + [buf[0]] + buf[1..];
  }

  lemma ChanReceive(s: Feed, ch: ChanId)
    requires ChanInv(s.subs, s.events, s.watches, s.call) && ch in s.watches && ch in s.events && s.events[ch].buf != []
    ensures ChanInv(s.subs, s.events[ch := s.events[ch].(buf := s.events[ch].buf[1..])],
                    s.watches[ch := ReceivedWatch(s.watches[ch], s.events[ch].buf[0])], s.call)
  {
    hide ChannelsValid;
    var w := ReceivedWatch(s.watches[ch], s.events[ch].buf[0]);
    assert OwnerOf(s.watches[ch := w]) == OwnerOf(s.watches);
    ChannelsReceive(s.subs, s.events, OwnerOf(s.watches), ch);
  }

  lemma ChannelsReceive(subs: Subs, events: Table<Payload>, owner: Owner, ch: ChanId)
    requires ChannelsValid(subs, events, owner) && ch in events && events[ch].buf != []
    ensures ChannelsValid(subs, events[ch := events[ch].(buf := events[ch].buf[1..])], owner)
  {
  }

  lemma HandlerReceiveStep(s: Feed, ch: ChanId)
    requires Inv(s) && ch in s.watches && ch in s.events && s.events[ch].buf != []
    ensures Inv(DoHandlerReceive(s, ch))
  {
    hide Bus.Valid, HubInv, OwedInv, BusInv, ChanInv, GenInv, WatchInv, TodoInv, Ctl;
    WatchReceive(s, ch);
    ChanReceive(s, ch);
  }
}
