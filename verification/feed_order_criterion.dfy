/** The order of a connection's events, decided when it registers. */
module FeedOrderCriterion {
  import opened GoChannels
  import opened ChannelNames
  import opened PubSub
  import opened SubscriptionStore
  import opened FeedWiring
  import opened FeedRuns
  import opened FeedInvariant
  import opened FeedDeliverySteps
  import opened FeedTheorems
  import opened FeedDelivery
  import opened FeedExactOrder

  // --- With one source, every continuation is in order -------------------------------------------------------------

  lemma EntryAtStore(s: Feed)
    requires Inv(s) && s.call.AtStore?
    ensures s.call.post in s.posts
    ensures var g := s.posts[s.call.post].redis; g in s.gens && s.gens[g].post == s.call.post && !s.gens[g].cancelled
  {
    hide Bus.Valid, OwedInv, Consumed, ChanInv, GenInv, WatchInv, TodoInv, Counted, NoEmptyInner;
    var g := s.posts[s.call.post].redis;
    assert g in Ctl(s.gens) && Ctl(s.gens)[g] == Bridge(s.call.post, false);
  }

  lemma InChans(s: Feed, g: ChanId)
    requires Inv(s) && g in s.gens
    ensures g in s.bus.chans && GenOk(s.gens[g], s.bus.chans[g], s.next)
  {
    hide Bus.Valid, HubInv, OwedInv, BusInv, ChanInv, WatchInv, TodoInv, GenInv, GenOk;
    InGens(s, g);
  }

  /** A bus channel is open only while it serves its post's entry. */
  lemma OldChannelIsClosed(s: Feed, g: ChanId)
    requires Inv(s) && s.call.AtStore? && g in s.gens
    requires s.bus.closed || (s.gens[g].post in s.posts && s.posts[s.gens[g].post].redis != g)
    ensures g in s.bus.chans && s.bus.chans[g].closed
  {
    hide HubInv, OwedInv, ChanInv, GenInv, WatchInv, TodoInv, Bridged, ListsValid;
    InChans(s, g);
    assert g in Ctl(s.gens) && s.bus.madeFor[g] == PostChannel(s.gens[g].post);
  }

  lemma OwnChannelIsOpen(s: Feed)
    requires Inv(s) && s.call.AtStore? && !s.bus.closed && s.call.post in s.posts
    ensures var g := s.posts[s.call.post].redis;
            && s.bus.List(PostChannel(s.call.post)) == [g]
            && g in s.bus.chans && !s.bus.chans[g].closed
  {
    hide HubInv, OwedInv, ChanInv, GenInv, WatchInv, TodoInv, Bridged;
    var g := s.posts[s.call.post].redis;
    assert g in s.bus.subs[PostChannel(s.call.post)];
  }

  lemma OthersAreSpent(s: Feed, g: ChanId)
    requires Inv(s) && s.call.AtStore? && NoReader(s.gens)
    requires !s.bus.closed ==> s.call.post in s.posts && g == s.posts[s.call.post].redis
    requires forall h :: h in s.gens && s.gens[h].post == s.call.post && h != g ==> !Loaded(s.gens, s.bus, h)
    ensures OthersSpent(s.gens, s.bus, s.call.post, g)
  {
    hide Inv;
    forall h | h in s.gens && h != g && s.gens[h].post == s.call.post ensures Spent(s.gens, s.bus, h) {
      OldChannelIsClosed(s, h);
    }
  }

  lemma SoleSource(s: Feed) returns (g: ChanId)
    requires Inv(s) && s.call.AtStore? && NoReader(s.gens) && OneSource(s.gens, s.bus, s.posts, s.call.post)
    ensures g in s.gens && s.gens[g].post == s.call.post && OthersSpent(s.gens, s.bus, s.call.post, g)
  {
    hide Inv, NoReader, OthersSpent;
    EntryAtStore(s);
    g := s.posts[s.call.post].redis;
    if s.bus.closed {
      if h :| h in s.gens && s.gens[h].post == s.call.post && Loaded(s.gens, s.bus, h) {
        g := h;
      }
    }
    OthersAreSpent(s, g);
  }

  lemma OneSourceIsInOrder(s: Feed, conn: Conn)
    requires Inv(s) && Can(s, AcquireStore(conn)) && OneSource(s.gens, s.bus, s.posts, s.call.post)
    ensures AlwaysInOrder(Do(s, AcquireStore(conn)), s.call.ch)
  {
    hide Inv, OneSource, OthersSpent, AlwaysInOrder, Add, Counts;
    var g := SoleSource(s);
    StepKeepsInv(s, AcquireStore(conn));
    OrderedWhenSole(Do(s, AcquireStore(conn)), s.call.ch, g);
  }

  // --- With two sources, the later message can overtake -----------------------------------------------------------

  /** `conn` watches the post through `ch`, and its handler has not received anything yet. */
  ghost predicate Viewer(s: Feed, post: Post, conn: Conn, ch: ChanId, inbox: seq<Payload>) {
    && !s.panicked
    && Has(s.subs, post, conn) && s.subs[post][conn].ch == ch
    && ch in s.events && s.events[ch] == Chan(BUFFER, inbox, false)
    && ch in s.watches && s.watches[ch].received == []
  }

  /** The message a loaded bridge delivers next. */
  function NextMessage(gens: map<ChanId, Gen>, bus: Bus, g: ChanId): Payload
    requires g in gens && Loaded(gens, bus, g)
  {
    if gens[g].phase.Holding? then gens[g].phase.m else Buffered(bus, g)[0].payload
  }

  /** Nothing that concerns bridge `h` has changed. */
  ghost predicate Untouched(s: Feed, r: Feed, h: ChanId) {
    h in s.gens ==> h in r.gens && r.gens[h] == s.gens[h] && Buffered(r.bus, h) == Buffered(s.bus, h)
  }

  lemma Takes(o: Feed, s: Feed, g: ChanId, post: Post, conn: Conn, ch: ChanId, inbox: seq<Payload>) returns (r: Feed)
    requires Reaches(o, s) && Viewer(s, post, conn, ch, inbox)
    requires g in s.gens && s.gens[g].post == post && Loaded(s.gens, s.bus, g)
    ensures Reaches(o, r) && Viewer(r, post, conn, ch, inbox)
    ensures g in r.gens && r.gens[g].post == post && r.gens[g].phase == Holding(NextMessage(s.gens, s.bus, g))
    ensures forall h :: h != g ==> Untouched(s, r, h)
  {
    hide Reaches;
    if s.gens[g].phase.Holding? {
      r := s;
    } else {
      ReachesNext(o, s, BridgeReceive(g));
      r := Do(s, BridgeReceive(g));
    }
  }

  lemma Publishes(o: Feed, s: Feed, g: ChanId, post: Post, conn: Conn, ch: ChanId, inbox: seq<Payload>) returns (r: Feed)
    requires Reaches(o, s) && Viewer(s, post, conn, ch, inbox)
    requires g in s.gens && s.gens[g].post == post && s.gens[g].phase.Holding?
    ensures Reaches(o, r) && Viewer(r, post, conn, ch, inbox)
    ensures g in r.gens && r.gens[g].post == post && r.gens[g].phase.Publishing?
    ensures r.gens[g].phase.m == s.gens[g].phase.m && conn in r.gens[g].phase.todo
    ensures forall h :: h != g ==> Untouched(s, r, h)
  {
    hide Reaches;
    ReachesNext(o, s, BridgePublish(g));
    r := Do(s, BridgePublish(g));
  }

  lemma Sends(o: Feed, s: Feed, g: ChanId, post: Post, conn: Conn, ch: ChanId, inbox: seq<Payload>) returns (r: Feed)
    requires Reaches(o, s) && Viewer(s, post, conn, ch, inbox) && |inbox| < BUFFER
    requires g in s.gens && s.gens[g].post == post && s.gens[g].phase.Publishing? && conn in s.gens[g].phase.todo
    ensures Reaches(o, r) && Viewer(r, post, conn, ch, inbox + [s.gens[g].phase.m])
    ensures forall h :: h != g ==> Untouched(s, r, h)
  {
    hide Reaches;
    ReachesNext(o, s, BridgeSend(g, conn));
    r := Do(s, BridgeSend(g, conn));
  }

  lemma Delivers(o: Feed, s: Feed, g: ChanId, post: Post, conn: Conn, ch: ChanId, inbox: seq<Payload>) returns (r: Feed)
    requires Reaches(o, s) && Viewer(s, post, conn, ch, inbox) && |inbox| < BUFFER
    requires g in s.gens && s.gens[g].post == post && Loaded(s.gens, s.bus, g)
    ensures Reaches(o, r) && Viewer(r, post, conn, ch, inbox + [NextMessage(s.gens, s.bus, g)])
    ensures forall h :: h != g ==> Untouched(s, r, h)
  {
    hide Reaches, Viewer, Loaded, NextMessage;
    var a := Takes(o, s, g, post, conn, ch, inbox);
    var b := Publishes(o, a, g, post, conn, ch, inbox);
    r := Sends(o, b, g, post, conn, ch, inbox);
    forall h | h != g ensures Untouched(s, r, h) {
      assert Untouched(s, a, h) && Untouched(a, b, h) && Untouched(b, r, h);
    }
  }

  /** Two bridges never have the same message next. */
  lemma DifferentMessages(s: Feed, g: ChanId, h: ChanId)
    requires Inv(s) && g in s.gens && h in s.gens && g != h && Loaded(s.gens, s.bus, g) && Loaded(s.gens, s.bus, h)
    ensures NextMessage(s.gens, s.bus, g) != NextMessage(s.gens, s.bus, h)
  {
    hide Inv, Loaded, NextMessage;
    NextWasFanned(s, g);
    NextWasFanned(s, h);
    FannedOnce(s, g, h);
  }

  lemma FannedOnce(s: Feed, g: ChanId, h: ChanId)
    requires Inv(s) && g in s.gens && h in s.gens && g != h
    ensures forall m :: m in Messages(s.gens[g].fanned) ==> m !in Messages(s.gens[h].fanned)
  {
    hide Bus.Valid, HubInv, OwedInv, BusInv, ChanInv, WatchInv, TodoInv, GenInv;
    NoneFannedTwice(s, g, h);
  }

  lemma NextWasFanned(s: Feed, g: ChanId)
    requires Inv(s) && g in s.gens && Loaded(s.gens, s.bus, g)
    ensures NextMessage(s.gens, s.bus, g) in Messages(s.gens[g].fanned)
  {
    hide Inv;
    InChans(s, g);
    var gen, buf := s.gens[g], s.bus.chans[g].buf;
    TakenRises(gen.fanned);
    var taken := gen.published + Held(gen.phase) + Payloads(buf);
    assert taken == Taken(gen.fanned);
    assert taken[|gen.published|] == NextMessage(s.gens, s.bus, g);
    assert NextMessage(s.gens, s.bus, g) in taken;
  }

  /** Two loaded bridges: the one with the later message may deliver first. */
  lemma Overtakes(o: Feed, s: Feed, g: ChanId, h: ChanId, post: Post, conn: Conn, ch: ChanId)
    requires Inv(s) && Reaches(o, s) && Viewer(s, post, conn, ch, [])
    requires g in s.gens && h in s.gens && g != h && s.gens[g].post == post && s.gens[h].post == post
    requires Loaded(s.gens, s.bus, g) && Loaded(s.gens, s.bus, h)
    ensures !AlwaysInOrder(o, ch)
  {
    hide Inv, Reaches, Viewer, Loaded, NextMessage;
    DifferentMessages(s, g, h);
    var later, earlier := g, h;
    if NextMessage(s.gens, s.bus, g) < NextMessage(s.gens, s.bus, h) {
      later, earlier := h, g;
    }
    var big, small := NextMessage(s.gens, s.bus, later), NextMessage(s.gens, s.bus, earlier);
    var m := Delivers(o, s, later, post, conn, ch, []);
    StillLoaded(s, m, earlier);
    var r := Delivers(o, m, earlier, post, conn, ch, [] + [big]);
    assert [] + [big] + [small] == [big, small];
    NotInOrder(r, post, conn, ch, big, small);
  }

  lemma StillLoaded(s: Feed, r: Feed, h: ChanId)
    requires h in s.gens && Loaded(s.gens, s.bus, h) && Untouched(s, r, h)
    ensures h in r.gens && r.gens[h].post == s.gens[h].post && Loaded(r.gens, r.bus, h)
    ensures NextMessage(r.gens, r.bus, h) == NextMessage(s.gens, s.bus, h)
  {
  }

  lemma NotInOrder(r: Feed, post: Post, conn: Conn, ch: ChanId, big: Payload, small: Payload)
    requires Viewer(r, post, conn, ch, [big, small]) && small < big
    ensures !InOrder(r, ch)
  {
    var all := r.watches[ch].received + r.events[ch].buf;
    assert all[0] == big && all[1] == small;
  }

  lemma NewViewer(s: Feed, conn: Conn)
    requires Inv(s) && Can(s, AcquireStore(conn))
    ensures Viewer(Do(s, AcquireStore(conn)), s.call.post, conn, s.call.ch, [])
  {
    hide Bus.Valid, HubInv, OwedInv, BusInv, GenInv, WatchInv, TodoInv, ChannelsValid, NoReader, Counts;
  }

  /** The post's own bridge, if it has nothing to deliver, soon may: the transport's next message goes to it alone. */
  lemma OwnBridgeFills(o: Feed, s: Feed, g: ChanId, h: ChanId, post: Post, conn: Conn, ch: ChanId) returns (r: Feed)
    requires Inv(s) && Reaches(o, s) && Viewer(s, post, conn, ch, []) && !s.bus.closed
    requires g in s.gens && s.gens[g].post == post && s.gens[g].phase.Idle? && !Loaded(s.gens, s.bus, g)
    requires s.bus.List(PostChannel(post)) == [g] && g in s.bus.chans && !s.bus.chans[g].closed
    requires h in s.gens && h != g && s.gens[h].post == post && Loaded(s.gens, s.bus, h)
    ensures Inv(r) && Reaches(o, r) && Viewer(r, post, conn, ch, [])
    ensures g in r.gens && r.gens[g].post == post && Loaded(r.gens, r.bus, g)
    ensures h in r.gens && r.gens[h].post == post && Loaded(r.gens, r.bus, h)
  {
    hide Inv, Reaches, Viewer, Loaded;
    var step := BusFanOut(PostChannel(post));
    NotPanicked(s);
    ReachesNext(o, s, step);
    StepKeepsInv(s, step);
    r := Do(s, step);
    FanOutFills(s, g, h, post, conn, ch);
  }

  lemma NotPanicked(s: Feed)
    requires Inv(s)
    ensures !s.panicked
  {
    hide Bus.Valid, HubInv, OwedInv, BusInv, ChanInv, GenInv, WatchInv, TodoInv;
  }

  lemma RoomForAll(s: Feed, g: ChanId)
    requires Inv(s) && g in s.bus.chans
    ensures s.bus.chans[g].cap == BUFFER
  {
    hide HubInv, OwedInv, BusInv, ChanInv, GenInv, WatchInv, TodoInv, ListsValid;
  }

  lemma FanOutFills(s: Feed, g: ChanId, h: ChanId, post: Post, conn: Conn, ch: ChanId)
    requires Inv(s) && Viewer(s, post, conn, ch, []) && !s.bus.closed
    requires g in s.gens && s.gens[g].post == post && s.gens[g].phase.Idle? && !Loaded(s.gens, s.bus, g)
    requires s.bus.List(PostChannel(post)) == [g] && g in s.bus.chans && !s.bus.chans[g].closed
    requires h in s.gens && h != g && s.gens[h].post == post && Loaded(s.gens, s.bus, h)
    ensures var r := DoFanOut(s, PostChannel(post));
            && Viewer(r, post, conn, ch, [])
            && g in r.gens && r.gens[g].post == post && Loaded(r.gens, r.bus, g)
            && h in r.gens && r.gens[h].post == post && Loaded(r.gens, r.bus, h)
  {
    hide Inv;
    RoomForAll(s, g);
    var targets := Elements(s.bus.List(PostChannel(post)));
    assert g in targets && h !in targets;
  }

  /** The own bridge is there and running, with the bus open. */
  lemma OwnBridgeRuns(s: Feed)
    requires Inv(s) && s.call.AtStore? && NoReader(s.gens) && !s.bus.closed && s.call.post in s.posts
    ensures var g := s.posts[s.call.post].redis;
            g in s.gens && s.gens[g].post == s.call.post && (s.gens[g].phase.Idle? || s.gens[g].phase.Holding?)
  {
    hide Inv;
    EntryAtStore(s);
    OwnChannelIsOpen(s);
    InChans(s, s.posts[s.call.post].redis);
  }

  lemma TwoSourcesOvertake(s: Feed, conn: Conn)
    requires Inv(s) && Can(s, AcquireStore(conn)) && !OneSource(s.gens, s.bus, s.posts, s.call.post)
    ensures !AlwaysInOrder(Do(s, AcquireStore(conn)), s.call.ch)
  {
    hide Inv, Loaded, AlwaysInOrder, Viewer, Reaches, Do;
    var o, post, ch := Do(s, AcquireStore(conn)), s.call.post, s.call.ch;
    RegistrationKeeps(s, conn);
    StepKeepsInv(s, AcquireStore(conn));
    NewViewer(s, conn);
    ReachesItself(o);
    if s.bus.closed {
      var g, h :| g in s.gens && h in s.gens && s.gens[g].post == post && s.gens[h].post == post
                  && Loaded(s.gens, s.bus, g) && Loaded(s.gens, s.bus, h) && g != h;
      Overtakes(o, o, g, h, post, conn, ch);
    } else {
      EntryAtStore(s);
      OwnChannelIsOpen(s);
      OwnBridgeRuns(s);
      var g := s.posts[post].redis;
      var h :| h in s.gens && s.gens[h].post == post && Loaded(s.gens, s.bus, h) && h != g;
      var r := o;
      if !Loaded(s.gens, s.bus, g) {
        HoldingIsLoaded(s.gens, s.bus, g);
        r := OwnBridgeFills(o, o, g, h, post, conn, ch);
      }
      Overtakes(o, r, g, h, post, conn, ch);
    }
  }

  lemma HoldingIsLoaded(gens: map<ChanId, Gen>, bus: Bus, g: ChanId)
    requires g in gens
    ensures gens[g].phase.Holding? ==> Loaded(gens, bus, g)
  {
  }

  lemma RegistrationKeeps(s: Feed, conn: Conn)
    requires Can(s, AcquireStore(conn))
    ensures var r := Do(s, AcquireStore(conn)); r.bus == s.bus && r.gens == s.gens && r.posts == s.posts
  {
    hide DoAcquireStore, NoReader;
  }

  /** In every run, at every registration: the connection's events will stay in order, however the run goes on, if and
      only if no bridge but the post's own has anything left to deliver; or, once the bus is closed, if and only if at
      most one bridge of the post has. */
  lemma OrderedIff(ss: seq<Feed>, steps: seq<Step>, n: nat)
    requires Run(ss, steps) && n < |steps| && steps[n].AcquireStore?
    ensures ss[n].call.AtStore?
    ensures AlwaysInOrder(ss[n + 1], ss[n].call.ch) <==> OneSource(ss[n].gens, ss[n].bus, ss[n].posts, ss[n].call.post)
  {
    hide Inv, Do, OneSource, AlwaysInOrder, NoReader;
    RunKeepsInv(ss, steps);
    if OneSource(ss[n].gens, ss[n].bus, ss[n].posts, ss[n].call.post) {
      OneSourceIsInOrder(ss[n], steps[n].conn);
    } else {
      TwoSourcesOvertake(ss[n], steps[n].conn);
    }
  }
}
