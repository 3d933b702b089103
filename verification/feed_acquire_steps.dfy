/** The steps of Acquire keep the invariant. */
module FeedAcquireSteps {
  import opened GoChannels
  import opened ChannelNames
  import opened PubSub
  import opened SubscriptionStore
  import opened FeedWiring
  import opened FeedRuns
  import opened FeedInvariant

  // --- Steps that leave some part of the state alone ---------------------------------------------------

  /** The bridges differ at most in what was fanned out to them and in their contexts. */
  ghost predicate SameDelivery(a: map<ChanId, Gen>, b: map<ChanId, Gen>) {
    && a.Keys == b.Keys
    && (forall g :: g in a ==> a[g].post == b[g].post && a[g].phase == b[g].phase && a[g].published == b[g].published)
  }

  lemma WatchFrame(watches: map<ChanId, Watch>, a: map<ChanId, Gen>, b: map<ChanId, Gen>, events: Table<Payload>)
    requires WatchInv(watches, a, events) && SameDelivery(a, b)
    ensures WatchInv(watches, b, events)
  {
    forall ch | ch in watches ensures OffersOk(watches[ch], b) {
      assert OffersOk(watches[ch], a);
    }
  }

  lemma TodoFrame(a: map<ChanId, Gen>, b: map<ChanId, Gen>, subs: Subs)
    requires TodoInv(a, subs) && SameDelivery(a, b)
    ensures TodoInv(b, subs)
  {
  }

  lemma CancelOk(gen: Gen, cell: Chan<Message>, next: Payload)
    requires GenOk(gen, cell, next)
    ensures GenOk(gen.(cancelled := true), cell, next)
    ensures GenOk(gen, cell.(closed := true), next)
  {
    hide Taken, Payloads, Held;
  }

  /** Closing channels, or making new ones, does not disturb the first hop. */
  lemma GenFrame(gens: map<ChanId, Gen>, a: Table<Message>, b: Table<Message>, next: Payload)
    requires GenInv(gens, a, next)
    requires forall g :: g in gens && g in a ==> g in b && (b[g] == a[g] || b[g] == a[g].(closed := true))
    ensures GenInv(gens, b, next)
  {
    hide GenOk, Apart;
    forall g | g in gens ensures g in b && GenOk(gens[g], b[g], next) {
      CancelOk(gens[g], a[g], next);
    }
  }

  lemma CancelFrame(gens: map<ChanId, Gen>, g: ChanId, chans: Table<Message>, next: Payload)
    requires GenInv(gens, chans, next)
    ensures GenInv(CancelGen(gens, g), chans, next)
    ensures SameDelivery(gens, CancelGen(gens, g))
    ensures Ctl(CancelGen(gens, g)) == Cancel(Ctl(gens), g)
  {
    hide GenOk, Apart;
    if g in gens {
      CancelOk(gens[g], chans[g], next);
    }
  }

  // --- Acquire -------------------------------------------------------------------------------------------

  lemma KeysBeginAcquire(posts: set<Post>, subs: set<Post>, post: Post, userID: string, ch: ChanId)
    requires KeysMatch(posts, subs, Free)
    ensures KeysMatch(posts, subs, if post in posts then AtStore(post, userID, ch) else AtBus(post, userID, ch))
  {
  }

  lemma HubBeginAcquire(s: Feed, post: Post, userID: string, ch: ChanId)
    requires HubInv(s.posts, s.subs, Free)
    ensures if post in s.posts then HubInv(Entered(s.posts, post, 0), s.subs, AtStore(post, userID, ch))
            else HubInv(s.posts, s.subs, AtBus(post, userID, ch))
  {
    hide Counted, NoEmptyInner, KeysMatch;
    KeysBeginAcquire(s.posts.Keys, s.subs.Keys, post, userID, ch);
    if post in s.posts {
      CountedEnter(s.posts, s.subs, post, 0);
      assert Entered(s.posts, post, 0).Keys == s.posts.Keys;
    }
  }

  lemma BusBeginAcquire(s: Feed, post: Post, call: Call)
    requires BusInv(s.posts, s.bus, Ctl(s.gens), Free) && (call.AtBus? || call.AtStore?)
    ensures BusInv(s.posts, s.bus, Ctl(s.gens), call)
    ensures post in s.posts ==> BusInv(Entered(s.posts, post, 0), s.bus, Ctl(s.gens), call)
  {
    hide Bridged, Consumed;
    if post in s.posts {
      SameRedis(s.posts, Entered(s.posts, post, 0), Ctl(s.gens), s.bus.subs, {}, {});
    }
  }

  lemma ChanBeginAcquire(s: Feed, ch: ChanId, call: Call)
    requires ChanInv(s.subs, s.events, s.watches, Free) && ch !in s.events
    requires call.AtBus? || call.AtStore?
    requires call.ch == ch
    ensures ChanInv(s.subs, s.events[ch := Fresh()], s.watches, call)
  {
    hide ChannelsValid;
    MakeKeepsChannels(s.subs, s.events, OwnerOf(s.watches));
  }

  lemma EventsGrow(s: Feed, ch: ChanId)
    requires WatchInv(s.watches, s.gens, s.events) && ChanInv(s.subs, s.events, s.watches, s.call) && ch !in s.events
    ensures WatchInv(s.watches, s.gens, s.events[ch := Fresh()])
  {
    hide OffersOk, Accepted, ChannelsValid;
  }

  lemma BeginAcquireStep(s: Feed, post: Post, userID: string, ch: ChanId)
    requires Inv(s) && s.call.Free? && !s.shut && ch !in s.events
    ensures Inv(DoBeginAcquire(s, post, userID, ch))
  {
    hide Bus.Valid, HubInv, BusInv, ChanInv, GenInv, WatchInv, TodoInv;
    var call := if post in s.posts then AtStore(post, userID, ch) else AtBus(post, userID, ch);
    HubBeginAcquire(s, post, userID, ch);
    BusBeginAcquire(s, post, call);
    ChanBeginAcquire(s, ch, call);
    EventsGrow(s, ch);
  }

  lemma KeysAcquireBus(posts: set<Post>, subs: set<Post>, call: Call)
    requires call.AtBus? && KeysMatch(posts, subs, call)
    ensures call.post !in subs && KeysMatch(posts, subs, Free)
    ensures KeysMatch(posts + {call.post}, subs, AtStore(call.post, call.userID, call.ch))
  {
  }

  lemma HubAcquireBus(s: Feed, redis: ChanId)
    requires s.call.AtBus? && HubInv(s.posts, s.subs, s.call)
    ensures HubInv(s.posts, s.subs, Free)
    ensures HubInv(Entered(s.posts, s.call.post, redis), s.subs, AtStore(s.call.post, s.call.userID, s.call.ch))
  {
    hide Counted, NoEmptyInner, KeysMatch, Entered;
    KeysAcquireBus(s.posts.Keys, s.subs.Keys, s.call);
    CountedEnter(s.posts, s.subs, s.call.post, redis);
  }

  lemma BusAcquireBus(s: Feed, redis: ChanId, t: Transport)
    requires s.call.AtBus? && redis !in s.bus.chans && BusInv(s.posts, s.bus, Ctl(s.gens), s.call) && s.call.post !in s.posts
    ensures var (b, err) := BusSubscribe(s.bus, PostChannel(s.call.post), redis, t);
            if err.NoError?
            then BusInv(Entered(s.posts, s.call.post, redis), b, Ctl(s.gens)[redis := Bridge(s.call.post, false)],
                        AtStore(s.call.post, s.call.userID, s.call.ch))
            else BusInv(s.posts, b, Ctl(s.gens), Free)
  {
    hide Bridged, Consumed, Ctl;
    if BusSubscribe(s.bus, PostChannel(s.call.post), redis, t).1.NoError? {
      BridgedEnter(s.posts, Ctl(s.gens), s.call.post, redis);
      ConsumedEnter(s.posts, s.bus, s.call.post, redis, t);
    }
  }

  lemma NewGen(s: Feed, redis: ChanId, post: Post)
    requires GenInv(s.gens, s.bus.chans, s.next) && redis !in s.bus.chans
    ensures GenInv(s.gens[redis := Gen(post, false, Idle, [], [])], s.bus.chans[redis := Fresh()], s.next)
    ensures Ctl(s.gens[redis := Gen(post, false, Idle, [], [])]) == Ctl(s.gens)[redis := Bridge(post, false)]
  {
    hide GenOk;
    assert GenOk(Gen(post, false, Idle, [], []), Fresh(), s.next) by { EmptyGenOk(post, s.next); }
  }

  lemma EmptyGenOk(post: Post, next: Payload)
    ensures GenOk(Gen(post, false, Idle, [], []), Fresh(), next)
  {
  }

  lemma {:induction false} OfNone(os: seq<Offer>, g: ChanId)
    requires forall i :: 0 <= i < |os| ==> os[i].gen != g
    ensures Of(os, g) == []
  {
    if os != [] {
      OfNone(os[..|os| - 1], g);
    }
  }

  lemma OffersNewGen(w: Watch, gens: map<ChanId, Gen>, redis: ChanId, post: Post)
    requires OffersOk(w, gens) && redis !in gens
    ensures OffersOk(w, gens[redis := Gen(post, false, Idle, [], [])])
  {
    hide Of;
    OfNone(w.offered, redis);
  }

  lemma WatchNewGen(s: Feed, redis: ChanId, post: Post)
    requires WatchInv(s.watches, s.gens, s.events) && TodoInv(s.gens, s.subs) && redis !in s.gens
    ensures WatchInv(s.watches, s.gens[redis := Gen(post, false, Idle, [], [])], s.events)
    ensures TodoInv(s.gens[redis := Gen(post, false, Idle, [], [])], s.subs)
  {
    hide OffersOk, Accepted;
    forall ch | ch in s.watches ensures OffersOk(s.watches[ch], s.gens[redis := Gen(post, false, Idle, [], [])]) {
      OffersNewGen(s.watches[ch], s.gens, redis, post);
    }
  }

  lemma ChanCall(s: Feed, call: Call)
    requires ChanInv(s.subs, s.events, s.watches, s.call)
    requires s.call.AtBus? && (call == Free || call == AtStore(s.call.post, s.call.userID, s.call.ch))
    ensures ChanInv(s.subs, s.events, s.watches, call)
  {
    hide ChannelsValid;
  }

  lemma BoundGens(s: Feed, redis: ChanId)
    requires GenInv(s.gens, s.bus.chans, s.next) && redis !in s.bus.chans
    ensures redis !in s.gens
  {
    hide GenOk, Apart;
  }

  lemma AcquireBusStep(s: Feed, redis: ChanId, t: Transport)
    requires Inv(s) && s.call.AtBus? && redis !in s.bus.chans
    ensures Inv(DoAcquireBus(s, redis, t))
  {
    hide Bus.Valid, HubInv, BusInv, ChanInv, GenInv, WatchInv, TodoInv, Ctl;
    var post := s.call.post;
    SubscribeKeepsValid(s.bus, PostChannel(post), redis, t);
    HubAcquireBus(s, redis);
    AbsentPost(s);
    BusAcquireBus(s, redis, t);
    BoundGens(s, redis);
    NewGen(s, redis, post);
    WatchNewGen(s, redis, post);
    ChanCall(s, Free);
    ChanCall(s, AtStore(post, s.call.userID, s.call.ch));
  }

  lemma AbsentPost(s: Feed)
    requires HubInv(s.posts, s.subs, s.call) && s.call.AtBus?
    ensures s.call.post !in s.posts
  {
    hide Counted, NoEmptyInner;
  }

  lemma HubAcquireStore(s: Feed, conn: Conn)
    requires s.call.AtStore? && HubInv(s.posts, s.subs, s.call) && !Has(s.subs, s.call.post, conn)
    ensures HubInv(s.posts, Add(s.subs, s.call.post, conn, Subscription(s.call.userID, s.call.ch)), Free)
  {
    hide Counted, NoEmptyInner, KeysMatch, Add;
    CountedAdd(s.posts, s.subs, s.call.post, conn, Subscription(s.call.userID, s.call.ch));
    AddGrows(s.subs, s.call.post, conn, Subscription(s.call.userID, s.call.ch));
    KeysAcquireStore(s.posts.Keys, s.subs.Keys, s.call);
  }

  lemma KeysAcquireStore(posts: set<Post>, subs: set<Post>, call: Call)
    requires call.AtStore? && KeysMatch(posts, subs, call)
    ensures KeysMatch(posts, subs + {call.post}, Free)
  {
  }

  /** A connection ID that no history mentions is not registered. */
  lemma UnknownConn(s: Feed, conn: Conn)
    requires ChanInv(s.subs, s.events, s.watches, s.call)
    requires forall ch :: ch in s.watches ==> s.watches[ch].conn != conn
    ensures forall p :: !Has(s.subs, p, conn)
  {
  }

  lemma ChanAcquireStore(s: Feed, conn: Conn, w: Watch)
    requires s.call.AtStore? && ChanInv(s.subs, s.events, s.watches, s.call)
    requires forall ch :: ch in s.watches ==> s.watches[ch].conn != conn
    requires w.post == s.call.post && w.conn == conn && w.live
    ensures ChanInv(Add(s.subs, s.call.post, conn, Subscription(s.call.userID, s.call.ch)), s.events,
                    s.watches[s.call.ch := w], Free)
  {
    hide ChannelsValid;
    var sub := Subscription(s.call.userID, s.call.ch);
    UnregisteredChan(s);
    AddKeepsChannels(s.subs, s.events, OwnerOf(s.watches), s.call.post, conn, sub);
    assert OwnerOf(s.watches[s.call.ch := w]) == OwnerOf(s.watches)[s.call.ch := (s.call.post, conn)];
  }

  lemma UnregisteredChan(s: Feed)
    requires s.call.AtStore? && ChanInv(s.subs, s.events, s.watches, s.call)
    ensures s.call.ch !in AllTargets(s.subs)
  {
    forall p, c | p in s.subs && c in s.subs[p] ensures s.subs[p][c].ch != s.call.ch {
      assert Has(s.subs, p, c);
    }
  }

  lemma NewWatchOk(s: Feed, post: Post, conn: Conn)
    requires NoReader(s.gens)
    ensures OffersOk(Watch(post, conn, true, Counts(s.gens), map[], [], []), s.gens)
  {
  }

  lemma WatchAcquireStore(s: Feed, post: Post, conn: Conn, ch: ChanId)
    requires WatchInv(s.watches, s.gens, s.events) && NoReader(s.gens)
    requires ch in s.events && s.events[ch].buf == []
    ensures WatchInv(s.watches[ch := Watch(post, conn, true, Counts(s.gens), map[], [], [])], s.gens, s.events)
  {
    hide OffersOk;
    NewWatchOk(s, post, conn);
  }

  lemma OwedAcquireStore(s: Feed, conn: Conn)
    requires s.call.AtStore? && OwedInv(s.subs, s.call, s.shut, s.owed)
    ensures OwedInv(Add(s.subs, s.call.post, conn, Subscription(s.call.userID, s.call.ch)), Free, s.shut,
                    s.owed + {(s.call.post, conn)})
  {
  }

  lemma TodoNoReader(gens: map<ChanId, Gen>, subs: Subs)
    requires NoReader(gens)
    ensures TodoInv(gens, subs)
  {
  }

  lemma EmptyEventChan(s: Feed)
    requires ChanInv(s.subs, s.events, s.watches, s.call) && s.call.AtStore?
    ensures s.call.ch in s.events && s.events[s.call.ch].buf == []
  {
    hide ChannelsValid;
  }

  lemma BusFree(s: Feed)
    requires BusInv(s.posts, s.bus, Ctl(s.gens), s.call) && (s.call.AtStore? || s.call.Leaving?)
    ensures BusInv(s.posts, s.bus, Ctl(s.gens), Free)
  {
    hide Bridged, Consumed, Ctl;
  }

  lemma AcquireStoreStep(s: Feed, conn: Conn)
    requires Inv(s) && s.call.AtStore? && NoReader(s.gens)
    requires forall ch :: ch in s.watches ==> s.watches[ch].conn != conn
    ensures Inv(DoAcquireStore(s, conn))
  {
    hide Bus.Valid, HubInv, BusInv, ChanInv, GenInv, WatchInv, TodoInv, OwedInv, NoReader;
    var post, ch := s.call.post, s.call.ch;
    UnknownConn(s, conn);
    HubAcquireStore(s, conn);
    ChanAcquireStore(s, conn, Watch(post, conn, true, Counts(s.gens), map[], [], []));
    EmptyEventChan(s);
    WatchAcquireStore(s, post, conn, ch);
    OwedAcquireStore(s, conn);
    TodoNoReader(s.gens, DoAcquireStore(s, conn).subs);
    BusFree(s);
  }
}
