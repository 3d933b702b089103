/** The steps of Release and Close keep the invariant, and none of them panics. */
module FeedReleaseSteps {
  import opened GoChannels
  import opened ChannelNames
  import opened PubSub
  import opened SubscriptionStore
  import opened FeedWiring
  import opened FeedRuns
  import opened FeedInvariant
  import opened FeedAcquireSteps

  lemma BeginReleaseStep(s: Feed, post: Post, conn: Conn)
    requires Inv(s) && s.call.Free? && (post, conn) in s.owed
    ensures Inv(s.(call := Leaving(post, conn), owed := s.owed - {(post, conn)}))
  {
    hide Bus.Valid, Counted, NoEmptyInner, Bridged, Consumed, ChannelsValid, GenInv, WatchInv, TodoInv;
  }

  // --- Leaving the store -------------------------------------------------------------------------------

  lemma HubReleaseStore(s: Feed)
    requires s.call.Leaving? && HubInv(s.posts, s.subs, s.call) && Has(s.subs, s.call.post, s.call.conn)
    ensures s.call.post in s.posts
    ensures var e := s.posts[s.call.post].(refs := s.posts[s.call.post].refs - 1);
            HubInv(s.posts[s.call.post := e], Drop(s.subs, s.call.post, s.call.conn),
                   if e.refs > 0 then Free else Detaching(s.call.post))
  {
    hide Counted, NoEmptyInner, KeysMatch, Drop;
    var post, conn := s.call.post, s.call.conn;
    PostHasEntry(s.posts.Keys, s.subs, post, conn, s.call);
    var e := s.posts[post].(refs := s.posts[post].refs - 1);
    CountedDrop(s.posts, s.subs, post, conn);
    DropShrinks(s.subs, post, conn);
    LastLeaves(s.posts, s.subs, post, conn);
    KeysRelease(s.posts.Keys, s.subs, post, conn, s.call);
    assert s.posts[post := e].Keys == s.posts.Keys;
  }

  lemma PostHasEntry(posts: set<Post>, subs: Subs, post: Post, conn: Conn, call: Call)
    requires KeysMatch(posts, subs.Keys, call) && call.Leaving? && Has(subs, post, conn)
    ensures post in posts
  {
  }

  lemma KeysRelease(posts: set<Post>, subs: Subs, post: Post, conn: Conn, call: Call)
    requires KeysMatch(posts, subs.Keys, call) && call.Leaving? && post in posts
    ensures KeysMatch(posts, Drop(subs, post, conn).Keys, if post in Drop(subs, post, conn) then Free else Detaching(post))
  {
    hide Drop;
    DropKeys(subs, post, conn);
  }

  lemma DropKeys(subs: Subs, post: Post, conn: Conn)
    ensures Drop(subs, post, conn).Keys + {post} == subs.Keys + {post}
    ensures NoEmptyInner(subs) ==> (post in Drop(subs, post, conn) <==> Inner(Drop(subs, post, conn), post) != map[])
  {
  }

  /** The count reaches zero exactly when the post's last connection leaves. */
  lemma LastLeaves(posts: map<Post, PostEntry>, subs: Subs, post: Post, conn: Conn)
    requires Counted(posts, subs, {}) && NoEmptyInner(subs) && post in posts && Has(subs, post, conn)
    ensures posts[post].refs - 1 > 0 <==> post in Drop(subs, post, conn)
  {
    hide Drop;
    DropKeys(subs, post, conn);
    DropShrinks(subs, post, conn);
  }

  lemma BusReleaseStore(s: Feed)
    requires s.call.Leaving? && BusInv(s.posts, s.bus, Ctl(s.gens), s.call) && s.call.post in s.posts
    ensures var e := s.posts[s.call.post].(refs := s.posts[s.call.post].refs - 1);
            && BusInv(s.posts[s.call.post := e], s.bus, Ctl(s.gens), Free)
            && BusInv(s.posts[s.call.post := e], s.bus, Cancel(Ctl(s.gens), e.redis), Detaching(s.call.post))
  {
    hide Bridged, Consumed, Ctl;
    var e := s.posts[s.call.post].(refs := s.posts[s.call.post].refs - 1);
    SameRedis(s.posts, s.posts[s.call.post := e], Ctl(s.gens), s.bus.subs, {}, {});
    BridgedCancel(s.posts[s.call.post := e], Ctl(s.gens), s.call.post, {});
    assert {} + {s.call.post} == {s.call.post};
  }

  lemma ChanReleaseStore(s: Feed, ch: ChanId)
    requires s.call.Leaving? && ChanInv(s.subs, s.events, s.watches, s.call)
    requires Has(s.subs, s.call.post, s.call.conn) && ch == Inner(s.subs, s.call.post)[s.call.conn].ch
    ensures ch in s.watches
    ensures forall call: Call :: call.Free? || call.Detaching? ==>
      ChanInv(Drop(s.subs, s.call.post, s.call.conn), s.events, s.watches[ch := Stop(s.watches[ch], s.gens)], call)
  {
    hide ChannelsValid;
    DropKeepsChannels(s.subs, s.events, OwnerOf(s.watches), s.call.post, s.call.conn);
    OwnedBy(s, ch);
    assert OwnerOf(s.watches[ch := Stop(s.watches[ch], s.gens)]) == OwnerOf(s.watches);
  }

  lemma OwnedBy(s: Feed, ch: ChanId)
    requires s.call.Leaving? && ChanInv(s.subs, s.events, s.watches, s.call)
    requires Has(s.subs, s.call.post, s.call.conn) && ch == Inner(s.subs, s.call.post)[s.call.conn].ch
    ensures ch in s.watches && s.watches[ch].post == s.call.post && s.watches[ch].conn == s.call.conn
  {
    assert OwnerOf(s.watches)[ch] == (s.call.post, s.call.conn);
  }

  /** Removing a connection while no bridge is publishing leaves it with exactly what it was due. */
  lemma StopOk(w: Watch, gens: map<ChanId, Gen>)
    requires OffersOk(w, gens) && NoReader(gens)
    ensures OffersOk(Stop(w, gens), gens)
  {
    hide Of;
  }

  lemma WatchStop(s: Feed, ch: ChanId)
    requires WatchInv(s.watches, s.gens, s.events) && NoReader(s.gens) && ch in s.watches
    ensures WatchInv(s.watches[ch := Stop(s.watches[ch], s.gens)], s.gens, s.events)
  {
    hide OffersOk, Accepted;
    StopOk(s.watches[ch], s.gens);
  }

  lemma OwedReleaseStore(s: Feed, call: Call)
    requires s.call.Leaving? && OwedInv(s.subs, s.call, s.shut, s.owed) && (call.Free? || (call.Detaching? && !s.shut))
    ensures OwedInv(Drop(s.subs, s.call.post, s.call.conn), call, s.shut, s.owed)
  {
  }

  /** After Close, a late Release finds nothing to undo. */
  lemma LateRelease(s: Feed)
    requires Inv(s) && s.call.Leaving? && s.shut
    ensures DoReleaseStore(s) == s.(call := Free) && Inv(DoReleaseStore(s))
  {
    hide Bus.Valid, Counted, NoEmptyInner, Bridged, Consumed, ChannelsValid, GenInv, WatchInv, TodoInv;
    assert s.subs == map[] && s.posts == map[];
  }

  lemma ReleaseStoreStep(s: Feed)
    requires Inv(s) && s.call.Leaving? && NoReader(s.gens)
    ensures Inv(DoReleaseStore(s))
  {
    hide Bus.Valid, HubInv, BusInv, ChanInv, GenInv, WatchInv, TodoInv, NoReader, Drop, CancelGen, Ctl, Stop;
    if s.shut {
      LateRelease(s);
    } else {
      LiveRelease(s);
    }
  }

  lemma LiveRelease(s: Feed)
    requires Inv(s) && s.call.Leaving? && NoReader(s.gens) && Has(s.subs, s.call.post, s.call.conn) && !s.shut
    ensures Inv(DoReleaseStore(s))
  {
    hide Bus.Valid, HubInv, BusInv, ChanInv, GenInv, WatchInv, TodoInv, OwedInv, NoReader, Drop, CancelGen, Ctl, Stop;
    var ch := s.subs[s.call.post][s.call.conn].ch;
    HubReleaseStore(s);
    BusReleaseStore(s);
    ChanReleaseStore(s, ch);
    WatchStop(s, ch);
    OwedReleaseStore(s, Free);
    OwedReleaseStore(s, Detaching(s.call.post));
    TodoNoReader(s.gens, Drop(s.subs, s.call.post, s.call.conn));
    var g := s.posts[s.call.post].redis;
    CancelFrame(s.gens, g, s.bus.chans, s.next);
    WatchFrame(s.watches[ch := Stop(s.watches[ch], s.gens)], s.gens, CancelGen(s.gens, g), s.events);
    TodoFrame(s.gens, CancelGen(s.gens, g), Drop(s.subs, s.call.post, s.call.conn));
  }

  // --- Leaving the bus ---------------------------------------------------------------------------------

  lemma UnsubscribeCells(b: Bus, name: Name, c: ChanId, t: Transport)
    ensures var r := BusUnsubscribe(b, name, c, t).0;
            && r.madeFor == b.madeFor && r.chans.Keys == b.chans.Keys && r.closed == b.closed
            && forall d :: d in b.chans ==> r.chans[d] == b.chans[d] || r.chans[d] == b.chans[d].(closed := true)
  {
  }

  lemma BusReleaseBus(s: Feed, post: Post, t: Transport)
    requires s.call == Detaching(post) && BusInv(s.posts, s.bus, Ctl(s.gens), s.call) && post in s.posts
    ensures BusInv(s.posts - {post}, BusUnsubscribe(s.bus, PostChannel(post), s.posts[post].redis, t).0, Ctl(s.gens), Free)
  {
    hide Bridged, Consumed, Ctl, BusUnsubscribe;
    UnsubscribeCells(s.bus, PostChannel(post), s.posts[post].redis, t);
    BridgedLeave(s.posts, Ctl(s.gens), post);
    if !s.bus.closed {
      ConsumedLeave(s.posts, s.bus, post, {}, t);
      ConsumedForget(s.posts, BusUnsubscribe(s.bus, PostChannel(post), s.posts[post].redis, t).0.subs, post);
    }
  }

  lemma ConsumedForget(posts: map<Post, PostEntry>, lists: map<Name, seq<ChanId>>, post: Post)
    requires Consumed(posts, lists, {} + {post})
    ensures Consumed(posts - {post}, lists, {})
  {
  }

  lemma KeysReleaseBus(posts: set<Post>, subs: set<Post>, post: Post)
    requires KeysMatch(posts, subs, Detaching(post))
    ensures post in posts && KeysMatch(posts - {post}, subs, Free)
  {
  }

  lemma CountedForget(posts: map<Post, PostEntry>, subs: Subs, post: Post)
    requires Counted(posts, subs, {})
    ensures Counted(posts - {post}, subs, {})
  {
  }

  lemma HubReleaseBus(s: Feed, post: Post)
    requires s.call == Detaching(post) && HubInv(s.posts, s.subs, s.call)
    ensures post in s.posts && HubInv(s.posts - {post}, s.subs, Free)
  {
    hide Counted, NoEmptyInner, KeysMatch;
    KeysReleaseBus(s.posts.Keys, s.subs.Keys, post);
    CountedForget(s.posts, s.subs, post);
    assert (s.posts - {post}).Keys == s.posts.Keys - {post};
  }

  lemma ReleaseBusStep(s: Feed, t: Transport)
    requires Inv(s) && s.call.Detaching?
    ensures Inv(DoReleaseBus(s, t))
  {
    hide Bus.Valid, HubInv, BusInv, ChannelsValid, GenInv, WatchInv, TodoInv, UnsubscribePanics, Ctl, BusUnsubscribe;
    var post := s.call.post;
    HubReleaseBus(s, post);
    var redis := s.posts[post].redis;
    NoUnsubscribePanic(s.bus, PostChannel(post), redis);
    UnsubscribeKeepsValid(s.bus, PostChannel(post), redis, t);
    UnsubscribeCells(s.bus, PostChannel(post), redis, t);
    BusReleaseBus(s, post, t);
    GenFrame(s.gens, s.bus.chans, BusUnsubscribe(s.bus, PostChannel(post), redis, t).0.chans, s.next);
  }

  // --- Close -------------------------------------------------------------------------------------------

  lemma BeginCloseStep(s: Feed)
    requires Inv(s) && s.call.Free?
    ensures Inv(s.(call := ClosingBus(s.posts.Keys), shut := true))
  {
    hide Bus.Valid, Counted, NoEmptyInner, Bridged, Consumed, ChannelsValid, GenInv, WatchInv, TodoInv, Ctl;
    assert s.posts.Keys - s.posts.Keys == {};
  }

  lemma BusCloseOne(s: Feed, post: Post, t: Transport)
    requires s.call.ClosingBus? && post in s.call.todo && s.call.todo <= s.posts.Keys
    requires BusInv(s.posts, s.bus, Ctl(s.gens), s.call)
    ensures BusInv(s.posts, BusUnsubscribe(s.bus, PostChannel(post), s.posts[post].redis, t).0,
                   Cancel(Ctl(s.gens), s.posts[post].redis), ClosingBus(s.call.todo - {post}))
  {
    hide Bridged, Consumed, Ctl, BusUnsubscribe;
    var gone := s.posts.Keys - s.call.todo;
    assert s.posts.Keys - (s.call.todo - {post}) == gone + {post};
    UnsubscribeCells(s.bus, PostChannel(post), s.posts[post].redis, t);
    BridgedCancel(s.posts, Ctl(s.gens), post, gone);
    if !s.bus.closed {
      ConsumedLeave(s.posts, s.bus, post, gone, t);
    }
  }

  lemma HubCloseOne(s: Feed, post: Post)
    requires s.call.ClosingBus? && post in s.call.todo && HubInv(s.posts, s.subs, s.call)
    ensures post in s.posts && s.call.todo <= s.posts.Keys
    ensures HubInv(s.posts, s.subs, ClosingBus(s.call.todo - {post}))
  {
    hide Counted, NoEmptyInner;
  }

  lemma CloseOneStep(s: Feed, post: Post, t: Transport)
    requires Inv(s) && s.call.ClosingBus? && post in s.call.todo
    ensures Inv(DoCloseOne(s, post, t))
  {
    hide Bus.Valid, HubInv, BusInv, ChannelsValid, GenInv, WatchInv, TodoInv, UnsubscribePanics, Ctl, BusUnsubscribe,
      CancelGen;
    HubCloseOne(s, post);
    var redis := s.posts[post].redis;
    NoUnsubscribePanic(s.bus, PostChannel(post), redis);
    UnsubscribeKeepsValid(s.bus, PostChannel(post), redis, t);
    UnsubscribeCells(s.bus, PostChannel(post), redis, t);
    BusCloseOne(s, post, t);
    CancelFrame(s.gens, redis, s.bus.chans, s.next);
    GenFrame(CancelGen(s.gens, redis), s.bus.chans, BusUnsubscribe(s.bus, PostChannel(post), redis, t).0.chans, s.next);
    WatchFrame(s.watches, s.gens, CancelGen(s.gens, redis), s.events);
    TodoFrame(s.gens, CancelGen(s.gens, redis), s.subs);
  }

  lemma BusCloseEntries(s: Feed)
    requires s.call.ClosingBus? && s.call.todo == {} && BusInv(s.posts, s.bus, Ctl(s.gens), s.call)
    ensures BusInv(map[], s.bus, Ctl(s.gens), ClosingStore)
  {
    hide Bridged, Consumed, Ctl;
    assert s.posts.Keys - s.call.todo == s.posts.Keys;
    Emptied(s.posts, Ctl(s.gens), s.bus.subs);
  }

  lemma CloseEntriesStep(s: Feed)
    requires Inv(s) && s.call.ClosingBus? && s.call.todo == {}
    ensures Inv(s.(call := ClosingStore, posts := map[]))
  {
    hide Bus.Valid, NoEmptyInner, BusInv, ChannelsValid, GenInv, WatchInv, TodoInv, Ctl;
    BusCloseEntries(s);
  }

  lemma NoStoreClosePanic(s: Feed)
    requires ChanInv(s.subs, s.events, s.watches, s.call)
    ensures !StoreClosePanics(s.subs, s.events)
  {
  }

  lemma ChanCloseStore(s: Feed)
    requires ChanInv(s.subs, s.events, s.watches, s.call)
    ensures ChanInv(map[], CloseAll(s.events, AllTargets(s.subs)), map ch | ch in s.watches :: Stop(s.watches[ch], s.gens), Free)
  {
    hide AllTargets;
  }

  lemma WatchCloseStore(s: Feed, dead: set<ChanId>)
    requires WatchInv(s.watches, s.gens, s.events) && NoReader(s.gens)
    ensures WatchInv(map ch | ch in s.watches :: Stop(s.watches[ch], s.gens), s.gens, CloseAll(s.events, dead))
  {
    hide OffersOk, Accepted, NoReader;
    forall ch | ch in s.watches ensures OffersOk(Stop(s.watches[ch], s.gens), s.gens) {
      StopOk(s.watches[ch], s.gens);
    }
  }

  lemma CloseStoreStep(s: Feed)
    requires Inv(s) && s.call.ClosingStore? && NoReader(s.gens)
    ensures Inv(DoCloseStore(s))
  {
    hide Bus.Valid, Bridged, Consumed, ChanInv, GenInv, WatchInv, TodoInv, Ctl, StoreClosePanics, AllTargets,
      NoReader, Stop;
    NoStoreClosePanic(s);
    ChanCloseStore(s);
    WatchCloseStore(s, AllTargets(s.subs));
    TodoNoReader(s.gens, map[]);
  }
}
