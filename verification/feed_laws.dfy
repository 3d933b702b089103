/** What the calls of the feed hub do, told by registrations, entries, consumers and channels. */
module FeedLaws {
  import opened GoChannels
  import opened ChannelNames
  import opened PubSub
  import opened PubSubLaws
  import opened SubscriptionStore
  import opened FeedWiring
  import opened FeedHub

  // --- Acquire -----------------------------------------------------------------------------------------------------

  /** The channel of a post has a consumer on an open bus exactly when the post has an entry. */
  lemma ListedIffEntry(h: HubView, post: Post)
    requires Wired(h) && !h.bus.closed
    ensures PostChannel(post) in h.bus.subs <==> post in h.posts
    ensures post in h.posts ==> h.bus.List(PostChannel(post)) == [h.posts[post].redis]
  {
    hide Bridged, Counted, NoEmptyInner;
  }

  /** Acquire succeeds if and only if the post has viewers already, or the bus is open and the transport agrees. */
  lemma AcquireSucceedsIff(h: HubView, post: Post, userID: string, ch: ChanId, conn: Conn, redis: ChanId, t: Transport)
    requires Wired(h) && h.bus.Valid()
    ensures var err := Acquire(h, post, userID, ch, conn, redis, t).1;
            && (err.NoError? <==> post in h.posts || (!h.bus.closed && t.Ok?))
            && (err.ErrClosed? <==> post !in h.posts && h.bus.closed)
  {
    hide Wired, Bus.Valid, BusSubscribe, Add;
    if !h.bus.closed {
      ListedIffEntry(h, post);
    }
    SubscribeSucceedsIff(h.bus, PostChannel(post), redis, t);
  }

  /** Registrations other than those of `conn` for `post` are as they were. */
  ghost predicate OthersRegistered(a: Subs, b: Subs, post: Post, conn: Conn) {
    forall p, c :: (p, c) != (post, conn) ==>
      (Has(b, p, c) <==> Has(a, p, c)) && (Has(a, p, c) ==> Inner(b, p)[c] == Inner(a, p)[c])
  }

  ghost predicate OtherPostsKept(h: HubView, r: HubView, post: Post) {
    forall p :: p != post ==> (p in r.posts <==> p in h.posts) && (p in h.posts ==> r.posts[p] == h.posts[p])
  }

  ghost predicate OtherBridgesKept(h: HubView, r: HubView, g: ChanId) {
    forall b :: b != g ==> (b in r.bridges <==> b in h.bridges) && (b in h.bridges ==> r.bridges[b] == h.bridges[b])
  }

  /** A successful Acquire registers the connection with its own new channel of capacity 64, and counts it. */
  lemma AcquireMeans(h: HubView, post: Post, userID: string, ch: ChanId, conn: Conn, redis: ChanId, t: Transport)
    requires Acquire(h, post, userID, ch, conn, redis, t).1.NoError? && ch !in h.events
    ensures var r := Acquire(h, post, userID, ch, conn, redis, t).0;
            && Has(r.subs, post, conn) && Inner(r.subs, post)[conn] == Subscription(userID, ch)
            && OthersRegistered(h.subs, r.subs, post, conn)
            && ch in r.events && r.events[ch] == Chan(64, [], false)
            && r.events.Keys == h.events.Keys + {ch} && (forall c :: c in h.events ==> r.events[c] == h.events[c])
            && post in r.posts && r.posts[post].refs == (if post in h.posts then h.posts[post].refs else 0) + 1
            && OtherPostsKept(h, r, post)
  {
    hide BusSubscribe;
  }

  /** A further viewer leaves the bridge and the bus alone. */
  lemma FurtherAcquireMeans(h: HubView, post: Post, userID: string, ch: ChanId, conn: Conn, redis: ChanId, t: Transport)
    requires post in h.posts
    ensures var r := Acquire(h, post, userID, ch, conn, redis, t).0;
            r.posts[post].redis == h.posts[post].redis && r.bridges == h.bridges && r.bus == h.bus
  {
  }

  /** The first viewer gets a new bridge, which reads a new open, empty bus channel, the only consumer of the post. */
  lemma FirstAcquireMeans(h: HubView, post: Post, userID: string, ch: ChanId, conn: Conn, redis: ChanId, t: Transport)
    requires Wired(h) && h.bus.Valid() && post !in h.posts && redis !in h.bus.chans && redis !in h.bridges
    requires Acquire(h, post, userID, ch, conn, redis, t).1.NoError?
    ensures var r := Acquire(h, post, userID, ch, conn, redis, t).0;
            && r.posts[post].redis == redis && redis in r.bridges && r.bridges[redis] == Bridge(post, false)
            && OtherBridgesKept(h, r, redis)
            && r.bus.List(PostChannel(post)) == [redis]
            && redis in r.bus.chans && r.bus.chans[redis] == Chan(64, [], false)
            && OtherNamesKept(h.bus, r.bus, PostChannel(post)) && OtherChannelsKept(h.bus, r.bus, {})
  {
    hide Wired, Bus.Valid, BusSubscribe, Add, Fresh, OtherNamesKept, OtherChannelsKept;
    SubscribeSucceedsIff(h.bus, PostChannel(post), redis, t);
    ListedIffEntry(h, post);
    SubscribeMeans(h.bus, PostChannel(post), redis, t);
    assert h.bus.List(PostChannel(post)) == [];
  }

  // --- Release -----------------------------------------------------------------------------------------------------

  /** Release takes the registration away and one count, and touches no event channel. */
  lemma ReleaseMeans(h: HubView, post: Post, conn: Conn, t: Transport)
    ensures var r := Release(h, post, conn, t);
            && !Has(r.subs, post, conn) && OthersRegistered(h.subs, r.subs, post, conn)
            && r.events == h.events && OtherPostsKept(h, r, post)
            && (post in h.posts && h.posts[post].refs > 1 ==>
                  && post in r.posts && r.posts[post] == PostEntry(h.posts[post].refs - 1, h.posts[post].redis)
                  && r.bus == h.bus && r.bridges == h.bridges)
            && (post in h.posts && h.posts[post].refs <= 1 ==> post !in r.posts)
            && (post !in h.posts ==> r.bus == h.bus && r.posts == h.posts && r.bridges == h.bridges)
  {
    hide BusUnsubscribe;
  }

  /** The last one cancels the post's bridge and no other, and on an open bus closes its channel and no other. */
  lemma LastReleaseMeans(h: HubView, post: Post, conn: Conn, t: Transport)
    requires Wired(h) && h.bus.Valid() && post in h.posts && h.posts[post].refs <= 1
    ensures var r, g := Release(h, post, conn, t), h.posts[post].redis;
            && g in r.bridges && r.bridges[g] == Bridge(post, true) && OtherBridgesKept(h, r, g)
            && (h.bus.closed ==> r.bus == h.bus)
            && (!h.bus.closed ==>
                  && PostChannel(post) !in r.bus.subs && OtherNamesKept(h.bus, r.bus, PostChannel(post))
                  && g in h.bus.chans && g in r.bus.chans && r.bus.chans[g] == Chan(h.bus.chans[g].cap, h.bus.chans[g].buf, true)
                  && OtherChannelsKept(h.bus, r.bus, {g}))
  {
    hide Wired, Bus.Valid, BusUnsubscribe, Drop, OtherNamesKept, OtherChannelsKept;
    var g := h.posts[post].redis;
    OwnBridge(h, post);
    if h.bus.closed {
      IdleUnsubscribeMeans(h.bus, PostChannel(post), g, t);
    } else {
      ListedIffEntry(h, post);
      assert g in h.bus.List(PostChannel(post));
      UnsubscribeMeans(h.bus, PostChannel(post), g, t);
    }
  }

  lemma OwnBridge(h: HubView, post: Post)
    requires Wired(h) && post in h.posts
    ensures h.posts[post].redis in h.bridges && h.bridges[h.posts[post].redis] == Bridge(post, false)
  {
    hide Consumed, Counted, NoEmptyInner;
  }

  // --- Close -------------------------------------------------------------------------------------------------------

  /** Close leaves no entry, no registration and no running bridge; on an open bus it takes every post off it and nothing
      else, and closes the entries' channels and no other. */
  lemma CloseMeans(was: HubView, now: HubView)
    requires Wired(was) && ClosedFrom(was, now)
    ensures now.posts == map[] && now.subs == map[]
    ensures forall g :: g in was.bridges ==> g in now.bridges && now.bridges[g] == Bridge(was.bridges[g].post, true)
    ensures !was.bus.closed ==>
              && (forall p :: PostChannel(p) !in now.bus.subs)
              && (forall r :: now.bus.List(RoomChannel(r)) == was.bus.List(RoomChannel(r)))
              && (forall c :: c in was.bus.chans ==>
                    c in now.bus.chans &&
                    now.bus.chans[c] == if exists p :: p in was.posts && was.posts[p].redis == c
                                        then Chan(was.bus.chans[c].cap, was.bus.chans[c].buf, true) else was.bus.chans[c])
  {
    hide Bridged, Counted, NoEmptyInner;
    if !was.bus.closed {
      forall c ensures c in RedisOf(was.posts, was.posts.Keys) <==> exists p :: p in was.posts && was.posts[p].redis == c {
      }
      forall p ensures PostChannel(p) !in now.bus.subs {
        assert p in was.posts ==> PostChannel(p) in NamesOf(was.posts.Keys);
      }
    }
  }

  /** And every registered event channel is closed, keeping its buffer, and no other. */
  lemma CloseEndsStreams(was: HubView, now: HubView, owner: Owner)
    requires ClosedFrom(was, now) && ChannelsValid(was.subs, was.events, owner)
    ensures forall p, c :: Has(was.subs, p, c) ==>
              var ch := Inner(was.subs, p)[c].ch;
              ch in was.events && ch in now.events && now.events[ch] == Chan(was.events[ch].cap, was.events[ch].buf, true)
    ensures forall ch :: ch in was.events && (forall p :: Unregistered(was.subs, p, ch)) ==>
              ch in now.events && now.events[ch] == was.events[ch]
  {
    hide ChannelsValid, Unregistered, AllTargets;
    SubscriptionStore.CloseMeans(was.subs, was.events, owner);
  }
}
