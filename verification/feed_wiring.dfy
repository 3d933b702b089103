/** The hub of one gateway's home feed as a value: it counts the viewers of each post and keeps one
    bridge from the bus to the store per viewed post. */
module FeedWiring {
  import opened GoChannels
  import opened ChannelNames
  import opened PubSub
  import opened SubscriptionStore

  datatype PostEntry = PostEntry(refs: int, redis: ChanId)

  /** A bridge goroutine's parameters, by the bus channel it reads; `cancelled` is its context. */
  datatype Bridge = Bridge(post: Post, cancelled: bool)

  datatype HubView = HubView(
    bus: Bus,
    posts: map<Post, PostEntry>,
    subs: Subs,
    events: Table<Payload>,
    bridges: map<ChanId, Bridge>
  )

  // --- What the three operations do when nothing interferes --------------------------------------

  function Acquire(h: HubView, post: Post, userID: string, ch: ChanId, conn: Conn, redis: ChanId,
                   t: Transport): (r: (HubView, Error)) {
    var made := h.(events := h.events[ch := Fresh()]);
    if post in h.posts then
      var e := h.posts[post];
      (made.(posts := h.posts[post := e.(refs := e.refs + 1)], subs := Add(h.subs, post, conn, Subscription(userID, ch))), NoError)
    else
      var (bus, err) := BusSubscribe(h.bus, PostChannel(post), redis, t);
      if !err.NoError? then (made.(bus := bus), err) else
        (made.(bus := bus,
               posts := h.posts[post := PostEntry(1, redis)],
               bridges := h.bridges[redis := Bridge(post, false)],
               subs := Add(h.subs, post, conn, Subscription(userID, ch))), NoError)
  }

  function Cancel(bridges: map<ChanId, Bridge>, redis: ChanId): (r: map<ChanId, Bridge>) {
    if redis in bridges then bridges[redis := bridges[redis].(cancelled := true)] else bridges
  }

  function Release(h: HubView, post: Post, conn: Conn, t: Transport): (r: HubView) {
    var dropped := h.(subs := Drop(h.subs, post, conn));
    if post !in h.posts then dropped else
      var e := h.posts[post];
      if e.refs - 1 > 0 then dropped.(posts := h.posts[post := e.(refs := e.refs - 1)]) else
        dropped.(bus := BusUnsubscribe(h.bus, PostChannel(post), e.redis, t).0,
                 posts := h.posts - {post},
                 bridges := Cancel(h.bridges, e.redis))
  }

  // --- The composed invariant --------------------------------------------------------------------

  /** `refs` counts the connections of the post, plus one for a post in `starting`. */
  ghost predicate Counted(posts: map<Post, PostEntry>, subs: Subs, starting: set<Post>) {
    forall p :: p in posts ==> posts[p].refs == |Inner(subs, p)| + (if p in starting then 1 else 0)
  }

  /** Every entry has its own bridge, cancelled only for a post in `leaving`; every other bridge has been
      cancelled. */
  ghost predicate Bridged(posts: map<Post, PostEntry>, bridges: map<ChanId, Bridge>, leaving: set<Post>) {
    && (forall p :: p in posts ==> posts[p].redis in bridges && bridges[posts[p].redis] == Bridge(p, p in leaving))
    && (forall g :: g in bridges && !bridges[g].cancelled ==>
          bridges[g].post in posts && posts[bridges[g].post].redis == g)
  }

  /** The channel of a post has a consumer exactly when the post has an entry and is not in `gone`; the
      consumer is then the entry's own and the only one. */
  ghost predicate Consumed(posts: map<Post, PostEntry>, lists: map<Name, seq<ChanId>>, gone: set<Post>) {
    forall p ::
      if p in posts && p !in gone then PostChannel(p) in lists && lists[PostChannel(p)] == [posts[p].redis]
      else PostChannel(p) !in lists
  }

  /** Hub, store and bus agree when no call is in progress. */
  ghost predicate Wired(h: HubView) {
    && NoEmptyInner(h.subs)
    && h.posts.Keys == h.subs.Keys
    && Counted(h.posts, h.subs, {})
    && Bridged(h.posts, h.bridges, {})
    && (!h.bus.closed ==> Consumed(h.posts, h.bus.subs, {}))
  }

  lemma CountedEnter(posts: map<Post, PostEntry>, subs: Subs, post: Post, redis: ChanId)
    requires Counted(posts, subs, {}) && (post in posts || post !in subs)
    ensures Counted(Entered(posts, post, redis), subs, {post})
  {
  }

  lemma CountedAdd(posts: map<Post, PostEntry>, subs: Subs, post: Post, conn: Conn, sub: Subscription)
    requires Counted(posts, subs, {post}) && !Has(subs, post, conn)
    ensures Counted(posts, Add(subs, post, conn, sub), {})
  {
    AddGrows(subs, post, conn, sub);
  }

  lemma CountedDrop(posts: map<Post, PostEntry>, subs: Subs, post: Post, conn: Conn)
    requires Counted(posts, subs, {}) && NoEmptyInner(subs) && post in posts && Has(subs, post, conn)
    ensures Counted(posts[post := posts[post].(refs := posts[post].refs - 1)], Drop(subs, post, conn), {})
  {
    DropShrinks(subs, post, conn);
  }

  function Entered(posts: map<Post, PostEntry>, post: Post, redis: ChanId): (r: map<Post, PostEntry>)
    ensures r.Keys == posts.Keys + {post}
  {
    posts[post := if post in posts then posts[post].(refs := posts[post].refs + 1) else PostEntry(1, redis)]
  }

  lemma CountedAcquire(posts: map<Post, PostEntry>, subs: Subs, post: Post, conn: Conn, sub: Subscription,
                       redis: ChanId)
    requires posts.Keys == subs.Keys && Counted(posts, subs, {}) && NoEmptyInner(subs) && !Has(subs, post, conn)
    ensures Entered(posts, post, redis).Keys == Add(subs, post, conn, sub).Keys
    ensures Counted(Entered(posts, post, redis), Add(subs, post, conn, sub), {}) && NoEmptyInner(Add(subs, post, conn, sub))
  {
    AddGrows(subs, post, conn, sub);
    CountedEnter(posts, subs, post, redis);
    CountedAdd(Entered(posts, post, redis), subs, post, conn, sub);
  }

  lemma BridgedEnter(posts: map<Post, PostEntry>, bridges: map<ChanId, Bridge>, post: Post, redis: ChanId)
    requires Bridged(posts, bridges, {}) && post !in posts && redis !in bridges
    ensures Bridged(posts[post := PostEntry(1, redis)], bridges[redis := Bridge(post, false)], {})
  {
  }

  lemma BridgedCancel(posts: map<Post, PostEntry>, bridges: map<ChanId, Bridge>, post: Post, leaving: set<Post>)
    requires Bridged(posts, bridges, leaving) && post in posts
    ensures Bridged(posts, Cancel(bridges, posts[post].redis), leaving + {post})
  {
    var after := Cancel(bridges, posts[post].redis);
    assert forall p :: p in posts && p != post ==> posts[p].redis != posts[post].redis;
  }

  lemma BridgedLeave(posts: map<Post, PostEntry>, bridges: map<ChanId, Bridge>, post: Post)
    requires Bridged(posts, bridges, {post})
    ensures Bridged(posts - {post}, bridges, {})
  {
  }

  lemma ConsumedEnter(posts: map<Post, PostEntry>, b: Bus, post: Post, redis: ChanId, t: Transport)
    requires !b.closed && Consumed(posts, b.subs, {}) && post !in posts
    requires BusSubscribe(b, PostChannel(post), redis, t).1.NoError?
    ensures Consumed(posts[post := PostEntry(1, redis)], BusSubscribe(b, PostChannel(post), redis, t).0.subs, {})
  {
    assert forall p :: PostChannel(p) == PostChannel(post) ==> p == post;
  }

  /** Unsubscribing one entry's channel takes exactly that post off the bus. */
  lemma ConsumedLeave(posts: map<Post, PostEntry>, b: Bus, post: Post, gone: set<Post>, t: Transport)
    requires !b.closed && Consumed(posts, b.subs, gone) && post in posts && post !in gone
    ensures var r := BusUnsubscribe(b, PostChannel(post), posts[post].redis, t).0;
            && Consumed(posts, r.subs, gone + {post}) && !r.closed
            && r.subs == b.subs - {PostChannel(post)} && r.chans == CloseAll(b.chans, {posts[post].redis})
  {
    var g := posts[post].redis;
    assert b.List(PostChannel(post)) == [g];
    assert Without([g], g) == [];
    assert forall p :: PostChannel(p) == PostChannel(post) ==> p == post;
  }

  lemma AcquireKeepsWired(h: HubView, post: Post, userID: string, ch: ChanId, conn: Conn, redis: ChanId, t: Transport)
    requires Wired(h) && !Has(h.subs, post, conn) && redis !in h.bridges
    ensures Wired(Acquire(h, post, userID, ch, conn, redis, t).0)
  {
    var (r, err) := Acquire(h, post, userID, ch, conn, redis, t);
    if err.NoError? {
      CountedAcquire(h.posts, h.subs, post, conn, Subscription(userID, ch), redis);
      if post in h.posts {
        SameRedis(h.posts, r.posts, h.bridges, h.bus.subs, {}, {});
      } else {
        FirstAcquire(h, post, redis, t);
      }
    }
  }

  lemma FirstAcquire(h: HubView, post: Post, redis: ChanId, t: Transport)
    requires Wired(h) && post !in h.posts && redis !in h.bridges
    requires BusSubscribe(h.bus, PostChannel(post), redis, t).1.NoError?
    ensures var posts := h.posts[post := PostEntry(1, redis)];
            && Bridged(posts, h.bridges[redis := Bridge(post, false)], {})
            && Consumed(posts, BusSubscribe(h.bus, PostChannel(post), redis, t).0.subs, {})
  {
    BridgedEnter(h.posts, h.bridges, post, redis);
    ConsumedEnter(h.posts, h.bus, post, redis, t);
  }

  /** Bridges and consumers do not depend on the counts. */
  lemma SameRedis(posts: map<Post, PostEntry>, after: map<Post, PostEntry>, bridges: map<ChanId, Bridge>,
                  lists: map<Name, seq<ChanId>>, leaving: set<Post>, gone: set<Post>)
    requires posts.Keys == after.Keys && forall p :: p in posts ==> after[p].redis == posts[p].redis
    ensures Bridged(posts, bridges, leaving) ==> Bridged(after, bridges, leaving)
    ensures Consumed(posts, lists, gone) ==> Consumed(after, lists, gone)
  {
  }

  /** A bus Subscribe that fails leaves the hub's table, its bridges and the store as they were. */
  lemma FailedAcquireChangesNothing(h: HubView, post: Post, userID: string, ch: ChanId, conn: Conn, redis: ChanId,
                                    t: Transport)
    requires ch !in h.events && !Acquire(h, post, userID, ch, conn, redis, t).1.NoError?
    ensures var r := Acquire(h, post, userID, ch, conn, redis, t).0;
            && r.posts == h.posts && r.subs == h.subs && r.bridges == h.bridges
            && r.bus.subs == h.bus.subs && r.bus.chans == h.bus.chans
            && (forall c :: c in h.events ==> c in r.events && r.events[c] == h.events[c])
  {
  }

  /** Release is documented as safe for an unknown connection.  The store does ignore one, but the count
      goes down all the same: the invariant survives exactly when the connection is registered for the
      post, or the post has no entry. */
  lemma ReleaseKeepsWiredIff(h: HubView, post: Post, conn: Conn, t: Transport)
    requires Wired(h)
    ensures Wired(Release(h, post, conn, t)) <==> post !in h.posts || Has(h.subs, post, conn)
  {
    var r := Release(h, post, conn, t);
    if Has(h.subs, post, conn) {
      RegisteredReleaseKeepsWired(h, post, conn, t);
    } else if post in h.posts {
      assert r.subs == h.subs;
      if post in r.posts {
        assert r.posts[post].refs != |Inner(r.subs, post)|;
      }
    }
  }

  lemma RegisteredReleaseKeepsWired(h: HubView, post: Post, conn: Conn, t: Transport)
    requires Wired(h) && Has(h.subs, post, conn)
    ensures Wired(Release(h, post, conn, t))
  {
    DropShrinks(h.subs, post, conn);
    CountedDrop(h.posts, h.subs, post, conn);
    if h.posts[post].refs > 1 {
      var posts := h.posts[post := h.posts[post].(refs := h.posts[post].refs - 1)];
      SameRedis(h.posts, posts, h.bridges, h.bus.subs, {}, {});
      assert posts.Keys == Drop(h.subs, post, conn).Keys;
    } else {
      DetachKeepsMatch(h.posts, h.bridges, h.bus, post, t);
      assert h.posts.Keys - {post} == Drop(h.subs, post, conn).Keys;
      assert Counted(h.posts - {post}, Drop(h.subs, post, conn), {});
    }
  }

  lemma DetachKeepsMatch(posts: map<Post, PostEntry>, bridges: map<ChanId, Bridge>, b: Bus, post: Post, t: Transport)
    requires Bridged(posts, bridges, {}) && post in posts && (!b.closed ==> Consumed(posts, b.subs, {}))
    ensures Bridged(posts - {post}, Cancel(bridges, posts[post].redis), {})
    ensures var bus := BusUnsubscribe(b, PostChannel(post), posts[post].redis, t).0;
            !bus.closed ==> Consumed(posts - {post}, bus.subs, {})
  {
    BridgedCancel(posts, bridges, post, {});
    assert {} + {post} == {post};
    BridgedLeave(posts, Cancel(bridges, posts[post].redis), post);
    if !b.closed {
      ConsumedLeave(posts, b, post, {}, t);
    }
  }

  lemma UnsubscribeShape(b: Bus, name: Name, c: ChanId, t: Transport)
    ensures var r := BusUnsubscribe(b, name, c, t).0;
            r.closed == b.closed && r.chans.Keys == b.chans.Keys && (b.closed ==> r == b)
  {
  }

  /** Once every entry is off the bus, the empty table matches as well. */
  lemma Emptied(posts: map<Post, PostEntry>, bridges: map<ChanId, Bridge>, lists: map<Name, seq<ChanId>>)
    requires Bridged(posts, bridges, posts.Keys)
    ensures forall g :: g in bridges ==> bridges[g].cancelled
    ensures Bridged(map[], bridges, {})
    ensures Consumed(posts, lists, posts.Keys) ==> Consumed(map[], lists, {})
  {
  }
}
