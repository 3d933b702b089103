/** The feed hub itself, over a bus and a store that it shares with other goroutines. */
module FeedHub {
  import opened GoChannels
  import opened Maps
  import opened ChannelNames
  import opened PubSub
  import opened SubscriptionStore
  import opened RedisBus
  import opened FeedWiring

  /** What one iteration of a bridge's select loop did. */
  datatype Turn = Stopped | Forwarded(ev: Payload) | Waiting

  class Hub {
    const bus: RedisPubSub
    const store: Store
    var posts: map<Post, PostEntry>
    var bridges: map<ChanId, Bridge>

    ghost function View(): HubView
      reads this, bus, bus.heap, store, store.heap
    {
      HubView(bus.View(), posts, store.subs, store.heap.cells, bridges)
    }

    /** What every call keeps, paired or not: entries, bridges and consumers match.  That the counts
        match the store as well (Wired) takes calls that are paired. */
    ghost predicate Valid()
      reads this, bus, bus.heap, store, store.heap
    {
      && bus.Valid() && store.Valid() && bus.heap as object != store.heap
      && bridges.Keys <= bus.heap.cells.Keys
      && Bridged(posts, bridges, {})
      && (!bus.closed ==> Consumed(posts, bus.subs, {}))
    }

    constructor (bus: RedisPubSub, store: Store)
      requires bus.Valid() && store.Valid() && bus.heap as object != store.heap
      requires forall p :: PostChannel(p) !in bus.subs
      ensures Valid() && this.bus == bus && this.store == store
      ensures posts == map[] && bridges == map[]
    {
      this.bus, this.store := bus, store;
      posts, bridges := map[], map[];
    }

    method Acquire(post: Post, userID: string, uuid: Conn, t: Transport)
      returns (ch: ChanId, connID: Conn, err: Error, ghost redis: ChanId)
      requires Valid()
      modifies this, bus, bus.heap, store, store.heap
      ensures Valid()
      ensures (View(), err) == FeedWiring.Acquire(old(View()), post, userID, ch, uuid, redis, t)
      ensures ch !in old(store.heap.cells) && redis !in old(bus.heap.cells)
      ensures err.NoError? ==> connID == uuid
    {
      hide Bus.Valid, ChannelsValid, Bridged, Consumed, BusSubscribe, Add, NoEmptyInner;
      TargetsExist(store.subs, store.heap.cells, store.owner);
      MakeKeepsChannels(store.subs, store.heap.cells, store.owner);
      ch := store.heap.Make();
      connID := "";
      err, redis := Enter(post, t);
      if err.NoError? {
        var first;
        connID, first := store.Subscribe(post, userID, ch, uuid);
      }
    }

    /** The lookup: the post's entry, made first if there is none, with one more reference. */
    method Enter(post: Post, t: Transport) returns (err: Error, ghost redis: ChanId)
      requires Valid()
      modifies `posts, `bridges, bus, bus.heap
      ensures Valid() && redis !in old(bridges) && redis !in old(bus.heap.cells)
      ensures post in old(posts) ==> err.NoError? && bus.View() == old(bus.View()) && bridges == old(bridges)
      ensures post !in old(posts) ==>
                && (bus.View(), err) == BusSubscribe(old(bus.View()), PostChannel(post), redis, t)
                && bridges == if err.NoError? then old(bridges)[redis := Bridge(post, false)] else old(bridges)
      ensures posts == if err.NoError? then Entered(old(posts), post, redis) else old(posts)
    {
      hide Bus.Valid, ChannelsValid, Bridged, Consumed, BusSubscribe, NoEmptyInner;
      ghost var before := posts;
      err, redis := NoError, bus.heap.next;
      if post !in posts {
        err, redis := Attach(post, t);
        if !err.NoError? {
          return;
        }
        OverwriteTwice(before, post, PostEntry(0, redis), PostEntry(1, redis));
      }
      Count(post, 1);
    }

    /** The part of Acquire for a post without an entry. */
    method Attach(post: Post, t: Transport) returns (err: Error, ghost redis: ChanId)
      requires Valid() && post !in posts
      modifies `posts, `bridges, bus, bus.heap
      ensures Valid() && redis !in old(bridges) && redis !in old(bus.heap.cells)
      ensures (bus.View(), err) == BusSubscribe(old(bus.View()), PostChannel(post), redis, t)
      ensures posts == if err.NoError? then old(posts)[post := PostEntry(0, redis)] else old(posts)
      ensures bridges == if err.NoError? then old(bridges)[redis := Bridge(post, false)] else old(bridges)
    {
      hide Bus.Valid, Bridged, Consumed;
      ghost var was := bus.View();
      var redisCh;
      redisCh, err := bus.Subscribe(PostChannel(post), t);
      redis := redisCh;
      if err.NoError? {
        BridgedEnter(posts, bridges, post, redis);
        ConsumedEnter(posts, was, post, redis, t);
        SameRedis(posts[post := PostEntry(1, redis)], posts[post := PostEntry(0, redis)],
                  bridges[redis := Bridge(post, false)], bus.subs, {}, {});
        posts := posts[post := PostEntry(0, redisCh)];
        bridges := bridges[redisCh := Bridge(post, false)];
      } else {
        redis := bus.heap.next;
      }
    }

    method Count(post: Post, delta: int)
      requires Valid() && post in posts
      modifies `posts
      ensures Valid()
      ensures posts == old(posts)[post := old(posts)[post].(refs := old(posts)[post].refs + delta)]
    {
      hide Bus.Valid, ChannelsValid, Bridged, Consumed;
      var entry := posts[post].(refs := posts[post].refs + delta);
      SameRedis(posts, posts[post := entry], bridges, bus.subs, {}, {});
      posts := posts[post := entry];
    }

    method Release(post: Post, userID: string, connID: Conn, t: Transport)
      requires Valid()
      modifies this, bus, bus.heap, store
      ensures Valid()
      ensures View() == FeedWiring.Release(old(View()), post, connID, t)
    {
      hide Bus.Valid, ChannelsValid, Bridged, Consumed, BusUnsubscribe, Drop, NoEmptyInner;
      var last := store.Unsubscribe(post, userID, connID);
      if post !in posts {
        return;
      }
      OverwriteThenDrop(posts, post, posts[post].(refs := posts[post].refs - 1));
      Count(post, -1);
      if posts[post].refs > 0 {
        return;
      }
      Detach(post, t);
    }

    /** The part of Release that follows when the count has reached zero. */
    method Detach(post: Post, t: Transport)
      requires Valid() && post in posts
      modifies `posts, `bridges, bus, bus.heap
      ensures Valid()
      ensures bus.View() == BusUnsubscribe(old(bus.View()), PostChannel(post), old(posts)[post].redis, t).0
      ensures posts == old(posts) - {post} && bridges == Cancel(old(bridges), old(posts)[post].redis)
    {
      hide Bus.Valid, Bridged, Consumed, BusUnsubscribe;
      var entry := posts[post];
      DetachKeepsMatch(posts, bridges, bus.View(), post, t);
      UnsubscribeShape(bus.View(), PostChannel(post), entry.redis, t);
      bridges := Cancel(bridges, entry.redis);
      var err := bus.Unsubscribe(PostChannel(post), entry.redis, t);
      posts := posts - {post};
    }

    /** One iteration of a bridge.  `preferDone` is the choice select makes when the context has been
        cancelled and a message is waiting as well. */
    method BridgeTurn(redis: ChanId, preferDone: bool) returns (turn: Turn)
      requires Valid() && redis in bridges
      modifies bus.heap, store.heap
      ensures Valid()
      ensures turn.Forwarded? <==> old(bus.heap.cells)[redis].buf != [] && !(bridges[redis].cancelled && preferDone)
      ensures turn.Forwarded? ==>
                && turn.ev == old(bus.heap.cells)[redis].buf[0].payload
                && bus.View() == BusReceive(old(bus.View()), redis)
                && store.heap.cells == OfferAll(old(store.heap.cells), Targets(store.subs, bridges[redis].post), turn.ev)
      ensures !turn.Forwarded? ==> View() == old(View())
      ensures turn.Stopped? <==> !turn.Forwarded? && (bridges[redis].cancelled || old(bus.heap.cells)[redis].closed)
    {
      if bridges[redis].cancelled && preferDone {
        return Stopped;
      }
      var r := bus.Receive(redis);
      match r
      case Value(m) =>
        store.Publish(bridges[redis].post, m.payload);
        turn := Forwarded(m.payload);
      case Drained =>
        turn := Stopped;
      case Blocked =>
        turn := if bridges[redis].cancelled then Stopped else Waiting;
    }

    method Close(outcome: Post -> Transport)
      requires Valid()
      modifies this, bus, bus.heap, store, store.heap
      ensures Valid() && ClosedFrom(old(View()), View())
    {
      hide Bus.Valid, ChannelsValid, Bridged, Consumed, NoEmptyInner;
      ghost var was := View();
      DetachAll(outcome);
      Emptied(posts, bridges, bus.subs);
      posts := map[];
      store.Close();
    }

    /** Close's loop. */
    method DetachAll(outcome: Post -> Transport)
      requires Valid()
      modifies `bridges, bus, bus.heap
      ensures bus.Valid() && Detached(old(View()), View(), posts.Keys)
    {
      hide Bus.Valid, ChannelsValid, Bridged, Consumed, NoEmptyInner;
      ghost var was := View();
      var todo := posts.Keys;
      ghost var done: set<Post> := {};
      assert CloseAll(was.bus.chans, RedisOf(posts, done)) == was.bus.chans;
      while todo != {}
        invariant done !! todo && done + todo == posts.Keys
        invariant bus.Valid() && Detached(was, View(), done)
      {
        var post :| post in todo;
        DetachOne(was, done, post, outcome(post));
        todo, done := todo - {post}, done + {post};
      }
      assert done == posts.Keys;
    }

    /** One turn of Close's loop. */
    method DetachOne(ghost was: HubView, ghost done: set<Post>, post: Post, t: Transport)
      requires bus.Valid() && bus.heap as object != store.heap
      requires Detached(was, View(), done) && post in posts && post !in done
      modifies `bridges, bus, bus.heap
      ensures bus.Valid() && Detached(was, View(), done + {post})
    {
      hide Bus.Valid, Detached, BusUnsubscribe;
      var entry := posts[post];
      DetachStep(was, View(), done, post, t);
      bridges := Cancel(bridges, entry.redis);
      var err := bus.Unsubscribe(PostChannel(post), entry.redis, t);
    }
  }

  /** Close, before and after: every bridge is cancelled, exactly the entries' channels are closed and off the bus, both
      tables are empty, and every event channel is closed. */
  ghost predicate ClosedFrom(was: HubView, now: HubView) {
    && now.posts == map[] && now.subs == map[]
    && now.events == CloseAll(was.events, AllTargets(was.subs))
    && now.bridges.Keys == was.bridges.Keys
    && (forall g :: g in now.bridges ==> now.bridges[g] == Bridge(was.bridges[g].post, true))
    && (was.bus.closed ==> now.bus == was.bus)
    && (!was.bus.closed ==>
          && now.bus.subs == was.bus.subs - NamesOf(was.posts.Keys)
          && now.bus.chans == CloseAll(was.bus.chans, RedisOf(was.posts, was.posts.Keys)))
  }

  /** Midway through Close: the entries in `done` are off the bus and their bridges cancelled. */
  ghost predicate Detached(was: HubView, now: HubView, done: set<Post>) {
    && now.posts == was.posts && done <= now.posts.Keys && now.subs == was.subs && now.events == was.events
    && now.bridges.Keys == was.bridges.Keys <= now.bus.chans.Keys
    && (forall g :: g in now.bridges ==> now.bridges[g].post == was.bridges[g].post)
    && Bridged(now.posts, now.bridges, done)
    && now.bus.closed == was.bus.closed
    && (now.bus.closed ==> now.bus == was.bus)
    && (!now.bus.closed ==>
          && Consumed(now.posts, now.bus.subs, done)
          && now.bus.subs == was.bus.subs - NamesOf(done)
          && now.bus.chans == CloseAll(was.bus.chans, RedisOf(now.posts, done)))
  }

  lemma DetachStep(was: HubView, now: HubView, done: set<Post>, post: Post, t: Transport)
    requires Detached(was, now, done) && post in now.posts && post !in done
    ensures var g := now.posts[post].redis;
            Detached(was, now.(bridges := Cancel(now.bridges, g),
                               bus := BusUnsubscribe(now.bus, PostChannel(post), g, t).0), done + {post})
  {
    hide Bridged, Consumed, BusUnsubscribe, RedisOf, NamesOf, CloseAll;
    var g := now.posts[post].redis;
    BridgedCancel(now.posts, now.bridges, post, done);
    UnsubscribeShape(now.bus, PostChannel(post), g, t);
    if !now.bus.closed {
      ConsumedLeave(now.posts, now.bus, post, done, t);
      CloseMore(was.bus.chans, RedisOf(now.posts, done), {g});
      OneMoreDetached(now.posts, done, post);
      NamesAway(was.bus.subs, done, post);
    }
  }

  lemma OneMoreDetached(posts: map<Post, PostEntry>, done: set<Post>, post: Post)
    requires post in posts
    ensures RedisOf(posts, done + {post}) == RedisOf(posts, done) + {posts[post].redis}
    ensures NamesOf(done + {post}) == NamesOf(done) + {PostChannel(post)}
  {
  }

  lemma NamesAway(lists: map<Name, seq<ChanId>>, done: set<Post>, post: Post)
    ensures lists - NamesOf(done) - {PostChannel(post)} == lists - (NamesOf(done) + {PostChannel(post)})
  {
  }

  ghost function RedisOf(posts: map<Post, PostEntry>, which: set<Post>): set<ChanId> {
    set p | p in which && p in posts :: posts[p].redis
  }

  ghost function NamesOf(which: set<Post>): set<Name> {
    set p | p in which :: PostChannel(p)
  }
}
