/** The steps of an undisturbed Close add up to the hub's Close. */
module FeedCloseAlone {
  import opened GoChannels
  import opened PubSub
  import opened SubscriptionStore
  import opened FeedWiring
  import opened FeedRuns
  import opened FeedInvariant
  import opened FeedReleaseSteps
  import opened FeedTheorems
  import opened FeedHub

  /** The turns of Close's loop, in the order in which it comes to the posts. */
  ghost function CloseEach(s: Feed, order: seq<Post>, outcome: Post -> Transport): Feed
    requires s.call.ClosingBus?
    decreases |order|
  {
    if order == [] then s else CloseEach(DoCloseOne(s, order[0], outcome(order[0])), order[1..], outcome)
  }

  ghost function CloseSteps(s: Feed, order: seq<Post>, outcome: Post -> Transport): Feed {
    var looped := CloseEach(s.(call := ClosingBus(s.posts.Keys), shut := true), order, outcome);
    DoCloseStore(looped.(call := ClosingStore, posts := map[]))
  }

  lemma OneTurn(was: HubView, s: Feed, done: set<Post>, post: Post, t: Transport)
    requires Inv(s) && s.call.ClosingBus? && post in s.call.todo && post in s.posts && post !in done
    requires Detached(was, View(s), done)
    ensures var r := DoCloseOne(s, post, t);
            && Inv(r) && r.call == ClosingBus(s.call.todo - {post}) && r.posts == s.posts && r.subs == s.subs
            && Detached(was, View(r), done + {post})
  {
    hide Inv, Detached, BusUnsubscribe, UnsubscribePanics, Ctl, CancelGen, Cancel;
    BusIsValid(s);
    StepKeepsInv(s, CloseOne(post, t));
    NoUnsubscribePanic(s.bus, ChannelNames.PostChannel(post), s.posts[post].redis);
    CancelGenCtl(s.gens, s.posts[post].redis);
    DetachStep(was, View(s), done, post, t);
  }

  lemma BusIsValid(s: Feed)
    requires Inv(s)
    ensures s.bus.Valid() && !s.panicked
  {
    hide Bus.Valid, HubInv, OwedInv, BusInv, ChanInv, GenInv, WatchInv, TodoInv;
  }

  ghost predicate Lists(order: seq<Post>, posts: set<Post>) {
    (forall p :: p in order <==> p in posts) && Distinct(order)
  }

  lemma {:induction false} AllTurns(was: HubView, s: Feed, done: set<Post>, order: seq<Post>, outcome: Post -> Transport)
    requires Inv(s) && s.call.ClosingBus? && Detached(was, View(s), done)
    requires Lists(order, s.call.todo) && s.call.todo <= s.posts.Keys && s.call.todo !! done
    ensures var r := CloseEach(s, order, outcome);
            && Inv(r) && r.call == ClosingBus({}) && r.posts == s.posts && r.subs == s.subs
            && Detached(was, View(r), done + s.call.todo)
    decreases |order|
  {
    hide Inv, Detached, DoCloseOne, View;
    if order == [] {
      assert s.call.todo == {};
      assert done + {} == done;
    } else {
      var post := order[0];
      OneTurn(was, s, done, post, outcome(post));
      Rest(order, s.call.todo);
      var next := DoCloseOne(s, post, outcome(post));
      AllTurns(was, next, done + {post}, order[1..], outcome);
      assert done + {post} + (s.call.todo - {post}) == done + s.call.todo;
    }
  }

  lemma Rest(order: seq<Post>, posts: set<Post>)
    requires order != [] && Lists(order, posts)
    ensures Lists(order[1..], posts - {order[0]}) && order[0] in posts
  {
    assert forall p :: p in order <==> p == order[0] || p in order[1..];
  }

  lemma NothingDetached(s: Feed)
    requires Inv(s) && s.call.Free?
    ensures Detached(View(s), View(s.(call := ClosingBus(s.posts.Keys), shut := true)), {})
  {
    hide Bus.Valid, ChanInv, GenInv, WatchInv, TodoInv, OwedInv, Bridged, Consumed, Counted, NoEmptyInner;
    assert s.bus.subs - NamesOf({}) == s.bus.subs;
    assert CloseAll(s.bus.chans, RedisOf(s.posts, {})) == s.bus.chans;
  }

  lemma AllDetached(was: HubView, s: Feed)
    requires Detached(was, View(s), was.posts.Keys) && s.posts == was.posts
    ensures forall g :: g in s.gens ==> g in was.bridges && s.gens[g].cancelled && s.gens[g].post == was.bridges[g].post
  {
    hide Consumed;
    assert forall g :: g in s.gens ==> View(s).bridges[g] == Bridge(s.gens[g].post, s.gens[g].cancelled);
  }

  lemma CloseAlone(s: Feed, order: seq<Post>, outcome: Post -> Transport)
    requires Inv(s) && s.call.Free? && Lists(order, s.posts.Keys)
    ensures var r := CloseSteps(s, order, outcome);
            r.call.Free? && !r.panicked && ClosedFrom(View(s), View(r))
  {
    hide Inv, Detached, Lists, CloseEach, StoreClosePanics;
    BusIsValid(s);
    StepKeepsInv(s, BeginClose);
    NothingDetached(s);
    var begun := s.(call := ClosingBus(s.posts.Keys), shut := true);
    AllTurns(View(s), begun, {}, order, outcome);
    assert {} + s.posts.Keys == s.posts.Keys;
    var looped := CloseEach(begun, order, outcome);
    BusIsValid(looped);
    StepKeepsInv(looped, CloseEntries);
    AllDetached(View(s), looped);
    Finish(s, looped);
  }

  lemma StoreClosesWell(s: Feed)
    requires Inv(s)
    ensures !StoreClosePanics(s.subs, s.events)
  {
    hide Bus.Valid, HubInv, OwedInv, BusInv, ChanInv, GenInv, WatchInv, TodoInv, StoreClosePanics;
    NoStoreClosePanic(s);
  }

  lemma Finish(s: Feed, looped: Feed)
    requires Inv(looped.(call := ClosingStore, posts := map[])) && Detached(View(s), View(looped), s.posts.Keys)
    requires looped.subs == s.subs
    requires forall g :: g in looped.gens ==> g in s.gens && looped.gens[g].cancelled && looped.gens[g].post == s.gens[g].post
    ensures var r := DoCloseStore(looped.(call := ClosingStore, posts := map[]));
            r.call.Free? && !r.panicked && ClosedFrom(View(s), View(r))
  {
    hide Inv, Bridged, Consumed, StoreClosePanics;
    StoreClosesWell(looped.(call := ClosingStore, posts := map[]));
    BusIsValid(looped.(call := ClosingStore, posts := map[]));
  }
}
