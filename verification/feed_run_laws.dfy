/** What the first hop does inside the runs. */
module FeedRunLaws {
  import opened GoChannels
  import opened ChannelNames
  import opened PubSub
  import opened PubSubLaws
  import opened SubscriptionStore
  import opened FeedWiring
  import opened FeedRuns
  import opened FeedInvariant
  import opened FeedTheorems

  /** Bridge `g` has been sent `m`: last in its buffer if there was room. */
  ghost predicate GotMessage(s: Feed, r: Feed, g: ChanId, m: Message) {
    && g in s.gens && g in r.gens && g in s.bus.chans && g in r.bus.chans
    && r.gens[g].fanned == s.gens[g].fanned + [Fan(m.payload, |s.bus.chans[g].buf| < 64)]
    && r.bus.chans[g].buf == (if |s.bus.chans[g].buf| < 64 then s.bus.chans[g].buf + [m] else s.bus.chans[g].buf)
  }

  ghost predicate OthersGotNothing(s: Feed, r: Feed, g: ChanId) {
    && (forall h :: h in s.gens && h != g ==> h in r.gens && r.gens[h] == s.gens[h])
    && (forall c :: c in s.bus.chans && c != g ==> c in r.bus.chans && r.bus.chans[c] == s.bus.chans[c])
  }

  /** While the bus is open, the next message for a post is fanned out to the post's bridge, which has it last in its buffer
      if there was room; no other bridge gets anything. */
  lemma FanOutReachesBridge(s: Feed, post: Post, g: ChanId)
    requires Inv(s) && !s.bus.closed && post in s.posts && s.posts[post].redis == g && PostChannel(post) in s.bus.subs
    ensures var r := DoFanOut(s, PostChannel(post));
            && !r.panicked && r.next == s.next + 1
            && GotMessage(s, r, g, Message(PostChannel(post), s.next)) && OthersGotNothing(s, r, g)
  {
    hide Inv, FanOutPanics, PubSub.FanOut;
    Calm(s);
    BusIsValid(s);
    NoFanOutPanic(s.bus, PostChannel(post));
    OnlyConsumer(s, post, g);
    Capacity(s, g);
    FanOutMeans(s.bus, Message(PostChannel(post), s.next));
  }

  lemma BusIsValid(s: Feed)
    requires Inv(s)
    ensures s.bus.Valid()
  {
    hide Bus.Valid, HubInv, OwedInv, BusInv, ChanInv, GenInv, WatchInv, TodoInv;
  }

  lemma OnlyConsumer(s: Feed, post: Post, g: ChanId)
    requires Inv(s) && !s.bus.closed && post in s.posts && s.posts[post].redis == g && PostChannel(post) in s.bus.subs
    ensures s.bus.List(PostChannel(post)) == [g] && Elements(s.bus.List(PostChannel(post))) == {g}
    ensures g in s.gens && g in s.bus.chans
  {
    hide Bus.Valid, HubInv, OwedInv, ChanInv, GenInv, WatchInv, TodoInv;
    assert g in Ctl(s.gens);
  }

  lemma Capacity(s: Feed, g: ChanId)
    requires Inv(s) && g in s.bus.chans
    ensures s.bus.chans[g].cap == 64
  {
    hide HubInv, OwedInv, BusInv, ChanInv, GenInv, WatchInv, TodoInv, ListsValid;
  }

  /** The first viewer's visit to the bus succeeds if and only if the bus is open and the transport agrees. */
  lemma AttachSucceedsIff(s: Feed, redis: ChanId, t: Transport)
    requires Inv(s) && Can(s, AcquireBus(redis, t))
    ensures Do(s, AcquireBus(redis, t)).call.AtStore? <==> !s.bus.closed && t.Ok?
    ensures Do(s, AcquireBus(redis, t)).call.Free? <==> s.bus.closed || t.Failed?
  {
    hide Bus.Valid, OwedInv, ChanInv, GenInv, WatchInv, TodoInv, Counted, NoEmptyInner, Bridged, BusSubscribe;
    SubscribeSucceedsIff(s.bus, PostChannel(s.call.post), redis, t);
  }
}
