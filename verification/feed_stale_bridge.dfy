/**
 A run in which a connection receives two events in the wrong order.

 The only viewer of a post leaves while a message is still buffered for the post's bridge.  The bridge is
 cancelled and its channel closed, but select may still choose the receive.  A new viewer arrives, a new
 bridge is started and delivers the next message; then the old bridge delivers the earlier one.
 */
module FeedStaleBridge {
  import opened GoChannels
  import opened ChannelNames
  import opened PubSub
  import opened SubscriptionStore
  import opened FeedWiring
  import opened FeedRuns
  import opened FeedInvariant
  import FeedTheorems

  const P: Post := "p"
  const NAME: Name := PostChannel(P)

  ghost predicate Reachable(s: Feed) {
    Reaches(INIT, s)
  }

  lemma InitReachable()
    ensures Reachable(INIT)
  {
    ReachesItself(INIT);
  }

  lemma Next(s: Feed, step: Step)
    requires Reachable(s) && Can(s, step)
    ensures Reachable(Do(s, step))
  {
    ReachesNext(INIT, s, step);
  }

  /** The hub and the bus are open and nothing has gone wrong. */
  ghost predicate Open(s: Feed) {
    !s.panicked && !s.shut && !s.bus.closed
  }

  /** One viewer is arriving: nothing is listed for the post yet. */
  ghost predicate Arriving(s: Feed, ch: ChanId) {
    && Open(s) && s.call == AtBus(P, "u", ch) && P !in s.posts && s.bus.List(NAME) == []
    && Inner(s.subs, P) == map[] && ch in s.events && s.events[ch] == Fresh()
  }

  /** The post is bridged by 0, whose channel holds `buf`. */
  ghost predicate First(s: Feed, call: Call, refs: int, viewers: set<Conn>, buf: seq<Message>) {
    && Open(s) && s.call == call
    && P in s.posts && s.posts[P] == PostEntry(refs, 0)
    && s.bus.List(NAME) == [0] && s.bus.chans.Keys == {0} && s.bus.chans[0] == Chan(BUFFER, buf, false)
    && s.next == |buf|
    && s.gens.Keys == {0} && s.gens[0].post == P && s.gens[0].phase == Idle
    && Inner(s.subs, P).Keys == viewers
    && s.events.Keys == {0} && s.watches.Keys <= {0} && (0 in s.watches ==> s.watches[0].conn == "a")
    && (viewers == {"a"} && call.Free? ==> (P, "a") in s.owed)
  }

  /** The old bridge 0 is alive, with message 0 in its closed channel. */
  ghost predicate Stale(s: Feed) {
    && s.next == 1 && s.bus.chans.Keys == {0} && s.bus.chans[0] == Chan(BUFFER, [Message(NAME, 0)], true)
    && s.gens.Keys == {0} && s.gens[0].post == P && s.gens[0].phase == Idle
    && s.watches.Keys <= {0} && (0 in s.watches ==> s.watches[0].conn == "a")
  }

  ghost predicate Between(s: Feed) {
    && Open(s) && s.call == Free && P !in s.posts && s.bus.List(NAME) == [] && Inner(s.subs, P) == map[]
    && s.events.Keys == {0} && Stale(s)
  }

  /** Two bridges of the post are alive, and "b" is its one viewer. */
  ghost predicate Two(s: Feed, ph0: Phase, ph1: Phase, buf0: seq<Message>, buf1: seq<Message>, inbox: seq<Payload>) {
    && Open(s) && s.bus.List(NAME) == [1]
    && {0, 1} <= s.bus.chans.Keys
    && s.bus.chans[0].buf == buf0 && s.bus.chans[1] == Chan(BUFFER, buf1, false)
    && {0, 1} <= s.gens.Keys
    && s.gens[0].post == P && s.gens[0].phase == ph0
    && s.gens[1].post == P && s.gens[1].phase == ph1
    && Inner(s.subs, P) == map["b" := Subscription("u", 1)]
    && 1 in s.events && s.events[1] == Chan(BUFFER, inbox, false) && 1 in s.watches
  }

  lemma ViewerArrives() returns (r: Feed)
    ensures Reachable(r) && Arriving(r, 0) && r.events.Keys == {0} && r.watches == map[] && r.gens == map[]
    ensures r.bus == EMPTY_BUS && r.next == 0
  {
    hide Reachable;
    InitReachable();
    Next(INIT, BeginAcquire(P, "u", 0));
    r := Do(INIT, BeginAcquire(P, "u", 0));
  }

  lemma ViewerOnBus(s: Feed) returns (r: Feed)
    requires Reachable(s) && Arriving(s, 0) && s.events.Keys == {0} && s.watches == map[] && s.gens == map[]
    requires s.bus == EMPTY_BUS && s.next == 0
    ensures Reachable(r) && First(r, AtStore(P, "u", 0), 1, {}, []) && r.watches == map[]
  {
    hide Reachable;
    Next(s, AcquireBus(0, Ok));
    r := Do(s, AcquireBus(0, Ok));
  }

  lemma ViewerRegisters(s: Feed) returns (r: Feed)
    requires Reachable(s) && First(s, AtStore(P, "u", 0), 1, {}, []) && s.watches == map[]
    ensures Reachable(r) && First(r, Free, 1, {"a"}, [])
  {
    hide Reachable, Bus.Valid;
    Next(s, AcquireStore("a"));
    r := Do(s, AcquireStore("a"));
  }

  lemma FirstMessage(s: Feed) returns (r: Feed)
    requires Reachable(s) && First(s, Free, 1, {"a"}, [])
    ensures Reachable(r) && First(r, Free, 1, {"a"}, [Message(NAME, 0)])
  {
    hide Reachable;
    Next(s, BusFanOut(NAME));
    r := Do(s, BusFanOut(NAME));
    assert 0 in Elements(s.bus.List(NAME));
  }

  lemma ViewerLeaves(s: Feed) returns (r: Feed)
    requires Reachable(s) && First(s, Free, 1, {"a"}, [Message(NAME, 0)])
    ensures Reachable(r) && First(r, Detaching(P), 0, {}, [Message(NAME, 0)])
  {
    hide Reachable;
    Next(s, BeginRelease(P, "a"));
    var m := Do(s, BeginRelease(P, "a"));
    Next(m, ReleaseStore);
    r := Do(m, ReleaseStore);
  }

  lemma BridgeDetached(s: Feed) returns (r: Feed)
    requires Reachable(s) && First(s, Detaching(P), 0, {}, [Message(NAME, 0)])
    ensures Reachable(r) && Between(r)
  {
    hide Reachable;
    Next(s, ReleaseBus(Ok));
    r := Do(s, ReleaseBus(Ok));
    assert Without([0], 0) == [];
  }

  lemma NextViewerArrives(s: Feed) returns (r: Feed)
    requires Reachable(s) && Between(s)
    ensures Reachable(r) && Arriving(r, 1) && Stale(r)
  {
    hide Reachable;
    Next(s, BeginAcquire(P, "u", 1));
    r := Do(s, BeginAcquire(P, "u", 1));
  }

  lemma NextViewerRegisters(s: Feed) returns (r: Feed)
    requires Reachable(s) && Arriving(s, 1) && Stale(s)
    ensures Reachable(r) && Two(r, Idle, Idle, [Message(NAME, 0)], [], []) && r.next == 1
  {
    hide Reachable;
    Next(s, AcquireBus(1, Ok));
    var m := Do(s, AcquireBus(1, Ok));
    Next(m, AcquireStore("b"));
    r := Do(m, AcquireStore("b"));
  }

  lemma SecondMessage(s: Feed) returns (r: Feed)
    requires Reachable(s) && Two(s, Idle, Idle, [Message(NAME, 0)], [], []) && s.next == 1
    ensures Reachable(r) && Two(r, Idle, Idle, [Message(NAME, 0)], [Message(NAME, 1)], [])
  {
    hide Reachable;
    Next(s, BusFanOut(NAME));
    r := Do(s, BusFanOut(NAME));
    assert 1 in Elements(s.bus.List(NAME)) && 0 !in Elements(s.bus.List(NAME));
  }

  lemma Receives(s: Feed, g: ChanId, ph0: Phase, ph1: Phase, buf0: seq<Message>, buf1: seq<Message>,
                 inbox: seq<Payload>)
    returns (r: Feed)
    requires Reachable(s) && Two(s, ph0, ph1, buf0, buf1, inbox)
    requires g == 0 ==> ph0.Idle? && buf0 == [Message(NAME, 0)]
    requires g != 0 ==> g == 1 && ph1.Idle? && buf1 == [Message(NAME, 1)]
    ensures Reachable(r)
    ensures g == 0 ==> Two(r, Holding(0), ph1, [], buf1, inbox)
    ensures g == 1 ==> Two(r, ph0, Holding(1), buf0, [], inbox)
  {
    hide Reachable;
    Next(s, BridgeReceive(g));
    r := Do(s, BridgeReceive(g));
  }

  lemma Publishes(s: Feed, g: ChanId, ph0: Phase, ph1: Phase, buf0: seq<Message>, buf1: seq<Message>,
                  inbox: seq<Payload>)
    returns (r: Feed)
    requires Reachable(s) && Two(s, ph0, ph1, buf0, buf1, inbox)
    requires g == 0 ==> ph0 == Holding(0)
    requires g != 0 ==> g == 1 && ph1 == Holding(1)
    ensures Reachable(r)
    ensures g == 0 ==> Two(r, Publishing(0, {"b"}), ph1, buf0, buf1, inbox)
    ensures g == 1 ==> Two(r, ph0, Publishing(1, {"b"}), buf0, buf1, inbox)
  {
    hide Reachable;
    Next(s, BridgePublish(g));
    r := Do(s, BridgePublish(g));
  }

  lemma Sends(s: Feed, g: ChanId, ph0: Phase, ph1: Phase, buf0: seq<Message>, buf1: seq<Message>, inbox: seq<Payload>)
    returns (r: Feed)
    requires Reachable(s) && Two(s, ph0, ph1, buf0, buf1, inbox) && |inbox| <= 1
    requires g == 0 ==> ph0 == Publishing(0, {"b"})
    requires g != 0 ==> g == 1 && ph1 == Publishing(1, {"b"})
    ensures Reachable(r)
    ensures g == 0 ==> Two(r, Publishing(0, {}), ph1, buf0, buf1, inbox + [0])
    ensures g == 1 ==> Two(r, ph0, Publishing(1, {}), buf0, buf1, inbox + [1])
  {
    hide Reachable;
    Next(s, BridgeSend(g, "b"));
    r := Do(s, BridgeSend(g, "b"));
    assert {"b"} - {"b"} == {};
    assert Has(s.subs, P, "b") && s.subs[P]["b"].ch == 1;
  }

  /** Order across bridges does not hold: a reachable state in which a live connection's channel holds
      message 1 ahead of message 0. */
  lemma OutOfOrder()
    ensures exists s, ch :: Reachable(s) && ch in s.events && s.events[ch].buf == [1, 0]
  {
    hide Reachable, First, Arriving, Between, Stale;
    var s := ViewerArrives();
    s := ViewerOnBus(s);
    s := ViewerRegisters(s);
    s := FirstMessage(s);
    s := ViewerLeaves(s);
    s := BridgeDetached(s);
    s := NextViewerArrives(s);
    s := NextViewerRegisters(s);
    s := SecondMessage(s);
    var m0, m1 := Message(NAME, 0), Message(NAME, 1);
    s := Receives(s, 1, Idle, Idle, [m0], [m1], []);
    s := Publishes(s, 1, Idle, Holding(1), [m0], [], []);
    s := Sends(s, 1, Idle, Publishing(1, {"b"}), [m0], [], []);
    s := Receives(s, 0, Idle, Publishing(1, {}), [m0], [], [1]);
    s := Publishes(s, 0, Holding(0), Publishing(1, {}), [], [], [1]);
    s := Sends(s, 0, Publishing(0, {"b"}), Publishing(1, {}), [], [], [1]);
    assert 1 in s.events && s.events[1].buf == [1, 0];
  }

  /** A Release that the hub's comment calls safe and that breaks the count: one viewer is registered, and an unknown
      connection is released. */
  lemma UnknownReleaseBreaksCount()
    ensures exists s, conn ::
              Reachable(s) && Wired(View(s)) && P in s.posts && !Has(s.subs, P, conn) && !Wired(Release(View(s), P, conn, Ok))
  {
    hide Reachable, Arriving, Wired, Release;
    var s := ViewerArrives();
    s := ViewerOnBus(s);
    s := ViewerRegisters(s);
    AtRestWhenReached(s);
    ReleaseKeepsWiredIff(View(s), P, "b", Ok);
    assert !Has(s.subs, P, "b") by { assert "b" !in Inner(s.subs, P).Keys; }
  }

  lemma AtRestWhenReached(s: Feed)
    requires Reachable(s) && s.call.Free?
    ensures Wired(View(s))
  {
    hide Inv, Can, Do, Wired;
    var ss, steps :| Continues(ss, steps) && ss[0] == INIT && ss[|steps|] == s;
    FeedTheorems.AtRest(ss, steps, |steps|);
  }
}
