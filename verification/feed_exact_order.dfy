/**
 Exactly when a connection's events are in order.

 Two bridges of one post may be alive together, an old one draining its closed channel and the post's own.
 What decides is whether, at the moment a connection registers, an old bridge still has anything to deliver.
 */
module FeedExactOrder {
  import opened GoChannels
  import opened ChannelNames
  import opened PubSub
  import opened SubscriptionStore
  import opened FeedWiring
  import opened FeedRuns
  import opened FeedInvariant
  import opened FeedAcquireSteps
  import opened FeedDeliverySteps
  import opened FeedTheorems
  import opened FeedDelivery

  function Buffered(bus: Bus, g: ChanId): seq<Message> {
    if g in bus.chans then bus.chans[g].buf else []
  }

  /** The bridge holds a message, or can still take one from its buffer. */
  predicate Loaded(gens: map<ChanId, Gen>, bus: Bus, g: ChanId)
    requires g in gens
  {
    gens[g].phase.Holding? || (gens[g].phase.Idle? && Buffered(bus, g) != [])
  }

  /** The bridge will never deliver anything again. */
  predicate Spent(gens: map<ChanId, Gen>, bus: Bus, g: ChanId)
    requires g in gens
  {
    gens[g].phase.Exited? || (gens[g].phase.Idle? && g in bus.chans && bus.chans[g].closed && bus.chans[g].buf == [])
  }

  ghost predicate InOrder(s: Feed, ch: ChanId) {
    ch in s.watches && ch in s.events && Rising(s.watches[ch].received + s.events[ch].buf)
  }

  /** However the run goes on, the connection's events stay in the order of the transport. */
  ghost predicate AlwaysInOrder(s: Feed, ch: ChanId) {
    forall r :: Reaches(s, r) ==> InOrder(r, ch)
  }

  /** The post's own bridge aside, no bridge of the post has anything to deliver.  Once the bus is closed, all bridges
      are only draining, and one of them may be. */
  ghost predicate OneSource(gens: map<ChanId, Gen>, bus: Bus, posts: map<Post, PostEntry>, post: Post) {
    if bus.closed then
      forall g, h | g in gens && h in gens && gens[g].post == post && gens[h].post == post ::
        Loaded(gens, bus, g) && Loaded(gens, bus, h) ==> g == h
    else
      forall g :: g in gens && gens[g].post == post && Loaded(gens, bus, g) ==> post in posts && posts[post].redis == g
  }

  // --- A spent bridge stays spent --------------------------------------------------------------------------------

  /** Every step that touches the bus is one operation of the bus. */
  ghost predicate OneBusOp(b: Bus, c: Bus) {
    b == c || exists op :: BusCan(b, op) && c == BusDo(b, op)
  }

  lemma IsBusOp(b: Bus, op: BusOp)
    requires BusCan(b, op)
    ensures OneBusOp(b, BusDo(b, op))
  {
  }

  lemma SameBus(b: Bus)
    ensures OneBusOp(b, b)
  {
  }

  lemma CallsMoveBus(s: Feed, step: Step)
    requires Can(s, step)
    requires step.AcquireBus? || step.ReleaseBus? || step.CloseOne?
    ensures OneBusOp(s.bus, Do(s, step).bus)
  {
    hide BusSubscribe, BusUnsubscribe, UnsubscribePanics, OneBusOp, CancelGen, Entered;
    SameBus(s.bus);
    match step
    case AcquireBus(redis, t) => IsBusOp(s.bus, OpSubscribe(PostChannel(s.call.post), redis, t));
    case ReleaseBus(t) =>
      var redis := if s.call.post in s.posts then s.posts[s.call.post].redis else 0;
      IsBusOp(s.bus, OpUnsubscribe(PostChannel(s.call.post), redis, t));
    case CloseOne(post, t) =>
      var redis := if post in s.posts then s.posts[post].redis else 0;
      IsBusOp(s.bus, OpUnsubscribe(PostChannel(post), redis, t));
  }

  lemma OthersMoveBus(s: Feed, step: Step)
    requires Can(s, step) && (step.BusFanOut? || step.BusShut? || step.OtherSubscribe? || step.OtherUnsubscribe?
                              || step.OtherReceive? || step.BridgeReceive?)
    ensures OneBusOp(s.bus, Do(s, step).bus)
  {
    hide BusSubscribe, BusUnsubscribe, PubSub.FanOut, BusClose, BusReceive, FanOutPanics, UnsubscribePanics, BusClosePanics, OneBusOp;
    SameBus(s.bus);
    match step
    case BusFanOut(name) => IsBusOp(s.bus, OpFanOut(Message(name, s.next)));
    case BusShut => IsBusOp(s.bus, OpClose);
    case OtherSubscribe(room, out, t) => IsBusOp(s.bus, OpSubscribe(RoomChannel(room), out, t));
    case OtherUnsubscribe(room, sub, t) => IsBusOp(s.bus, OpUnsubscribe(RoomChannel(room), sub, t));
    case OtherReceive(c) => IsBusOp(s.bus, OpReceive(c));
    case BridgeReceive(g) => IsBusOp(s.bus, OpReceive(g));
  }

  lemma BusMoves(s: Feed, step: Step)
    requires Can(s, step)
    ensures OneBusOp(s.bus, Do(s, step).bus)
  {
    hide OneBusOp, NoReader, StoreClosePanics, DoAcquireStore, DoReleaseStore, DoAcquireBus, DoReleaseBus, DoCloseOne, DoFanOut,
      DoBridgeReceive;
    SameBus(s.bus);
    if step.AcquireBus? || step.ReleaseBus? || step.CloseOne? {
      CallsMoveBus(s, step);
    } else if step.BusFanOut? || step.BusShut? || step.OtherSubscribe? || step.OtherUnsubscribe?
              || step.OtherReceive? || step.BridgeReceive? {
      OthersMoveBus(s, step);
    }
  }

  lemma DrainedStays(b: Bus, c: Bus, g: ChanId)
    requires b.Valid() && OneBusOp(b, c) && g in b.chans && b.chans[g].closed && b.chans[g].buf == []
    ensures g in c.chans && c.chans[g].closed && c.chans[g].buf == []
  {
    hide Bus.Valid, BusCan, BusDo;
    if b != c {
      var op :| BusCan(b, op) && c == BusDo(b, op);
      ClosedStaysClosed(b, op, g);
    }
  }

  /** Only its own steps move a bridge; all other steps leave every phase as it is. */
  ghost predicate SamePhases(a: map<ChanId, Gen>, b: map<ChanId, Gen>) {
    forall g :: g in a ==> g in b && b[g].phase == a[g].phase && b[g].post == a[g].post
  }

  ghost predicate SamePhasesBut(a: map<ChanId, Gen>, b: map<ChanId, Gen>, h: ChanId) {
    forall g :: g in a ==> g in b && b[g].post == a[g].post && (g != h ==> b[g].phase == a[g].phase)
  }

  lemma CancelKeepsPhases(gens: map<ChanId, Gen>, h: ChanId)
    ensures SamePhases(gens, gens) && SamePhases(gens, CancelGen(gens, h))
  {
  }

  lemma AcquireBusKeepsPhases(s: Feed, redis: ChanId, t: Transport)
    requires s.call.AtBus? && redis !in s.gens
    ensures SamePhases(s.gens, DoAcquireBus(s, redis, t).gens)
  {
    hide BusSubscribe, SamePhases;
    CancelKeepsPhases(s.gens, 0);
    NewKeepsPhases(s.gens, redis, Gen(s.call.post, false, Idle, [], []));
  }

  lemma NewKeepsPhases(gens: map<ChanId, Gen>, g: ChanId, gen: Gen)
    requires g !in gens
    ensures SamePhases(gens, gens[g := gen])
  {
  }

  lemma ReleaseStoreKeepsPhases(s: Feed)
    requires s.call.Leaving?
    ensures SamePhases(s.gens, DoReleaseStore(s).gens)
  {
    hide SamePhases, CancelGen, Drop, Stop;
    CancelKeepsPhases(s.gens, if s.call.post in s.posts then s.posts[s.call.post].redis else 0);
  }

  lemma CloseOneKeepsPhases(s: Feed, post: Post, t: Transport)
    requires s.call.ClosingBus?
    ensures SamePhases(s.gens, DoCloseOne(s, post, t).gens)
  {
    hide SamePhases, CancelGen, BusUnsubscribe, UnsubscribePanics;
    CancelKeepsPhases(s.gens, if post in s.posts then s.posts[post].redis else 0);
  }

  lemma CallsKeepPhases(s: Feed, step: Step)
    requires Can(s, step) && (step.AcquireBus? ==> step.redis !in s.gens)
    requires step.AcquireBus? || step.AcquireStore? || step.ReleaseStore? || step.ReleaseBus? || step.CloseOne? || step.CloseStore?
    ensures SamePhases(s.gens, Do(s, step).gens)
  {
    hide SamePhases, NoReader, DoAcquireBus, DoReleaseStore, DoCloseOne, UnsubscribePanics, StoreClosePanics, BusUnsubscribe,
      CloseAll, Stop, Add, Counts;
    CancelKeepsPhases(s.gens, 0);
    match step
    case AcquireBus(redis, t) => AcquireBusKeepsPhases(s, redis, t);
    case ReleaseStore => ReleaseStoreKeepsPhases(s);
    case CloseOne(post, t) => CloseOneKeepsPhases(s, post, t);
    case _ =>
  }

  lemma OthersKeepPhases(s: Feed, step: Step)
    requires Can(s, step) && (step.BeginAcquire? || step.BeginRelease? || step.BeginClose? || step.CloseEntries? || step.BusFanOut?
             || step.BusShut? || step.OtherSubscribe? || step.OtherUnsubscribe? || step.OtherReceive? || step.HandlerReceive?)
    ensures SamePhases(s.gens, Do(s, step).gens)
  {
    hide SamePhases, BusSubscribe, BusUnsubscribe, PubSub.FanOut, BusClose, BusReceive, FanOutPanics, UnsubscribePanics, BusClosePanics,
      DoFanOut;
    CancelKeepsPhases(s.gens, 0);
    if step.BusFanOut? {
      FanOutKeepsPhases(s, step.name);
    }
  }

  lemma FanOutKeepsPhases(s: Feed, name: Name)
    ensures SamePhases(s.gens, DoFanOut(s, name).gens)
  {
    hide FanOutPanics, PubSub.FanOut;
  }

  lemma SendKeepsOtherPhases(s: Feed, g: ChanId, to: Conn)
    requires g in s.gens && s.gens[g].phase.Publishing?
    ensures SamePhasesBut(s.gens, DoBridgeSend(s, g, to).gens, g)
  {
    hide SamePhasesBut;
    var gen := s.gens[g];
    MovesOne(s.gens, g, gen.phase);
    assert s.gens[g := gen.(phase := gen.phase)] == s.gens;
    MovesOne(s.gens, g, Publishing(gen.phase.m, gen.phase.todo - {to}));
  }

  lemma MovesOne(gens: map<ChanId, Gen>, g: ChanId, phase: Phase)
    requires g in gens
    ensures SamePhasesBut(gens, gens[g := gens[g].(phase := phase)], g)
  {
  }

  lemma BridgeKeepsOtherPhases(s: Feed, step: Step)
    requires Can(s, step)
    requires step.BridgeReceive? || step.BridgeExit? || step.BridgePublish? || step.BridgeSend? || step.BridgeDone?
    ensures SamePhasesBut(s.gens, Do(s, step).gens, step.g)
    ensures step.BridgeExit? ==> step.g in Do(s, step).gens && Do(s, step).gens[step.g].phase.Exited?
  {
    hide BusReceive, DoBridgeSend;
    if step.BridgeSend? {
      SendKeepsOtherPhases(s, step.g, step.to);
    }
  }

  /** A bridge that has exited, or waits at an empty channel, does not move but to exit. */
  lemma RestingStays(s: Feed, step: Step, g: ChanId)
    requires Can(s, step) && g in s.gens && (step.AcquireBus? ==> step.redis !in s.gens)
    requires s.gens[g].phase.Exited? || (s.gens[g].phase.Idle? && Buffered(s.bus, g) == [])
    ensures var r := Do(s, step); g in r.gens && (r.gens[g].phase == s.gens[g].phase || r.gens[g].phase.Exited?)
  {
    hide Do, NoReader;
    if step.AcquireBus? || step.AcquireStore? || step.ReleaseStore? || step.ReleaseBus? || step.CloseOne? || step.CloseStore? {
      CallsKeepPhases(s, step);
    } else if step.BridgeReceive? || step.BridgeExit? || step.BridgePublish? || step.BridgeSend? || step.BridgeDone? {
      BridgeKeepsOtherPhases(s, step);
    } else {
      OthersKeepPhases(s, step);
    }
  }

  lemma SpentStays(s: Feed, step: Step, g: ChanId)
    requires Inv(s) && Can(s, step) && g in s.gens && Spent(s.gens, s.bus, g)
    ensures g in Do(s, step).gens && Do(s, step).gens[g].post == s.gens[g].post && Spent(Do(s, step).gens, Do(s, step).bus, g)
  {
    hide HubInv, OwedInv, BusInv, ChanInv, GenInv, WatchInv, TodoInv, Bus.Valid, Can, Do;
    NewBridgeIsNew(s, step);
    SamePost(s, step, g);
    RestingStays(s, step, g);
    BusMoves(s, step);
    if !s.gens[g].phase.Exited? {
      DrainedStays(s.bus, Do(s, step).bus, g);
    }
  }

  lemma NewBridgeIsNew(s: Feed, step: Step)
    requires Inv(s) && Can(s, step)
    ensures step.AcquireBus? ==> step.redis !in s.gens
  {
    hide HubInv, OwedInv, BusInv, ChanInv, GenInv, WatchInv, TodoInv, Bus.Valid, NoReader;
    if step.AcquireBus? {
      BoundGens(s, step.redis);
    }
  }

  // --- One source is enough -----------------------------------------------------------------------------------------

  /** Only bridge `g` can still offer anything to the connection, and only `g` has. */
  ghost predicate Sole(s: Feed, ch: ChanId, g: ChanId) {
    && ch in s.watches && g in s.gens && s.gens[g].post == s.watches[ch].post
    && OnlyFrom(s.watches[ch].offered, g)
    && (s.watches[ch].live ==> OthersSpent(s.gens, s.bus, s.watches[ch].post, g))
  }

  ghost predicate OnlyFrom(os: seq<Offer>, g: ChanId) {
    forall i :: 0 <= i < |os| ==> os[i].gen == g
  }

  ghost predicate OthersSpent(gens: map<ChanId, Gen>, bus: Bus, post: Post, g: ChanId) {
    forall h :: h in gens && h != g && gens[h].post == post ==> Spent(gens, bus, h)
  }

  /** A bridge made by this step belongs to a post without connections. */
  lemma NewBridge(s: Feed, step: Step, ch: ChanId, h: ChanId)
    requires Inv(s) && Can(s, step) && ch in s.watches && s.watches[ch].live && h in Do(s, step).gens && h !in s.gens
    ensures Do(s, step).gens[h].post != s.watches[ch].post
  {
    hide HubInv, OwedInv, BusInv, ChanInv, GenInv, WatchInv, TodoInv, Bus.Valid, NoReader, Do;
    NewGens(s, step);
    NoSecondBridge(s, ch);
  }

  lemma NewGens(s: Feed, step: Step)
    requires Can(s, step)
    ensures forall h :: h in Do(s, step).gens && h !in s.gens ==>
              step.AcquireBus? && s.call.AtBus? && Do(s, step).gens[h].post == s.call.post
  {
    hide BusSubscribe, NoReader, FanOutPanics, DoAcquireStore, DoBeginAcquire, DoReleaseStore, DoReleaseBus, DoCloseOne,
      DoCloseStore, DoBridgeReceive, DoBridgePublish, DoHandlerReceive;
    match step
    case AcquireBus(_, _) =>
    case AcquireStore(_) =>
    case BusFanOut(_) =>
    case BridgeSend(_, _) =>
    case _ => QuietGensKept(s, step);
  }

  lemma QuietGensKept(s: Feed, step: Step)
    requires Can(s, step) && IsQuiet(step)
    ensures Do(s, step).gens.Keys == s.gens.Keys
  {
    hide Can, Do;
    QuietStep(s, step);
  }

  lemma NoSecondBridge(s: Feed, ch: ChanId)
    requires Inv(s) && ch in s.watches && s.watches[ch].live
    ensures s.call.AtBus? ==> s.watches[ch].post != s.call.post
  {
    hide Bus.Valid, Counted, OwedInv, BusInv, GenInv, WatchInv, TodoInv, ChannelsValid;
    assert Has(s.subs, s.watches[ch].post, s.watches[ch].conn);
  }

  lemma OthersStaySpent(s: Feed, step: Step, ch: ChanId, g: ChanId)
    requires Inv(s) && Can(s, step) && ch in s.watches && s.watches[ch].live && OthersSpent(s.gens, s.bus, s.watches[ch].post, g)
    ensures OthersSpent(Do(s, step).gens, Do(s, step).bus, s.watches[ch].post, g)
  {
    hide Inv, Can, Do, Spent;
    var r := Do(s, step);
    forall h | h in r.gens && h != g && r.gens[h].post == s.watches[ch].post ensures Spent(r.gens, r.bus, h) {
      if h !in s.gens {
        NewBridge(s, step, ch, h);
      } else {
        SamePost(s, step, h);
        SpentStays(s, step, h);
      }
    }
  }

  lemma SamePost(s: Feed, step: Step, h: ChanId)
    requires Inv(s) && Can(s, step) && h in s.gens
    ensures h in Do(s, step).gens && Do(s, step).gens[h].post == s.gens[h].post
  {
    hide Inv, Do, NoReader;
    NewBridgeIsNew(s, step);
    if step.AcquireBus? || step.AcquireStore? || step.ReleaseStore? || step.ReleaseBus? || step.CloseOne? || step.CloseStore? {
      CallsKeepPhases(s, step);
    } else if step.BridgeReceive? || step.BridgeExit? || step.BridgePublish? || step.BridgeSend? || step.BridgeDone? {
      BridgeKeepsOtherPhases(s, step);
    } else {
      OthersKeepPhases(s, step);
    }
  }

  /** What a step does to one connection: nothing is offered but by a bridge that publishes to it. */
  ghost predicate WatchMoves(s: Feed, r: Feed, ch: ChanId) {
    && ch in s.watches && ch in r.watches && r.watches[ch].post == s.watches[ch].post && (r.watches[ch].live ==> s.watches[ch].live)
    && (r.watches[ch].offered == s.watches[ch].offered
        || exists from, m, taken :: s.watches[ch].live && from in s.gens && s.gens[from].post == s.watches[ch].post
             && s.gens[from].phase.Publishing? && r.watches[ch].offered == s.watches[ch].offered + [Offer(from, m, taken)])
  }

  lemma WatchMove(s: Feed, step: Step, ch: ChanId)
    requires Inv(s) && Can(s, step) && ch in s.watches
    ensures WatchMoves(s, Do(s, step), ch)
  {
    hide Inv, NoReader, DoAcquireBus, DoAcquireStore, DoBridgeSend, DoFanOut, WatchMoves;
    match step
    case AcquireBus(redis, t) => NewBridgeDrops(s, redis, t); SameWatch(s, DoAcquireBus(s, redis, t), ch);
    case AcquireStore(conn) => NewWatchDrops(s, conn); SameWatch(s, DoAcquireStore(s, conn), ch);
    case BridgeSend(from, to) => SendMoves(s, from, to, ch);
    case BusFanOut(name) => FanOutKeepsWatches(s, name); SameWatch(s, DoFanOut(s, name), ch);
    case _ => QuietWatch(s, step, ch);
  }

  lemma SameWatch(s: Feed, r: Feed, ch: ChanId)
    requires ch in s.watches && ch in r.watches && r.watches[ch] == s.watches[ch]
    ensures WatchMoves(s, r, ch)
  {
  }

  lemma FanOutKeepsWatches(s: Feed, name: Name)
    ensures DoFanOut(s, name).watches == s.watches
  {
    hide FanOutPanics, PubSub.FanOut;
  }

  lemma QuietWatch(s: Feed, step: Step, ch: ChanId)
    requires Can(s, step) && IsQuiet(step) && ch in s.watches
    ensures WatchMoves(s, Do(s, step), ch)
  {
    hide Can, Do;
    QuietStep(s, step);
  }

  lemma SendMoves(s: Feed, from: ChanId, to: Conn, ch: ChanId)
    requires Inv(s) && from in s.gens && s.gens[from].phase.Publishing? && to in s.gens[from].phase.todo && ch in s.watches
    ensures WatchMoves(s, DoBridgeSend(s, from, to), ch)
  {
    hide Bus.Valid, HubInv, OwedInv, BusInv, ChanInv, GenInv, WatchInv, TodoInv;
    TodoIsRegistered(s, from, to);
    Registered(s, s.gens[from].post, to);
    var target := s.subs[s.gens[from].post][to].ch;
    if ch == target && !s.events[ch].closed {
      var o := Offer(from, s.gens[from].phase.m, !s.events[ch].Full());
      assert DoBridgeSend(s, from, to).watches[ch].offered == s.watches[ch].offered + [Offer(from, o.m, o.taken)];
    }
  }

  lemma SoleStep(s: Feed, step: Step, ch: ChanId, g: ChanId)
    requires Inv(s) && Can(s, step) && Sole(s, ch, g)
    ensures Sole(Do(s, step), ch, g)
  {
    hide Inv, Can, Do, OthersSpent;
    WatchMove(s, step, ch);
    SamePost(s, step, g);
    if s.watches[ch].live {
      OthersStaySpent(s, step, ch, g);
      OnlySource(s.gens, s.bus, s.watches[ch].post, g);
    }
  }

  /** A publishing bridge is not spent. */
  lemma OnlySource(gens: map<ChanId, Gen>, bus: Bus, post: Post, g: ChanId)
    requires OthersSpent(gens, bus, post, g)
    ensures forall h :: h in gens && gens[h].post == post && gens[h].phase.Publishing? ==> h == g
  {
  }

  lemma {:induction false} SoleRun(ss: seq<Feed>, steps: seq<Step>, i: nat, ch: ChanId, g: ChanId)
    requires Continues(ss, steps) && Inv(ss[0]) && Sole(ss[0], ch, g) && i < |ss|
    ensures Inv(ss[i]) && Sole(ss[i], ch, g)
  {
    hide Inv, Can, Do, Sole;
    ContinuingKeepsInv(ss, steps, i);
    if i > 0 {
      SoleRun(ss, steps, i - 1, ch, g);
      SoleStep(ss[i - 1], steps[i - 1], ch, g);
    }
  }

  lemma {:induction false} OfAll(os: seq<Offer>, g: ChanId)
    requires OnlyFrom(os, g)
    ensures AcceptedOf(os, g) == Accepted(os)
  {
    if os != [] {
      OfAll(os[..|os| - 1], g);
    }
  }

  lemma SoleIsInOrder(s: Feed, ch: ChanId, g: ChanId)
    requires Inv(s) && Sole(s, ch, g)
    ensures InOrder(s, ch)
  {
    hide Inv, Of, Accepted, AcceptedOf, OthersSpent;
    Delivered(s, ch);
    OffersOfBridge(s, ch, g);
    AcceptedOfRises(s.watches[ch].offered, g);
    OfAll(s.watches[ch].offered, g);
  }

  /** Events reach a connection in order for as long as one bridge alone can serve it. */
  lemma OrderedWhenSole(s: Feed, ch: ChanId, g: ChanId)
    requires Inv(s) && Sole(s, ch, g)
    ensures AlwaysInOrder(s, ch)
  {
    hide Inv, Can, Do, Sole, InOrder;
    forall r | Reaches(s, r) ensures InOrder(r, ch) {
      var ss, steps :| Continues(ss, steps) && ss[0] == s && ss[|steps|] == r;
      SoleRun(ss, steps, |steps|, ch, g);
      SoleIsInOrder(r, ch, g);
    }
  }
}
