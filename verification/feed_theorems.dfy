/** What holds of every run of the delivery path. */
module FeedTheorems {
  import opened GoChannels
  import opened ChannelNames
  import opened PubSub
  import opened SubscriptionStore
  import opened FeedWiring
  import opened FeedRuns
  import opened FeedInvariant
  import opened FeedAcquireSteps
  import opened FeedReleaseSteps
  import opened FeedDeliverySteps

  // --- Safety ------------------------------------------------------------------------------------------

  lemma StepKeepsInv(s: Feed, step: Step)
    requires Inv(s) && Can(s, step)
    ensures Inv(Do(s, step))
  {
    hide Inv;
    match step
    case BeginAcquire(post, userID, ch) => BeginAcquireStep(s, post, userID, ch);
    case AcquireBus(redis, t) => AcquireBusStep(s, redis, t);
    case AcquireStore(conn) => AcquireStoreStep(s, conn);
    case BeginRelease(post, conn) => BeginReleaseStep(s, post, conn);
    case ReleaseStore => ReleaseStoreStep(s);
    case ReleaseBus(t) => ReleaseBusStep(s, t);
    case BeginClose => BeginCloseStep(s);
    case CloseOne(post, t) => CloseOneStep(s, post, t);
    case CloseEntries => CloseEntriesStep(s);
    case CloseStore => CloseStoreStep(s);
    case BusFanOut(name) => FanOutStep(s, name);
    case BusShut => BusShutStep(s);
    case OtherSubscribe(room, out, t) => OtherSubscribeStep(s, room, out, t);
    case OtherUnsubscribe(room, sub, t) => OtherUnsubscribeStep(s, room, sub, t);
    case OtherReceive(c) => OtherReceiveStep(s, c);
    case BridgeReceive(g) => BridgeReceiveStep(s, g);
    case BridgeExit(g) => BridgeExitStep(s, g);
    case BridgePublish(g) => BridgePublishStep(s, g);
    case BridgeSend(g, to) => BridgeSendStep(s, g, to);
    case BridgeDone(g) => BridgeDoneStep(s, g);
    case HandlerReceive(ch) => HandlerReceiveStep(s, ch);
  }

  lemma InitInv()
    ensures Inv(INIT)
  {
    assert Payloads([]) == [];
  }

  lemma {:induction false} ContinuingKeepsInv(ss: seq<Feed>, steps: seq<Step>, i: nat)
    requires Continues(ss, steps) && Inv(ss[0]) && i < |ss|
    ensures Inv(ss[i])
  {
    hide Inv, Can, Do;
    if i > 0 {
      ContinuingKeepsInv(ss, steps, i - 1);
      StepKeepsInv(ss[i - 1], steps[i - 1]);
    }
  }

  lemma {:induction false} RunKeepsInv(ss: seq<Feed>, steps: seq<Step>)
    requires Run(ss, steps)
    ensures forall i :: 0 <= i < |ss| ==> Inv(ss[i])
  {
    hide Inv, Can, Do;
    InitInv();
    assert Continues(ss, steps);
    forall i | 0 <= i < |ss| ensures Inv(ss[i]) {
      ContinuingKeepsInv(ss, steps, i);
    }
  }

  /** No interleaving sends on a closed channel or closes one twice: the program never panics. */
  lemma ChannelSafety(ss: seq<Feed>, steps: seq<Step>, i: nat)
    requires Run(ss, steps) && i < |ss|
    ensures !ss[i].panicked
  {
    hide Can, Do;
    RunKeepsInv(ss, steps);
    Calm(ss[i]);
  }

  lemma Calm(s: Feed)
    requires Inv(s)
    ensures !s.panicked
  {
    hide Bus.Valid, HubInv, OwedInv, BusInv, ChanInv, GenInv, WatchInv, TodoInv;
  }

  // --- The composed invariant and the plain specification -------------------------------------------------

  /** In every run, whenever no call holds the hub's mutex, hub, store and bus agree; and once Close has begun, the
      hub and the store are empty. */
  lemma AtRest(ss: seq<Feed>, steps: seq<Step>, n: nat)
    requires Run(ss, steps) && n < |ss| && ss[n].call.Free?
    ensures Wired(View(ss[n]))
    ensures ss[n].shut ==> ss[n].posts == map[] && ss[n].subs == map[]
  {
    hide Inv, Can, Do, Wired;
    RunKeepsInv(ss, steps);
    AtRestIn(ss[n]);
  }

  lemma AtRestIn(s: Feed)
    requires Inv(s) && s.call.Free?
    ensures Wired(View(s))
    ensures s.shut ==> s.posts == map[] && s.subs == map[]
  {
    hide Bus.Valid, Counted, NoEmptyInner, Bridged, Consumed, ChannelsValid, GenInv, WatchInv, TodoInv, Ctl;
  }

  /** In every run, a post is bridged, by one running bridge, exactly when some live pair mentions it. */
  lemma BridgedIffViewed(ss: seq<Feed>, steps: seq<Step>, n: nat, p: Post)
    requires Run(ss, steps) && n < |ss| && ss[n].call.Free? && !ss[n].bus.closed
    ensures var s := ss[n];
            && ((exists g :: g in s.gens && s.gens[g].post == p && !s.gens[g].cancelled) <==> (exists c :: (p, c) in Pairs(s.subs)))
            && (PostChannel(p) in s.bus.subs <==> (exists c :: (p, c) in Pairs(s.subs)))
            && (forall g :: g in s.gens && s.gens[g].post == p && !s.gens[g].cancelled ==>
                  !s.gens[g].phase.Exited? && s.bus.List(PostChannel(p)) == [g])
  {
    hide Inv, Can, Do, Pairs;
    RunKeepsInv(ss, steps);
    BridgedIffViewedIn(ss[n], p);
  }

  lemma BridgedIffViewedIn(s: Feed, p: Post)
    requires Inv(s) && s.call.Free? && !s.bus.closed
    ensures (exists g :: g in s.gens && s.gens[g].post == p && !s.gens[g].cancelled) <==> (exists c :: (p, c) in Pairs(s.subs))
    ensures forall g :: g in s.gens && s.gens[g].post == p && !s.gens[g].cancelled ==>
              !s.gens[g].phase.Exited? && s.bus.List(PostChannel(p)) == [g]
    ensures PostChannel(p) in s.bus.subs <==> (exists c :: (p, c) in Pairs(s.subs))
  {
    AtRestIn(s);
    ViewedIffEntry(s.subs, p);
    RunningBridge(View(s), p);
    assert forall g :: g in s.gens ==> Ctl(s.gens)[g] == Bridge(s.gens[g].post, s.gens[g].cancelled);
    forall g | g in s.gens && s.gens[g].post == p && !s.gens[g].cancelled ensures !s.gens[g].phase.Exited? {
      InGens(s, g);
      assert s.bus.List(PostChannel(p)) == [g];
      assert g in s.bus.subs[PostChannel(p)];
    }
  }

  lemma ViewedIffEntry(subs: Subs, p: Post)
    requires NoEmptyInner(subs)
    ensures p in subs <==> exists c :: (p, c) in Pairs(subs)
  {
    if p in subs {
      var c :| c in subs[p];
      assert (p, c) in Pairs(subs);
    }
  }

  lemma RunningBridge(h: HubView, p: Post)
    requires Wired(h) && !h.bus.closed
    ensures (exists g :: g in h.bridges && h.bridges[g] == Bridge(p, false)) <==> p in h.subs
    ensures forall g :: g in h.bridges && h.bridges[g] == Bridge(p, false) ==> h.bus.List(PostChannel(p)) == [g]
    ensures PostChannel(p) in h.bus.subs <==> p in h.subs
  {
    hide Counted, NoEmptyInner;
  }

  /** The operations of the plain specification: a set of live (post, connection) pairs. */
  datatype SpecOp = Insert(post: Post, conn: Conn) | Delete(post: Post, conn: Conn) | Clear | Nothing

  ghost predicate SpecStep(live: iset<(Post, Conn)>, op: SpecOp, after: iset<(Post, Conn)>) {
    match op
    case Insert(p, c) => (p, c) !in live && after == live + iset{(p, c)}
    case Delete(p, c) => after == live - iset{(p, c)}
    case Clear => after == iset{}
    case Nothing => after == live
  }

  /** The step at which a call takes effect: its visit to the store. */
  function Effect(s: Feed, step: Step): SpecOp {
    match step
    case AcquireStore(conn) => if s.call.AtStore? then Insert(s.call.post, conn) else Nothing
    case ReleaseStore => if s.call.Leaving? then Delete(s.call.post, s.call.conn) else Nothing
    case CloseStore => Clear
    case _ => Nothing
  }

  /** Every step of every run is one step of the plain specification. */
  lemma Refines(ss: seq<Feed>, steps: seq<Step>, n: nat)
    requires Run(ss, steps) && n < |steps|
    ensures SpecStep(Pairs(ss[n].subs), Effect(ss[n], steps[n]), Pairs(ss[n + 1].subs))
  {
    hide Inv, Can, Do, Pairs, SpecStep, Effect;
    RunKeepsInv(ss, steps);
    StepRefines(ss[n], steps[n]);
  }

  lemma StepRefines(s: Feed, step: Step)
    requires Inv(s) && Can(s, step)
    ensures SpecStep(Pairs(s.subs), Effect(s, step), Pairs(Do(s, step).subs))
  {
    hide Inv, Can, Do, Pairs;
    match step
    case AcquireStore(conn) => AcquireInserts(s, conn);
    case ReleaseStore => ReleaseDeletes(s);
    case CloseStore => CloseClears(s);
    case _ => KeepsPairs(s, step);
  }

  lemma AcquireInserts(s: Feed, conn: Conn)
    requires Inv(s) && Can(s, AcquireStore(conn))
    ensures SpecStep(Pairs(s.subs), Effect(s, AcquireStore(conn)), Pairs(Do(s, AcquireStore(conn)).subs))
  {
    hide Bus.Valid, HubInv, OwedInv, BusInv, GenInv, WatchInv, TodoInv, ChanInv, Add, NoReader;
    UnknownConn(s, conn);
    AddIsInsert(s.subs, s.call.post, conn, Subscription(s.call.userID, s.call.ch));
  }

  lemma ReleaseDeletes(s: Feed)
    requires Can(s, ReleaseStore)
    ensures SpecStep(Pairs(s.subs), Effect(s, ReleaseStore), Pairs(Do(s, ReleaseStore).subs))
  {
    hide Drop, NoReader, Pairs;
    DropIsDelete(s.subs, s.call.post, s.call.conn);
  }

  lemma CloseClears(s: Feed)
    requires Inv(s) && Can(s, CloseStore)
    ensures SpecStep(Pairs(s.subs), Effect(s, CloseStore), Pairs(Do(s, CloseStore).subs))
  {
    hide Bus.Valid, HubInv, OwedInv, BusInv, GenInv, WatchInv, TodoInv, ChanInv, NoReader, StoreClosePanics;
    NoStoreClosePanic(s);
  }

  lemma KeepsPairs(s: Feed, step: Step)
    requires Can(s, step) && !step.AcquireStore? && !step.ReleaseStore? && !step.CloseStore?
    ensures Do(s, step).subs == s.subs
  {
    hide DoBeginAcquire, DoAcquireBus, DoReleaseBus, DoCloseOne, DoFanOut, DoBridgeReceive, DoBridgePublish,
      DoBridgeSend,
      DoHandlerReceive, NoReader, BusSubscribe, BusUnsubscribe;
  }

  // --- The calls, when nothing interferes --------------------------------------------------------------

  /** The steps of an undisturbed Acquire add up to the hub's Acquire. */
  function AcquireSteps(s: Feed, post: Post, userID: string, ch: ChanId, conn: Conn, redis: ChanId,
                        t: Transport): Feed {
    var s1 := DoBeginAcquire(s, post, userID, ch);
    var s2 := if s1.call.AtBus? then DoAcquireBus(s1, redis, t) else s1;
    if s2.call.AtStore? then DoAcquireStore(s2, conn) else s2
  }

  lemma AcquireAlone(s: Feed, post: Post, userID: string, ch: ChanId, conn: Conn, redis: ChanId, t: Transport)
    requires s.call.Free?
    ensures AcquireSteps(s, post, userID, ch, conn, redis, t).call.Free?
    ensures View(AcquireSteps(s, post, userID, ch, conn, redis, t)) == Acquire(View(s), post, userID, ch, conn, redis, t).0
  {
    hide AcquireSteps, Acquire, View;
    if post in s.posts {
      AcquireAgainAlone(s, post, userID, ch, conn, redis, t);
    } else {
      AcquireFirstAlone(s, post, userID, ch, conn, redis, t);
    }
  }

  lemma AcquireAgainAlone(s: Feed, post: Post, userID: string, ch: ChanId, conn: Conn, redis: ChanId, t: Transport)
    requires s.call.Free? && post in s.posts
    ensures AcquireSteps(s, post, userID, ch, conn, redis, t).call.Free?
    ensures View(AcquireSteps(s, post, userID, ch, conn, redis, t)) == Acquire(View(s), post, userID, ch, conn, redis, t).0
  {
    hide BusSubscribe, Add, Ctl, Counts;
    assert Entered(s.posts, post, 0) == s.posts[post := s.posts[post].(refs := s.posts[post].refs + 1)];
  }

  lemma AcquireFirstAlone(s: Feed, post: Post, userID: string, ch: ChanId, conn: Conn, redis: ChanId, t: Transport)
    requires s.call.Free? && post !in s.posts
    ensures AcquireSteps(s, post, userID, ch, conn, redis, t).call.Free?
    ensures View(AcquireSteps(s, post, userID, ch, conn, redis, t)) == Acquire(View(s), post, userID, ch, conn, redis, t).0
  {
    hide DoBeginAcquire, DoAcquireBus, BusSubscribe, Add, Ctl, Counts, Fresh;
    FirstSteps(s, post, userID, ch, redis, t);
    NewGenCtl(s.gens, redis, post);
  }

  lemma FirstSteps(s: Feed, post: Post, userID: string, ch: ChanId, redis: ChanId, t: Transport)
    requires s.call.Free? && post !in s.posts
    ensures var s1 := DoBeginAcquire(s, post, userID, ch);
            var (bus, err) := BusSubscribe(s.bus, PostChannel(post), redis, t);
            && s1.call.AtBus?
            && DoAcquireBus(s1, redis, t) ==
               if err.NoError?
               then s.(events := s.events[ch := Fresh()], bus := bus, call := AtStore(post, userID, ch),
                       posts := s.posts[post := PostEntry(1, redis)], gens := s.gens[redis := Gen(post, false, Idle, [], [])])
               else s.(events := s.events[ch := Fresh()], bus := bus)
  {
    hide BusSubscribe, Fresh;
  }

  lemma NewGenCtl(gens: map<ChanId, Gen>, redis: ChanId, post: Post)
    ensures Ctl(gens[redis := Gen(post, false, Idle, [], [])]) == Ctl(gens)[redis := Bridge(post, false)]
  {
  }

  lemma CancelGenCtl(gens: map<ChanId, Gen>, g: ChanId)
    ensures Ctl(CancelGen(gens, g)) == Cancel(Ctl(gens), g)
  {
  }

  lemma ReleaseAlone(s: Feed, post: Post, conn: Conn, t: Transport)
    requires s.call.Free? && s.bus.Valid()
    ensures var s1 := s.(call := Leaving(post, conn), owed := s.owed - {(post, conn)});
            var s2 := DoReleaseStore(s1);
            var s3 := if s2.call.Detaching? then DoReleaseBus(s2, t) else s2;
            s3.call.Free? && View(s3) == Release(View(s), post, conn, t)
  {
    hide Bus.Valid, BusUnsubscribe, Drop, UnsubscribePanics, Ctl, CancelGen, Cancel, Stop;
    if post in s.posts {
      var e := s.posts[post].(refs := s.posts[post].refs - 1);
      NoUnsubscribePanic(s.bus, PostChannel(post), e.redis);
      CancelGenCtl(s.gens, e.redis);
      assert s.posts[post := e] - {post} == s.posts - {post};
    }
  }
}
