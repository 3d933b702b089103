/** What a connection receives: at most once, in order per bridge, nothing lost except at a full buffer. */
module FeedDelivery {
  import opened GoChannels
  import opened ChannelNames
  import opened PubSub
  import opened SubscriptionStore
  import opened FeedRuns
  import opened FeedInvariant
  import opened FeedAcquireSteps
  import opened FeedDeliverySteps
  import opened FeedTheorems

  // --- Sequences -------------------------------------------------------------------------------------------

  ghost predicate Rising(s: seq<Payload>) {
    forall i, j :: 0 <= i < j < |s| ==> s[i] < s[j]
  }

  ghost predicate NoRepeat(s: seq<Payload>) {
    forall i, j :: 0 <= i < j < |s| ==> s[i] != s[j]
  }

  /** `a` is what is left of `b` after dropping some elements. */
  predicate Subsequence(a: seq<Payload>, b: seq<Payload>) {
    a == [] ||
    (b != [] &&
     var m, n := |a| - 1, |b| - 1;
     if a[m] == b[n] then Subsequence(a[..m], b[..n]) else Subsequence(a, b[..n]))
  }

  lemma {:induction false} RisingSubsequence(a: seq<Payload>, b: seq<Payload>)
    requires Rising(a) && Rising(b) && forall x :: x in a ==> x in b
    ensures Subsequence(a, b)
  {
    if a != [] {
      var m, n := |a| - 1, |b| - 1;
      assert a[m] in b;
      if a[m] == b[n] {
        forall x | x in a[..m] ensures x in b[..n] {
          assert x in b && x < a[m];
        }
        RisingSubsequence(a[..m], b[..n]);
      } else {
        forall x | x in a ensures x in b[..n] {
          assert x <= a[m] && a[m] < b[n];
        }
        RisingSubsequence(a, b[..n]);
      }
    }
  }

  lemma RisingAppend(s: seq<Payload>, x: Payload)
    requires Rising(s) && forall y :: y in s ==> y < x
    ensures Rising(s + [x])
  {
    forall i, j | 0 <= i < j < |s + [x]| ensures (s + [x])[i] < (s + [x])[j] {
      assert s[i] in s;
    }
  }

  lemma NoRepeatAppend(s: seq<Payload>, x: Payload)
    requires NoRepeat(s) && x !in s
    ensures NoRepeat(s + [x])
  {
    forall i, j | 0 <= i < j < |s + [x]| ensures (s + [x])[i] != (s + [x])[j] {
      assert s[i] in s;
    }
  }

  // --- The first hop -----------------------------------------------------------------------------------------

  function Messages(fs: seq<Fan>): (r: seq<Payload>)
    ensures |r| == |fs| && forall i :: 0 <= i < |fs| ==> r[i] == fs[i].m
  {
    seq(|fs|, i requires 0 <= i < |fs| => fs[i].m)
  }

  function Dropped(fs: seq<Fan>): nat {
    if fs == [] then 0 else
      var n := |fs| - 1;
      Dropped(fs[..n]) + (if fs[n].taken then 0 else 1)
  }

  lemma {:induction false} TakenCounts(fs: seq<Fan>)
    ensures |Taken(fs)| + Dropped(fs) == |fs|
  {
    if fs != [] {
      TakenCounts(fs[..|fs| - 1]);
    }
  }

  lemma {:induction false} TakenRises(fs: seq<Fan>)
    requires Rising(Messages(fs))
    ensures Rising(Taken(fs)) && forall x :: x in Taken(fs) ==> x in Messages(fs)
  {
    if fs != [] {
      var n := |fs| - 1;
      var front := fs[..n];
      forall i, j | 0 <= i < j < n ensures Messages(front)[i] < Messages(front)[j] {
        assert Messages(fs)[i] < Messages(fs)[j];
      }
      TakenRises(front);
      forall x | x in Taken(front) ensures x < fs[n].m && x in Messages(fs) {
        var k :| 0 <= k < n && Messages(front)[k] == x;
        assert Messages(fs)[k] == x && Messages(fs)[k] < Messages(fs)[n];
      }
      assert Messages(fs)[n] == fs[n].m;
      RisingAppend(Taken(front), fs[n].m);
    }
  }

  lemma BridgeConservationIn(s: Feed, g: ChanId)
    requires Inv(s) && g in s.gens
    ensures g in s.bus.chans
    ensures var gen, buf := s.gens[g], s.bus.chans[g].buf;
            |gen.fanned| == |gen.published| + |Held(gen.phase)| + |buf| + Dropped(gen.fanned)
    ensures var gen, buf := s.gens[g], s.bus.chans[g].buf;
            Subsequence(gen.published + Held(gen.phase) + Payloads(buf), Messages(gen.fanned))
  {
    hide Bus.Valid, HubInv, OwedInv, BusInv, ChanInv, GenInv, WatchInv, TodoInv, Payloads;
    InGens(s, g);
    TakenCounts(s.gens[g].fanned);
    TakenRises(s.gens[g].fanned);
    RisingSubsequence(Taken(s.gens[g].fanned), Messages(s.gens[g].fanned));
  }

  lemma PublishedRises(gen: Gen, cell: Chan<Message>, next: Payload)
    requires GenOk(gen, cell, next)
    ensures Rising(gen.published) && forall x :: x in gen.published ==> x in Messages(gen.fanned)
  {
    hide Taken, Payloads, Held;
    TakenRises(gen.fanned);
    assert gen.published == Taken(gen.fanned)[..|gen.published|];
  }

  // --- The second hop ----------------------------------------------------------------------------------------

  /** The messages of one bridge that entered the connection's channel. */
  function AcceptedOf(os: seq<Offer>, g: ChanId): seq<Payload> {
    if os == [] then [] else
      var n := |os| - 1;
      if os[n].taken && os[n].gen == g then AcceptedOf(os[..n], g) + [os[n].m] else AcceptedOf(os[..n], g)
  }

  function Missed(os: seq<Offer>): nat {
    if os == [] then 0 else
      var n := |os| - 1;
      Missed(os[..n]) + (if os[n].taken then 0 else 1)
  }

  lemma {:induction false} AcceptedCounts(os: seq<Offer>)
    ensures |Accepted(os)| + Missed(os) == |os|
  {
    if os != [] {
      AcceptedCounts(os[..|os| - 1]);
    }
  }

  lemma {:induction false} AcceptedOfRises(os: seq<Offer>, g: ChanId)
    requires Rising(Of(os, g))
    ensures Rising(AcceptedOf(os, g)) && forall x :: x in AcceptedOf(os, g) ==> x in Of(os, g)
  {
    if os != [] {
      var n := |os| - 1;
      var front := Of(os[..n], g);
      assert front <= Of(os, g);
      assert forall i, j :: 0 <= i < j < |front| ==> Of(os, g)[i] < Of(os, g)[j];
      AcceptedOfRises(os[..n], g);
      if os[n].gen == g {
        forall x | x in front ensures x < os[n].m {
          var k :| 0 <= k < |front| && front[k] == x;
          assert Of(os, g)[k] < Of(os, g)[|front|];
        }
        RisingAppend(AcceptedOf(os[..n], g), os[n].m);
      }
    }
  }

  lemma {:induction false} OfHolds(os: seq<Offer>, i: nat)
    requires i < |os|
    ensures os[i].m in Of(os, os[i].gen)
  {
    var n := |os| - 1;
    if i < n {
      OfHolds(os[..n], i);
    }
  }

  lemma {:induction false} OfOrders(os: seq<Offer>, i: nat, j: nat)
    requires i < j < |os| && os[i].gen == os[j].gen && Rising(Of(os, os[i].gen))
    ensures os[i].m < os[j].m
  {
    var n, g := |os| - 1, os[i].gen;
    var front := Of(os[..n], g);
    assert front <= Of(os, g);
    if j < n {
      assert Rising(front) by {
        assert forall k, l :: 0 <= k < l < |front| ==> Of(os, g)[k] < Of(os, g)[l];
      }
      OfOrders(os[..n], i, j);
    } else {
      OfHolds(os[..n], i);
      var k :| 0 <= k < |front| && front[k] == os[i].m;
      assert Of(os, g)[k] < Of(os, g)[|front|];
    }
  }

  lemma {:induction false} AcceptedHeld(os: seq<Offer>, x: Payload)
    requires x in Accepted(os)
    ensures exists i :: 0 <= i < |os| && os[i].m == x
  {
    var n := |os| - 1;
    if os[n].taken && os[n].m == x {
    } else {
      AcceptedHeld(os[..n], x);
      var i :| 0 <= i < n && os[..n][i].m == x;
      assert os[i].m == x;
    }
  }

  lemma {:induction false} AcceptedNoRepeat(os: seq<Offer>)
    requires forall i, j :: 0 <= i < j < |os| ==> os[i].m != os[j].m
    ensures NoRepeat(Accepted(os))
  {
    if os != [] {
      var n := |os| - 1;
      AcceptedNoRepeat(os[..n]);
      if os[n].taken {
        forall x | x in Accepted(os[..n]) ensures x != os[n].m {
          AcceptedHeld(os[..n], x);
        }
        NoRepeatAppend(Accepted(os[..n]), os[n].m);
      }
    }
  }

  /** What one bridge offered to the connection is a stretch of what it published. */
  lemma OffersOfBridge(s: Feed, ch: ChanId, g: ChanId)
    requires Inv(s) && ch in s.watches && g in s.gens && s.gens[g].post == s.watches[ch].post
    ensures Rising(Of(s.watches[ch].offered, g))
    ensures forall x :: x in Of(s.watches[ch].offered, g) ==> x in Messages(s.gens[g].fanned)
  {
    hide Bus.Valid, HubInv, OwedInv, BusInv, ChanInv, GenInv, WatchInv, TodoInv, Of, GenOk;
    InGens(s, g);
    PublishedRises(s.gens[g], s.bus.chans[g], s.next);
    OffersAre(s, ch, g);
    var w, published := s.watches[ch], s.gens[g].published;
    var due := Due(w, published, g);
    assert forall x :: x in due ==> x in published;
    assert Rising(due);
    assert Of(w.offered, g) <= due;
  }

  lemma OffersAre(s: Feed, ch: ChanId, g: ChanId)
    requires WatchInv(s.watches, s.gens, s.events) && ch in s.watches && g in s.gens && s.gens[g].post == s.watches[ch].post
    ensures Of(s.watches[ch].offered, g) + Pending(s.watches[ch], s.gens[g].phase) == Due(s.watches[ch], s.gens[g].published, g)
  {
    hide Of, Due, Accepted, BoundsOk;
    assert OffersOk(s.watches[ch], s.gens);
  }

  lemma OfferedBy(s: Feed, ch: ChanId, i: nat)
    requires WatchInv(s.watches, s.gens, s.events) && ch in s.watches && i < |s.watches[ch].offered|
    ensures var g := s.watches[ch].offered[i].gen; g in s.gens && s.gens[g].post == s.watches[ch].post
  {
    hide Of, Due, Accepted, BoundsOk;
    assert OffersOk(s.watches[ch], s.gens);
  }

  lemma NoneFannedTwice(s: Feed, g: ChanId, h: ChanId)
    requires GenInv(s.gens, s.bus.chans, s.next) && g in s.gens && h in s.gens && g != h
    ensures forall m :: m in Messages(s.gens[g].fanned) ==> m !in Messages(s.gens[h].fanned)
  {
    hide GenOk;
    assert Apart(s.gens[g].fanned, s.gens[h].fanned);
  }

  lemma OfferedOnce(s: Feed, ch: ChanId, i: nat, j: nat)
    requires Inv(s) && ch in s.watches && i < j < |s.watches[ch].offered|
    ensures s.watches[ch].offered[i].m != s.watches[ch].offered[j].m
  {
    hide Bus.Valid, HubInv, OwedInv, BusInv, ChanInv, GenInv, WatchInv, TodoInv;
    var os := s.watches[ch].offered;
    OfferedBy(s, ch, i);
    OfferedBy(s, ch, j);
    OffersOfBridge(s, ch, os[i].gen);
    OffersOfBridge(s, ch, os[j].gen);
    if os[i].gen == os[j].gen {
      OfOrders(os, i, j);
    } else {
      OfHolds(os, i);
      OfHolds(os, j);
      NoneFannedTwice(s, os[i].gen, os[j].gen);
    }
  }

  lemma Delivered(s: Feed, ch: ChanId)
    requires Inv(s) && ch in s.watches
    ensures ch in s.events && Accepted(s.watches[ch].offered) == s.watches[ch].received + s.events[ch].buf
  {
    hide Bus.Valid, HubInv, OwedInv, BusInv, GenInv, TodoInv, ChannelsValid, OffersOk, Accepted;
  }

  lemma AtMostOnceIn(s: Feed, ch: ChanId)
    requires Inv(s) && ch in s.watches
    ensures ch in s.events && NoRepeat(s.watches[ch].received + s.events[ch].buf)
  {
    hide Inv;
    Delivered(s, ch);
    var os := s.watches[ch].offered;
    forall i, j | 0 <= i < j < |os| ensures os[i].m != os[j].m {
      OfferedOnce(s, ch, i, j);
    }
    AcceptedNoRepeat(os);
  }

  lemma PerBridgeOrderIn(s: Feed, ch: ChanId, g: ChanId)
    requires Inv(s) && ch in s.watches && g in s.gens && s.gens[g].post == s.watches[ch].post
    ensures Subsequence(AcceptedOf(s.watches[ch].offered, g), Messages(s.gens[g].fanned))
  {
    hide Bus.Valid, HubInv, OwedInv, BusInv, ChanInv, GenInv, WatchInv, TodoInv;
    InGens(s, g);
    OffersOfBridge(s, ch, g);
    AcceptedOfRises(s.watches[ch].offered, g);
    RisingSubsequence(AcceptedOf(s.watches[ch].offered, g), Messages(s.gens[g].fanned));
  }

  /** How much bridge `g` had published when the connection registered, and when it was removed, or by now. */
  function Since(w: Watch, g: ChanId): nat {
    if g in w.since then w.since[g] else 0
  }

  function Until(w: Watch, g: ChanId, published: seq<Payload>): nat {
    if w.live then |published| else if g in w.until then w.until[g] else 0
  }

  lemma ConnectionConservationIn(s: Feed, ch: ChanId)
    requires Inv(s) && ch in s.watches
    ensures ch in s.events
    ensures var w := s.watches[ch]; |w.offered| == |w.received| + |s.events[ch].buf| + Missed(w.offered)
    ensures forall g :: g in s.gens && s.gens[g].post == s.watches[ch].post ==>
              Window(s.watches[ch], s.gens[g], g)
  {
    hide Bus.Valid, HubInv, OwedInv, BusInv, ChanInv, GenInv, TodoInv, Of, Accepted, Window;
    Delivered(s, ch);
    AcceptedCounts(s.watches[ch].offered);
    forall g | g in s.gens && s.gens[g].post == s.watches[ch].post ensures Window(s.watches[ch], s.gens[g], g) {
      BoundsHold(s, ch, g);
      OffersAre(s, ch, g);
      DueIsWindow(s.watches[ch], s.gens[g], g);
    }
  }

  /** A connection has been offered by a bridge, but for the message it is offering just now, exactly what that bridge
      published from the connection's registration to its removal, or to now. */
  ghost predicate Window(w: Watch, gen: Gen, g: ChanId) {
    var lo, hi := Since(w, g), Until(w, g, gen.published);
    lo <= hi <= |gen.published| && Of(w.offered, g) + Pending(w, gen.phase) == gen.published[lo..hi]
  }

  lemma BoundsHold(s: Feed, ch: ChanId, g: ChanId)
    requires WatchInv(s.watches, s.gens, s.events) && ch in s.watches && g in s.gens
    ensures BoundsOk(s.watches[ch], s.gens[g].published, g)
  {
    hide Of, Due, Accepted, BoundsOk;
    assert OffersOk(s.watches[ch], s.gens);
  }

  lemma DueIsWindow(w: Watch, gen: Gen, g: ChanId)
    requires BoundsOk(w, gen.published, g) && Of(w.offered, g) + Pending(w, gen.phase) == Due(w, gen.published, g)
    ensures Window(w, gen, g)
  {
    hide Of;
  }

  // --- Drops -------------------------------------------------------------------------------------------------

  lemma DropsAtFullBuffer(s: Feed, step: Step)
    requires Inv(s) && Can(s, step)
    ensures var r := Do(s, step);
            && (forall g :: g in s.gens && g in r.gens && Dropped(r.gens[g].fanned) > Dropped(s.gens[g].fanned) ==>
                  step.BusFanOut? && g in s.bus.chans && |s.bus.chans[g].buf| == BUFFER)
            && (forall ch :: ch in s.watches && ch in r.watches && Missed(r.watches[ch].offered) > Missed(s.watches[ch].offered) ==>
                  step.BridgeSend? && ch in s.events && |s.events[ch].buf| == BUFFER)
  {
    hide Inv, Dropped, Missed, DoFanOut, DoBridgeSend;
    match step
    case BusFanOut(name) => FanOutDrops(s, name);
    case BridgeSend(g, to) => SendDrops(s, g, to);
    case _ => QuietDrops(s, step);
  }

  lemma FanOutDrops(s: Feed, name: Name)
    requires Inv(s)
    ensures var r := DoFanOut(s, name);
            && r.watches == s.watches
            && forall g :: g in s.gens && g in r.gens && Dropped(r.gens[g].fanned) > Dropped(s.gens[g].fanned) ==>
                  g in s.bus.chans && |s.bus.chans[g].buf| == BUFFER
  {
    hide HubInv, OwedInv, BusInv, ChanInv, GenInv, WatchInv, TodoInv, ListsValid, FanOutPanics, Dropped;
    var r := DoFanOut(s, name);
    forall g | g in s.gens && g in r.gens && Dropped(r.gens[g].fanned) > Dropped(s.gens[g].fanned)
      ensures g in s.bus.chans && |s.bus.chans[g].buf| == BUFFER
    {
      if r.gens[g].fanned != s.gens[g].fanned {
        DroppedAppend(s.gens[g].fanned, s.next, !s.bus.chans[g].Full());
      }
    }
  }

  lemma DroppedAppend(fs: seq<Fan>, m: Payload, taken: bool)
    ensures Dropped(fs + [Fan(m, taken)]) == Dropped(fs) + (if taken then 0 else 1)
  {
    assert (fs + [Fan(m, taken)])[..|fs|] == fs;
  }

  lemma MissedAppend(os: seq<Offer>, o: Offer)
    ensures Missed(os + [o]) == Missed(os) + (if o.taken then 0 else 1)
  {
    assert (os + [o])[..|os|] == os;
  }

  lemma CellSizes(s: Feed)
    requires Inv(s)
    ensures forall ch :: ch in s.events ==> s.events[ch].cap == BUFFER && |s.events[ch].buf| <= BUFFER
  {
    hide Bus.Valid, HubInv, OwedInv, BusInv, ChannelsValid, GenInv, WatchInv, TodoInv;
  }

  lemma SendDrops(s: Feed, g: ChanId, to: Conn)
    requires Inv(s) && g in s.gens && s.gens[g].phase.Publishing?
    ensures var r := DoBridgeSend(s, g, to);
            && (forall h :: h in s.gens && h in r.gens ==> r.gens[h].fanned == s.gens[h].fanned)
            && (forall ch :: ch in s.watches && ch in r.watches && Missed(r.watches[ch].offered) > Missed(s.watches[ch].offered) ==>
                  ch in s.events && |s.events[ch].buf| == BUFFER)
  {
    hide Inv, Missed;
    CellSizes(s);
    var r := DoBridgeSend(s, g, to);
    forall ch | ch in s.watches && ch in r.watches && Missed(r.watches[ch].offered) > Missed(s.watches[ch].offered)
      ensures ch in s.events && |s.events[ch].buf| == BUFFER
    {
      MissedAppend(s.watches[ch].offered, Offer(g, s.gens[g].phase.m, !s.events[ch].Full()));
    }
  }

  lemma QuietPhase(gens: map<ChanId, Gen>, g: ChanId, phase: Phase)
    requires g in gens && !gens[g].phase.Exited?
    ensures QuietGens(gens, gens[g := gens[g].(phase := phase)])
  {
  }

  /** All steps but four. */
  predicate IsQuiet(step: Step) {
    !step.AcquireBus? && !step.AcquireStore? && !step.BridgeSend? && !step.BusFanOut?
  }

  lemma QuietStep(s: Feed, step: Step)
    requires Can(s, step) && IsQuiet(step)
    ensures Quiet(s, Do(s, step))
  {
    hide NoReader, DoBeginAcquire, DoReleaseStore, DoReleaseBus, DoCloseOne, DoCloseStore, DoBridgeReceive,
      DoBridgePublish,
      DoHandlerReceive, BusSubscribe, BusUnsubscribe, BusClose, BusReceive, UnsubscribePanics, BusClosePanics, QuietGens, QuietWatches;
    SameIsQuiet(s);
    match step
    case BridgeExit(g) => QuietPhase(s.gens, g, Exited);
    case BridgeDone(g) => QuietPhase(s.gens, g, Idle);
    case ReleaseStore => QuietRelease(s);
    case ReleaseBus(t) => QuietReleaseBus(s, t);
    case _ =>
  }

  lemma QuietRelease(s: Feed)
    requires s.call.Leaving?
    ensures Quiet(s, DoReleaseStore(s))
  {
    hide CancelGen, Stop, Drop, QuietGens, QuietWatches;
    StopIsQuiet(s.watches, s.gens);
    CancelIsQuiet(s.gens);
  }

  lemma StopIsQuiet(watches: map<ChanId, Watch>, gens: map<ChanId, Gen>)
    ensures QuietWatches(watches, watches)
    ensures forall ch :: ch in watches ==> QuietWatches(watches, watches[ch := Stop(watches[ch], gens)])
  {
  }

  lemma CancelIsQuiet(gens: map<ChanId, Gen>)
    ensures QuietGens(gens, gens)
    ensures forall g: ChanId :: QuietGens(gens, CancelGen(gens, g))
  {
  }

  lemma QuietReleaseBus(s: Feed, t: Transport)
    requires s.call.Detaching?
    ensures Quiet(s, DoReleaseBus(s, t))
  {
    hide UnsubscribePanics, BusUnsubscribe;
  }

  lemma SameIsQuiet(s: Feed)
    ensures QuietGens(s.gens, s.gens) && QuietWatches(s.watches, s.watches)
  {
  }

  /** A step that makes no offer changes neither history of offers. */
  lemma QuietDrops(s: Feed, step: Step)
    requires Inv(s) && Can(s, step) && !step.BusFanOut? && !step.BridgeSend?
    ensures forall g :: g in s.gens ==> g in Do(s, step).gens && Do(s, step).gens[g].fanned == s.gens[g].fanned
    ensures forall ch :: ch in s.watches ==> ch in Do(s, step).watches && Do(s, step).watches[ch].offered == s.watches[ch].offered
  {
    hide Inv, NoReader, DoAcquireBus, DoAcquireStore;
    match step
    case AcquireBus(redis, t) => NewBridgeDrops(s, redis, t);
    case AcquireStore(conn) => NewWatchDrops(s, conn);
    case _ => QuietStepDrops(s, step);
  }

  lemma QuietStepDrops(s: Feed, step: Step)
    requires Can(s, step) && IsQuiet(step)
    ensures forall g :: g in s.gens ==> g in Do(s, step).gens && Do(s, step).gens[g].fanned == s.gens[g].fanned
    ensures forall ch :: ch in s.watches ==> ch in Do(s, step).watches && Do(s, step).watches[ch].offered == s.watches[ch].offered
  {
    hide Can, Do;
    QuietStep(s, step);
  }

  lemma NewBridgeDrops(s: Feed, redis: ChanId, t: Transport)
    requires Inv(s) && s.call.AtBus? && redis !in s.bus.chans
    ensures var r := DoAcquireBus(s, redis, t);
            && r.watches == s.watches
            && (forall g :: g in s.gens ==> g in r.gens && r.gens[g] == s.gens[g])
            && (forall g :: g in r.gens && g !in s.gens ==> r.gens[g].fanned == [])
  {
    hide Bus.Valid, HubInv, OwedInv, BusInv, ChanInv, GenInv, WatchInv, TodoInv, BusSubscribe;
    BoundGens(s, redis);
  }

  lemma NewWatchDrops(s: Feed, conn: Conn)
    requires Inv(s) && s.call.AtStore?
    ensures var r := DoAcquireStore(s, conn);
            && r.gens == s.gens
            && (forall ch :: ch in s.watches ==> ch in r.watches && r.watches[ch] == s.watches[ch])
            && (forall ch :: ch in r.watches && ch !in s.watches ==> r.watches[ch].offered == [])
  {
    hide Bus.Valid, HubInv, OwedInv, BusInv, ChannelsValid, GenInv, WatchInv, TodoInv, Add;
  }

  // --- In every run ------------------------------------------------------------------------------------------

  /** Per bridge, every message fanned out to it has been published, is held, is still buffered, or was
      dropped; and the bridge publishes in the order of the transport. */
  lemma BridgeConservation(ss: seq<Feed>, steps: seq<Step>, n: nat, g: ChanId)
    requires Run(ss, steps) && n < |ss| && g in ss[n].gens
    ensures g in ss[n].bus.chans
    ensures var gen, buf := ss[n].gens[g], ss[n].bus.chans[g].buf;
            && |gen.fanned| == |gen.published| + |Held(gen.phase)| + |buf| + Dropped(gen.fanned)
            && Subsequence(gen.published + Held(gen.phase) + Payloads(buf), Messages(gen.fanned))
  {
    hide Inv, Can, Do, Subsequence, Payloads;
    RunKeepsInv(ss, steps);
    BridgeConservationIn(ss[n], g);
  }

  /** No message enters one connection's channel twice, whichever bridges carry it. */
  lemma AtMostOnce(ss: seq<Feed>, steps: seq<Step>, n: nat, ch: ChanId)
    requires Run(ss, steps) && n < |ss| && ch in ss[n].watches
    ensures ch in ss[n].events && NoRepeat(ss[n].watches[ch].received + ss[n].events[ch].buf)
  {
    hide Inv, Can, Do, NoRepeat;
    RunKeepsInv(ss, steps);
    AtMostOnceIn(ss[n], ch);
  }

  /** What a connection takes from one bridge is an in-order subsequence of what was fanned out to it. */
  lemma PerBridgeOrder(ss: seq<Feed>, steps: seq<Step>, n: nat, ch: ChanId, g: ChanId)
    requires Run(ss, steps) && n < |ss| && ch in ss[n].watches && g in ss[n].gens && ss[n].gens[g].post == ss[n].watches[ch].post
    ensures Subsequence(AcceptedOf(ss[n].watches[ch].offered, g), Messages(ss[n].gens[g].fanned))
  {
    hide Inv, Can, Do, Subsequence, AcceptedOf;
    RunKeepsInv(ss, steps);
    PerBridgeOrderIn(ss[n], ch, g);
  }

  /** Per connection, registered or removed: every offer was received, is still buffered, or was dropped; and each bridge
      of its post has offered it exactly what that bridge published while the connection was registered, but for a
      message it is offering just now. */
  lemma ConnectionConservation(ss: seq<Feed>, steps: seq<Step>, n: nat, ch: ChanId)
    requires Run(ss, steps) && n < |ss| && ch in ss[n].watches
    ensures ch in ss[n].events
    ensures var w := ss[n].watches[ch]; |w.offered| == |w.received| + |ss[n].events[ch].buf| + Missed(w.offered)
    ensures forall g :: g in ss[n].gens && ss[n].gens[g].post == ss[n].watches[ch].post ==>
              Window(ss[n].watches[ch], ss[n].gens[g], g)
  {
    hide Inv, Can, Do, Missed, Window;
    RunKeepsInv(ss, steps);
    ConnectionConservationIn(ss[n], ch);
  }

  /** A message is dropped only where a buffer of 64 is full. */
  lemma DropsOnlyWhenFull(ss: seq<Feed>, steps: seq<Step>, n: nat)
    requires Run(ss, steps) && n < |steps|
    ensures var s, r, step := ss[n], ss[n + 1], steps[n];
            && (forall g :: g in s.gens && g in r.gens && Dropped(r.gens[g].fanned) > Dropped(s.gens[g].fanned) ==>
                  step.BusFanOut? && g in s.bus.chans && |s.bus.chans[g].buf| == BUFFER)
            && (forall ch :: ch in s.watches && ch in r.watches && Missed(r.watches[ch].offered) > Missed(s.watches[ch].offered) ==>
                  step.BridgeSend? && ch in s.events && |s.events[ch].buf| == BUFFER)
  {
    hide Inv, Can, Do, Missed, Dropped;
    RunKeepsInv(ss, steps);
    DropsAtFullBuffer(ss[n], steps[n]);
  }
}
