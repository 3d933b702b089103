/** When nothing is lost. */
module FeedOrder {
  import opened GoChannels
  import opened PubSub
  import opened FeedRuns
  import opened FeedInvariant
  import opened FeedTheorems
  import opened FeedDelivery

  // --- No full buffer, no loss -------------------------------------------------------------------------------

  ghost predicate NoneFull(s: Feed) {
    && (forall c :: c in s.bus.chans ==> |s.bus.chans[c].buf| < BUFFER)
    && (forall ch :: ch in s.events ==> |s.events[ch].buf| < BUFFER)
  }

  ghost predicate NothingLost(s: Feed) {
    && (forall g :: g in s.gens ==> Dropped(s.gens[g].fanned) == 0)
    && (forall ch :: ch in s.watches ==> Missed(s.watches[ch].offered) == 0)
  }

  /** A step keeps every bridge and connection, and those it adds start without history. */
  lemma Newcomers(s: Feed, step: Step)
    requires Inv(s) && Can(s, step)
    ensures var r := Do(s, step);
            && (forall g :: g in s.gens ==> g in r.gens)
            && (forall g :: g in r.gens && g !in s.gens ==> r.gens[g].fanned == [])
            && (forall ch :: ch in s.watches ==> ch in r.watches)
            && (forall ch :: ch in r.watches && ch !in s.watches ==> r.watches[ch].offered == [])
  {
    hide Inv, NoReader, DoAcquireBus, DoAcquireStore, FanOutPanics;
    match step
    case AcquireBus(redis, t) => NewBridgeDrops(s, redis, t);
    case AcquireStore(conn) => NewWatchDrops(s, conn);
    case BridgeSend(g, to) =>
    case BusFanOut(name) =>
    case _ => QuietNewcomers(s, step);
  }

  lemma QuietNewcomers(s: Feed, step: Step)
    requires Can(s, step) && IsQuiet(step)
    ensures Do(s, step).gens.Keys == s.gens.Keys && Do(s, step).watches.Keys == s.watches.Keys
  {
    hide Can, Do;
    QuietStep(s, step);
  }

  lemma NoLossStep(s: Feed, step: Step)
    requires Inv(s) && Can(s, step) && NoneFull(s) && NothingLost(s)
    ensures NothingLost(Do(s, step))
  {
    hide Inv, Can, Do, Dropped, Missed;
    Newcomers(s, step);
    DropsAtFullBuffer(s, step);
    EmptyLosesNothing();
  }

  lemma EmptyLosesNothing()
    ensures Dropped([]) == 0 && Missed([]) == 0
  {
  }

  /** In a run in which no buffer is ever full, no bridge and no connection loses a message. */
  lemma {:induction false} NoLoss(ss: seq<Feed>, steps: seq<Step>)
    requires Run(ss, steps) && forall i :: 0 <= i < |ss| ==> NoneFull(ss[i])
    ensures NothingLost(ss[|steps|])
  {
    hide Inv, Can, Do, NothingLost, NoneFull;
    if steps == [] {
      InitLost();
    } else {
      var n := |steps| - 1;
      assert Run(ss[..n + 1], steps[..n]);
      NoLoss(ss[..n + 1], steps[..n]);
      RunKeepsInv(ss, steps);
      NoLossStep(ss[n], steps[n]);
    }
  }

  lemma InitLost()
    ensures NothingLost(INIT)
  {
  }

  lemma {:induction false} AllAccepted(os: seq<Offer>, g: ChanId)
    requires Missed(os) == 0
    ensures AcceptedOf(os, g) == Of(os, g)
  {
    if os != [] {
      AllAccepted(os[..|os| - 1], g);
    }
  }

  /** So what a registered connection takes from a bridge is then exactly what the bridge has published
      since the connection registered. */
  lemma WholeStream(ss: seq<Feed>, steps: seq<Step>, ch: ChanId, g: ChanId)
    requires Run(ss, steps) && forall i :: 0 <= i < |ss| ==> NoneFull(ss[i])
    requires var s := ss[|steps|];
             && ch in s.watches && s.watches[ch].live
             && g in s.gens && s.gens[g].post == s.watches[ch].post && !s.gens[g].phase.Publishing?
    ensures var w, gen := ss[|steps|].watches[ch], ss[|steps|].gens[g];
            var since := if g in w.since then w.since[g] else 0;
            since <= |gen.published| && AcceptedOf(w.offered, g) == gen.published[since..]
  {
    hide Inv, Can, Do, NoneFull, Of, AcceptedOf, Missed, Dropped;
    NoLoss(ss, steps);
    RunKeepsInv(ss, steps);
    ConnectionConservationIn(ss[|steps|], ch);
    AllAccepted(ss[|steps|].watches[ch].offered, g);
  }
}
