/**
 All interleavings of the home-feed delivery path.

 A step is one critical section, or one channel operation of a goroutine that holds no lock.  A call of
 the hub holds the hub's mutex for several steps; between them the bus's reader, the bridges, the
 handlers and other users of the bus go on.  A bridge publishes under the store's read lock, so its
 sends are separate steps and several bridges may publish at once, while the store's writers wait.
 */
module FeedRuns {
  import opened GoChannels
  import opened ChannelNames
  import opened PubSub
  import opened SubscriptionStore
  import opened FeedWiring

  /** Where a bridge goroutine is: at its select, between the receive and Publish, inside Publish with
      the connections it has not offered the message to yet, or gone. */
  datatype Phase = Idle | Holding(m: Payload) | Publishing(m: Payload, todo: set<Conn>) | Exited

  /** A message fanned out to a bridge's channel, and whether the channel had room for it. */
  datatype Fan = Fan(m: Payload, taken: bool)

  /** A bridge goroutine.  `fanned` and `published` are history. */
  datatype Gen = Gen(post: Post, cancelled: bool, phase: Phase, fanned: seq<Fan>, published: seq<Payload>)

  /** A message offered to a connection by a bridge, and whether the event channel had room for it. */
  datatype Offer = Offer(gen: ChanId, m: Payload, taken: bool)

  /** History of one connection: what each bridge had published when it registered (`since`) and when it
      was removed (`until`), what it was offered, and what its handler has received. */
  datatype Watch = Watch(post: Post, conn: Conn, live: bool, since: map<ChanId, nat>, until: map<ChanId, nat>,
                         offered: seq<Offer>, received: seq<Payload>)

  /** What the holder of the hub's mutex does next. */
  datatype Call =
    | Free
    | AtBus(post: Post, userID: string, ch: ChanId)
    | AtStore(post: Post, userID: string, ch: ChanId)
    | Leaving(post: Post, conn: Conn)
    | Detaching(post: Post)
    | ClosingBus(todo: set<Post>)
    | ClosingStore

  datatype Feed = Feed(
    bus: Bus,
    posts: map<Post, PostEntry>,
    subs: Subs,
    events: Table<Payload>,
    gens: map<ChanId, Gen>,
    call: Call,
    watches: map<ChanId, Watch>,
    next: Payload,               // messages the transport has delivered so far
    shut: bool,                  // the hub's Close has begun
    owed: set<(Post, Conn)>,     // acquired, and not yet released by their handlers
    panicked: bool
  )

  const INIT: Feed := Feed(EMPTY_BUS, map[], map[], map[], map[], Free, map[], 0, false, {}, false)

  function Ctl(gens: map<ChanId, Gen>): (r: map<ChanId, Bridge>)
    ensures r.Keys == gens.Keys
  {
    map g | g in gens :: Bridge(gens[g].post, gens[g].cancelled)
  }

  function View(s: Feed): HubView {
    HubView(s.bus, s.posts, s.subs, s.events, Ctl(s.gens))
  }

  // --- When Go would panic --------------------------------------------------------------------------

  ghost predicate StoreClosePanics(subs: Subs, events: Table<Payload>) {
    || (exists p, c :: Has(subs, p, c) && !CanClose(events, Inner(subs, p)[c].ch))
    || (exists p, c, q, d :: Has(subs, p, c) && Has(subs, q, d) && (p, c) != (q, d)
                             && Inner(subs, p)[c].ch == Inner(subs, q)[d].ch)
  }

  ghost function Unless(s: Feed, panics: bool, r: Feed): Feed {
    if panics then s.(panicked := true) else r
  }

  // --- Steps ------------------------------------------------------------------------------------------

  datatype Step =
    | BeginAcquire(post: Post, userID: string, ch: ChanId)
    | AcquireBus(redis: ChanId, t: Transport)
    | AcquireStore(conn: Conn)
    | BeginRelease(post: Post, conn: Conn)
    | ReleaseStore
    | ReleaseBus(t: Transport)
    | BeginClose
    | CloseOne(post: Post, t: Transport)
    | CloseEntries
    | CloseStore
    | BusFanOut(name: Name)
    | BusShut
    | OtherSubscribe(room: string, out: ChanId, t: Transport)
    | OtherUnsubscribe(room: string, sub: ChanId, t: Transport)
    | OtherReceive(c: ChanId)
    | BridgeReceive(g: ChanId)
    | BridgeExit(g: ChanId)
    | BridgePublish(g: ChanId)
    | BridgeSend(g: ChanId, to: Conn)
    | BridgeDone(g: ChanId)
    | HandlerReceive(ch: ChanId)

  /** The store's write lock is free of readers. */
  ghost predicate NoReader(gens: map<ChanId, Gen>) {
    forall g :: g in gens ==> !gens[g].phase.Publishing?
  }

  /** The steps the code can take.  Channels and connection IDs are fresh; a handler releases what it
      acquired, once; and nothing is acquired after Close, which the hub's documentation forbids. */
  ghost predicate Can(s: Feed, step: Step) {
    && !s.panicked
    && match step
       case BeginAcquire(_, _, ch) => s.call.Free? && !s.shut && ch !in s.events
       case AcquireBus(redis, _) => s.call.AtBus? && redis !in s.bus.chans
       case AcquireStore(conn) => s.call.AtStore? && NoReader(s.gens) && forall ch :: ch in s.watches ==> s.watches[ch].conn != conn
       case BeginRelease(post, conn) => s.call.Free? && (post, conn) in s.owed
       case ReleaseStore => s.call.Leaving? && NoReader(s.gens)
       case ReleaseBus(_) => s.call.Detaching?
       case BeginClose => s.call.Free?
       case CloseOne(post, _) => s.call.ClosingBus? && post in s.call.todo
       case CloseEntries => s.call.ClosingBus? && s.call.todo == {}
       case CloseStore => s.call.ClosingStore? && NoReader(s.gens)
       case BusFanOut(_) => true
       case BusShut => true
       case OtherSubscribe(_, out, _) => out !in s.bus.chans
       case OtherUnsubscribe(_, _, _) => true
       case OtherReceive(c) => c !in s.gens && c in s.bus.chans && s.bus.chans[c].buf != []
       case BridgeReceive(g) => g in s.gens && s.gens[g].phase.Idle? && g in s.bus.chans && s.bus.chans[g].buf != []
       case BridgeExit(g) => g in s.gens && s.gens[g].phase.Idle? && g in s.bus.chans &&
           (s.gens[g].cancelled || (s.bus.chans[g].closed && s.bus.chans[g].buf == []))
       case BridgePublish(g) => g in s.gens && s.gens[g].phase.Holding?
       case BridgeSend(g, to) => g in s.gens && s.gens[g].phase.Publishing? && to in s.gens[g].phase.todo
       case BridgeDone(g) => g in s.gens && s.gens[g].phase.Publishing? && s.gens[g].phase.todo == {}
       case HandlerReceive(ch) => ch in s.watches && ch in s.events && s.events[ch].buf != []
  }

  ghost function Do(s: Feed, step: Step): Feed
    requires Can(s, step)
  {
    match step
    case BeginAcquire(post, userID, ch) => DoBeginAcquire(s, post, userID, ch)
    case AcquireBus(redis, t) => DoAcquireBus(s, redis, t)
    case AcquireStore(conn) => DoAcquireStore(s, conn)
    case BeginRelease(post, conn) => s.(call := Leaving(post, conn), owed := s.owed - {(post, conn)})
    case ReleaseStore => DoReleaseStore(s)
    case ReleaseBus(t) => DoReleaseBus(s, t)
    case BeginClose => s.(call := ClosingBus(s.posts.Keys), shut := true)
    case CloseOne(post, t) => DoCloseOne(s, post, t)
    case CloseEntries => s.(call := ClosingStore, posts := map[])
    case CloseStore => DoCloseStore(s)
    case BusFanOut(name) => DoFanOut(s, name)
    case BusShut => Unless(s, BusClosePanics(s.bus), s.(bus := BusClose(s.bus)))
    case OtherSubscribe(room, out, t) => s.(bus := BusSubscribe(s.bus, RoomChannel(room), out, t).0)
    case OtherUnsubscribe(room, sub, t) =>
      Unless(s, UnsubscribePanics(s.bus, RoomChannel(room), sub), s.(bus := BusUnsubscribe(s.bus, RoomChannel(room), sub, t).0))
    case OtherReceive(c) => s.(bus := BusReceive(s.bus, c))
    case BridgeReceive(g) => DoBridgeReceive(s, g)
    case BridgeExit(g) => s.(gens := s.gens[g := s.gens[g].(phase := Exited)])
    case BridgePublish(g) => DoBridgePublish(s, g)
    case BridgeSend(g, to) => DoBridgeSend(s, g, to)
    case BridgeDone(g) => s.(gens := s.gens[g := s.gens[g].(phase := Idle)])
    case HandlerReceive(ch) => DoHandlerReceive(s, ch)
  }

  /** No bridge or connection is added, no message is offered, no exited bridge wakes up and no connection is
      registered. */
  ghost predicate Quiet(s: Feed, r: Feed) {
    && QuietGens(s.gens, r.gens)
    && QuietWatches(s.watches, r.watches)
  }

  ghost predicate QuietGens(a: map<ChanId, Gen>, b: map<ChanId, Gen>) {
    && a.Keys == b.Keys
    && (forall g :: g in a ==> a[g].post == b[g].post && a[g].fanned == b[g].fanned && (a[g].phase.Exited? ==> b[g].phase.Exited?))
  }

  ghost predicate QuietWatches(a: map<ChanId, Watch>, b: map<ChanId, Watch>) {
    && a.Keys == b.Keys
    && (forall ch :: ch in a ==> a[ch].post == b[ch].post && a[ch].offered == b[ch].offered && (b[ch].live ==> a[ch].live))
  }

  function DoBeginAcquire(s: Feed, post: Post, userID: string, ch: ChanId): (r: Feed)
    ensures Quiet(s, r)
    ensures r.subs == s.subs
  {
    var made := s.(events := s.events[ch := Fresh()]);
    if post in s.posts
    then made.(call := AtStore(post, userID, ch), posts := Entered(s.posts, post, 0))
    else made.(call := AtBus(post, userID, ch))
  }

  function DoAcquireBus(s: Feed, redis: ChanId, t: Transport): (r: Feed)
    requires s.call.AtBus?
    ensures r.subs == s.subs
  {
    var post := s.call.post;
    var (bus, err) := BusSubscribe(s.bus, PostChannel(post), redis, t);
    if err.NoError?
    then s.(bus := bus, call := AtStore(post, s.call.userID, s.call.ch),
            posts := Entered(s.posts, post, redis), gens := s.gens[redis := Gen(post, false, Idle, [], [])])
    else s.(bus := bus, call := Free)
  }

  /** How much each bridge has published. */
  function Counts(gens: map<ChanId, Gen>): map<ChanId, nat> {
    map g | g in gens :: |gens[g].published|
  }

  function DoAcquireStore(s: Feed, conn: Conn): (r: Feed)
    requires s.call.AtStore?
    ensures r.bus == s.bus && r.gens == s.gens && r.posts == s.posts
  {
    var post, ch := s.call.post, s.call.ch;
    s.(call := Free,
       subs := Add(s.subs, post, conn, Subscription(s.call.userID, ch)),
       watches := s.watches[ch := Watch(post, conn, true, Counts(s.gens), map[], [], [])],
       owed := s.owed + {(post, conn)})
  }

  function Stop(w: Watch, gens: map<ChanId, Gen>): Watch {
    if w.live then w.(live := false, until := Counts(gens)) else w
  }

  function CancelGen(gens: map<ChanId, Gen>, g: ChanId): map<ChanId, Gen> {
    if g in gens then gens[g := gens[g].(cancelled := true)] else gens
  }

  function DoReleaseStore(s: Feed): (r: Feed)
    requires s.call.Leaving?
    ensures r.bus == s.bus
  {
    var post, conn := s.call.post, s.call.conn;
    var ch := if Has(s.subs, post, conn) then s.subs[post][conn].ch else 0;
    var dropped := s.(
      subs := Drop(s.subs, post, conn),
      watches := if Has(s.subs, post, conn) && ch in s.watches then s.watches[ch := Stop(s.watches[ch], s.gens)] else s.watches);
    if post !in s.posts then dropped.(call := Free) else
      var e := s.posts[post].(refs := s.posts[post].refs - 1);
      if e.refs > 0 then dropped.(call := Free, posts := s.posts[post := e])
      else dropped.(call := Detaching(post), posts := s.posts[post := e], gens := CancelGen(s.gens, e.redis))
  }

  ghost function DoReleaseBus(s: Feed, t: Transport): (r: Feed)
    requires s.call.Detaching?
    ensures r.subs == s.subs
  {
    var post := s.call.post;
    var redis := if post in s.posts then s.posts[post].redis else 0;
    Unless(s, UnsubscribePanics(s.bus, PostChannel(post), redis),
           s.(call := Free, bus := BusUnsubscribe(s.bus, PostChannel(post), redis, t).0, posts := s.posts - {post}))
  }

  ghost function DoCloseOne(s: Feed, post: Post, t: Transport): (r: Feed)
    requires s.call.ClosingBus?
    ensures Quiet(s, r)
    ensures r.subs == s.subs
  {
    var redis := if post in s.posts then s.posts[post].redis else 0;
    Unless(s, UnsubscribePanics(s.bus, PostChannel(post), redis),
           s.(call := ClosingBus(s.call.todo - {post}), gens := CancelGen(s.gens, redis),
              bus := BusUnsubscribe(s.bus, PostChannel(post), redis, t).0))
  }

  ghost function DoCloseStore(s: Feed): (r: Feed)
    ensures Quiet(s, r)
  {
    Unless(s, StoreClosePanics(s.subs, s.events),
           s.(call := Free, events := CloseAll(s.events, AllTargets(s.subs)), subs := map[],
              watches := map ch | ch in s.watches :: Stop(s.watches[ch], s.gens)))
  }

  function Fanned(gen: Gen, m: Payload, full: bool): Gen {
    gen.(fanned := gen.fanned + [Fan(m, !full)])
  }

  ghost function DoFanOut(s: Feed, name: Name): (r: Feed)
    ensures r.subs == s.subs
  {
    Unless(s, FanOutPanics(s.bus, name),
           s.(bus := PubSub.FanOut(s.bus, Message(name, s.next)), next := s.next + 1,
              gens := map g | g in s.gens ::
                if !s.bus.closed && g in s.bus.List(name) && g in s.bus.chans
                then Fanned(s.gens[g], s.next, s.bus.chans[g].Full()) else s.gens[g]))
  }

  function DoBridgeReceive(s: Feed, g: ChanId): (r: Feed)
    requires g in s.gens && s.gens[g].phase.Idle? && g in s.bus.chans && s.bus.chans[g].buf != []
    ensures Quiet(s, r)
    ensures r.subs == s.subs
  {
    s.(bus := BusReceive(s.bus, g),
       gens := s.gens[g := s.gens[g].(phase := Holding(s.bus.chans[g].buf[0].payload))])
  }

  function DoBridgePublish(s: Feed, g: ChanId): (r: Feed)
    requires g in s.gens && s.gens[g].phase.Holding?
    ensures Quiet(s, r)
    ensures r.subs == s.subs
  {
    var gen := s.gens[g];
    s.(gens := s.gens[g := gen.(phase := Publishing(gen.phase.m, Inner(s.subs, gen.post).Keys),
                                published := gen.published + [gen.phase.m])])
  }

  ghost function DoBridgeSend(s: Feed, g: ChanId, to: Conn): (r: Feed)
    requires g in s.gens && s.gens[g].phase.Publishing?
    ensures r.subs == s.subs
  {
    var gen := s.gens[g];
    var left := s.gens[g := gen.(phase := Publishing(gen.phase.m, gen.phase.todo - {to}))];
    if !Has(s.subs, gen.post, to) then s.(gens := left) else
      var ch := s.subs[gen.post][to].ch;
      if ch !in s.events || ch !in s.watches then s.(gens := left) else
      Unless(s, s.events[ch].closed,
             s.(gens := left,
                events := s.events[ch := s.events[ch].Offer(gen.phase.m)],
                watches := s.watches[ch := s.watches[ch].(offered :=
                  s.watches[ch].offered + [Offer(g, gen.phase.m, !s.events[ch].Full())])]))
  }

  function DoHandlerReceive(s: Feed, ch: ChanId): (r: Feed)
    requires ch in s.watches && ch in s.events && s.events[ch].buf != []
    ensures Quiet(s, r)
    ensures r.subs == s.subs
  {
    var cell := s.events[ch];
    s.(events := s.events[ch := cell.(buf := cell.buf[1..])],
       watches := s.watches[ch := s.watches[ch].(received := s.watches[ch].received + [cell.buf[0]])])
  }

  // --- Runs -------------------------------------------------------------------------------------------

  /** A run that starts anywhere. */
  ghost predicate Continues(ss: seq<Feed>, steps: seq<Step>) {
    && |ss| == |steps| + 1
    && forall i :: 0 <= i < |steps| ==> Can(ss[i], steps[i]) && ss[i + 1] == Do(ss[i], steps[i])
  }

  ghost predicate Reaches(s: Feed, r: Feed) {
    exists ss, steps :: Continues(ss, steps) && ss[0] == s && ss[|steps|] == r
  }

  lemma ReachesItself(s: Feed)
    ensures Reaches(s, s)
  {
    var ss: seq<Feed>, steps: seq<Step> := [s], [];
    assert Continues(ss, steps) && ss[0] == s && ss[|steps|] == s;
  }

  lemma ReachesNext(s: Feed, m: Feed, step: Step)
    requires Reaches(s, m) && Can(m, step)
    ensures Reaches(s, Do(m, step))
  {
    hide Can, Do;
    var ss, steps :| Continues(ss, steps) && ss[0] == s && ss[|steps|] == m;
    var ss', steps' := ss + [Do(m, step)], steps + [step];
    forall i | 0 <= i < |steps'| ensures Can(ss'[i], steps'[i]) && ss'[i + 1] == Do(ss'[i], steps'[i]) {
      if i < |steps| {
        assert ss'[i] == ss[i] && ss'[i + 1] == ss[i + 1] && steps'[i] == steps[i];
      }
    }
    assert Continues(ss', steps') && ss'[0] == s && ss'[|steps'|] == Do(m, step);
  }

  ghost predicate Run(ss: seq<Feed>, steps: seq<Step>) {
    && |ss| == |steps| + 1
    && ss[0] == INIT
    && forall i :: 0 <= i < |steps| ==> Can(ss[i], steps[i]) && ss[i + 1] == Do(ss[i], steps[i])
  }
}
