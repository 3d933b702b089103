/** What every step of the delivery path keeps. */
module FeedInvariant {
  import opened GoChannels
  import opened ChannelNames
  import opened PubSub
  import opened SubscriptionStore
  import opened FeedWiring
  import opened FeedRuns

  // --- Hub and store -----------------------------------------------------------------------------

  function Starting(call: Call): set<Post> {
    if call.AtStore? then {call.post} else {}
  }

  /** Posts with an entry but, at this point of the call, possibly no connection. */
  function Extra(call: Call): set<Post> {
    if call.AtStore? || call.Detaching? then {call.post} else {}
  }

  /** Posts whose entry's bridge the current call has cancelled. */
  function Cancelled(call: Call, posts: map<Post, PostEntry>): set<Post> {
    match call
    case Detaching(post) => {post}
    case ClosingBus(todo) => posts.Keys - todo
    case _ => {}
  }

  /** Posts whose entry the current call has taken off the bus. */
  function OffBus(call: Call, posts: map<Post, PostEntry>): set<Post> {
    if call.ClosingBus? then posts.Keys - call.todo else {}
  }

  /** The posts with an entry are the posts with a connection, up to the call in progress. */
  ghost predicate KeysMatch(posts: set<Post>, subs: set<Post>, call: Call) {
    && (if call.ClosingStore? then posts == {} else posts == subs + Extra(call))
    && (call.AtBus? ==> call.post !in posts)
    && (call.Detaching? ==> call.post !in subs)
    && (call.ClosingBus? ==> call.todo <= posts)
  }

  ghost predicate HubInv(posts: map<Post, PostEntry>, subs: Subs, call: Call) {
    && NoEmptyInner(subs)
    && KeysMatch(posts.Keys, subs.Keys, call)
    && Counted(posts, subs, Starting(call))
  }

  ghost predicate OwedInv(subs: Subs, call: Call, shut: bool, owed: set<(Post, Conn)>) {
    && (call.AtBus? || call.AtStore? || call.Detaching? ==> !shut)
    && (call.ClosingBus? || call.ClosingStore? ==> shut)
    && (shut && (call.Free? || call.Leaving?) ==> subs == map[])
    && (!shut ==> forall p, c :: (p, c) in owed ==> Has(subs, p, c))
    && (call.Leaving? ==> (call.post, call.conn) !in owed && (!shut ==> Has(subs, call.post, call.conn)))
  }

  // --- Hub and bus ---------------------------------------------------------------------------------

  ghost predicate BusInv(posts: map<Post, PostEntry>, bus: Bus, bridges: map<ChanId, Bridge>, call: Call) {
    && Bridged(posts, bridges, Cancelled(call, posts))
    && (!bus.closed ==> Consumed(posts, bus.subs, OffBus(call, posts)))
    && (forall g :: g in bridges ==> g in bus.chans && g in bus.madeFor && bus.madeFor[g] == PostChannel(bridges[g].post))
  }

  // --- Event channels --------------------------------------------------------------------------------

  ghost function OwnerOf(watches: map<ChanId, Watch>): (r: Owner)
    ensures r.Keys == watches.Keys
  {
    map ch | ch in watches :: (watches[ch].post, watches[ch].conn)
  }

  ghost predicate ChanInv(subs: Subs, events: Table<Payload>, watches: map<ChanId, Watch>, call: Call) {
    && ChannelsValid(subs, events, OwnerOf(watches))
    && (forall ch :: ch in watches ==> ch in events)
    && (forall ch :: ch in watches ==> (watches[ch].live <==>
          Has(subs, watches[ch].post, watches[ch].conn) && Inner(subs, watches[ch].post)[watches[ch].conn].ch == ch))
    && (call.AtBus? || call.AtStore? ==> call.ch in events && !events[call.ch].closed && events[call.ch].buf == [] && call.ch !in watches)
    && (forall ch :: ch in events ==> events[ch].cap == BUFFER && |events[ch].buf| <= BUFFER)
  }

  // --- The first hop: bus to bridge --------------------------------------------------------------------

  /** The messages a channel took, in order. */
  function Taken(fs: seq<Fan>): seq<Payload> {
    if fs == [] then [] else
      var n := |fs| - 1;
      if fs[n].taken then Taken(fs[..n]) + [fs[n].m] else Taken(fs[..n])
  }

  function Payloads(ms: seq<Message>): (r: seq<Payload>)
    ensures |r| == |ms|
  {
    seq(|ms|, i requires 0 <= i < |ms| => ms[i].payload)
  }

  function Held(phase: Phase): seq<Payload> {
    if phase.Holding? then [phase.m] else []
  }

  /** Everything a bridge's channel took has been published, is held by the bridge, or is still in the
      buffer, in this order; messages come in the order of the transport. */
  ghost predicate GenOk(gen: Gen, cell: Chan<Message>, next: Payload) {
    && Taken(gen.fanned) == gen.published + Held(gen.phase) + Payloads(cell.buf)
    && (forall i :: 0 <= i < |gen.fanned| ==> gen.fanned[i].m < next)
    && (forall i, j :: 0 <= i < j < |gen.fanned| ==> gen.fanned[i].m < gen.fanned[j].m)
    && (gen.phase.Publishing? ==> gen.published != [] && gen.published[|gen.published| - 1] == gen.phase.m)
    && (gen.phase.Exited? ==> gen.cancelled || cell.closed)
  }

  ghost predicate Apart(a: seq<Fan>, b: seq<Fan>) {
    forall i, j :: 0 <= i < |a| && 0 <= j < |b| ==> a[i].m != b[j].m
  }

  /** No message was fanned out to two bridges. */
  ghost predicate GenInv(gens: map<ChanId, Gen>, chans: Table<Message>, next: Payload) {
    && (forall g :: g in gens ==> g in chans && GenOk(gens[g], chans[g], next))
    && (forall g, h :: g in gens && h in gens && g != h ==> Apart(gens[g].fanned, gens[h].fanned))
  }

  // --- The second hop: bridge to connection ------------------------------------------------------------

  /** The messages an event channel took, in order. */
  function Accepted(os: seq<Offer>): seq<Payload> {
    if os == [] then [] else
      var n := |os| - 1;
      if os[n].taken then Accepted(os[..n]) + [os[n].m] else Accepted(os[..n])
  }

  /** The offers of one bridge. */
  function Of(os: seq<Offer>, g: ChanId): seq<Payload> {
    if os == [] then [] else
      var n := |os| - 1;
      if os[n].gen == g then Of(os[..n], g) + [os[n].m] else Of(os[..n], g)
  }

  /** What a bridge published while the connection was registered. */
  function Due(w: Watch, published: seq<Payload>, g: ChanId): seq<Payload> {
    var lo := if g in w.since then w.since[g] else 0;
    var hi := if w.live then |published| else if g in w.until then w.until[g] else 0;
    if lo <= hi <= |published| then published[lo..hi] else []
  }

  /** The message a bridge is publishing and has not offered to this connection yet. */
  function Pending(w: Watch, phase: Phase): seq<Payload> {
    if phase.Publishing? && w.live && w.conn in phase.todo then [phase.m] else []
  }

  ghost predicate BoundsOk(w: Watch, published: seq<Payload>, g: ChanId) {
    && (g in w.since ==> w.since[g] <= |published|)
    && (!w.live && g in w.until ==> w.until[g] <= |published|)
    && (!w.live && g in w.since ==> g in w.until && w.since[g] <= w.until[g])
  }

  /** A connection has been offered, by each bridge of its post, exactly what that bridge published while
      the connection was registered, once each and in order. */
  ghost predicate OffersOk(w: Watch, gens: map<ChanId, Gen>) {
    && (forall i :: 0 <= i < |w.offered| ==> w.offered[i].gen in gens && gens[w.offered[i].gen].post == w.post)
    && w.since.Keys <= gens.Keys && w.until.Keys <= gens.Keys
    && (forall g :: g in gens ==> BoundsOk(w, gens[g].published, g))
    && (forall g :: g in gens && gens[g].post == w.post ==>
          Of(w.offered, g) + Pending(w, gens[g].phase) == Due(w, gens[g].published, g))
  }

  ghost predicate WatchInv(watches: map<ChanId, Watch>, gens: map<ChanId, Gen>, events: Table<Payload>) {
    && (forall ch :: ch in watches ==> OffersOk(watches[ch], gens))
    && (forall ch :: ch in watches && ch in events ==> Accepted(watches[ch].offered) == watches[ch].received + events[ch].buf)
  }

  ghost predicate TodoInv(gens: map<ChanId, Gen>, subs: Subs) {
    forall g :: g in gens && gens[g].phase.Publishing? ==> gens[g].phase.todo <= Inner(subs, gens[g].post).Keys
  }

  ghost predicate Inv(s: Feed) {
    && !s.panicked
    && s.bus.Valid()
    && HubInv(s.posts, s.subs, s.call)
    && OwedInv(s.subs, s.call, s.shut, s.owed)
    && BusInv(s.posts, s.bus, Ctl(s.gens), s.call)
    && ChanInv(s.subs, s.events, s.watches, s.call)
    && GenInv(s.gens, s.bus.chans, s.next)
    && WatchInv(s.watches, s.gens, s.events)
    && TodoInv(s.gens, s.subs)
  }
}
