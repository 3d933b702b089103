/** The steps of an undisturbed Publish, in whatever order it comes to the connections, add up to the store's Publish. */
module FeedPublishAlone {
  import opened GoChannels
  import opened PubSub
  import opened SubscriptionStore
  import opened FeedRuns
  import opened FeedInvariant
  import opened FeedDeliverySteps
  import opened FeedTheorems

  /** The sends of one bridge, one after the other. */
  ghost function SendEach(s: Feed, g: ChanId, order: seq<Conn>): Feed
    requires g in s.gens && s.gens[g].phase.Publishing?
    decreases |order|
  {
    if order == [] then s else
      var next := DoBridgeSend(s, g, order[0]);
      if g in next.gens && next.gens[g].phase.Publishing? then SendEach(next, g, order[1..]) else next
  }

  /** A bridge that holds a message publishes it. */
  ghost function PublishSteps(s: Feed, g: ChanId, order: seq<Conn>): Feed
    requires g in s.gens && s.gens[g].phase.Holding?
  {
    var sent := SendEach(DoBridgePublish(s, g), g, order);
    if g in sent.gens then sent.(gens := sent.gens[g := sent.gens[g].(phase := Idle)]) else sent
  }

  ghost predicate ListsAll(order: seq<Conn>, todo: set<Conn>) {
    (forall c :: c in order <==> c in todo) && Distinct(order)
  }

  function ChansAt(inner: map<Conn, Subscription>, conns: set<Conn>): set<ChanId> {
    set c | c in conns && c in inner :: inner[c].ch
  }

  lemma OneSend(s: Feed, g: ChanId, to: Conn)
    requires Inv(s) && g in s.gens && s.gens[g].phase.Publishing? && to in s.gens[g].phase.todo
    ensures Has(s.subs, s.gens[g].post, to)
    ensures var r, ch := DoBridgeSend(s, g, to), Inner(s.subs, s.gens[g].post)[to].ch;
            && Inv(r) && r.subs == s.subs && ch in s.events
            && r.events == s.events[ch := s.events[ch].Offer(s.gens[g].phase.m)]
            && g in r.gens && r.gens[g] == s.gens[g].(phase := Publishing(s.gens[g].phase.m, s.gens[g].phase.todo - {to}))
  {
    hide Bus.Valid, HubInv, OwedInv, BusInv, ChanInv, GenInv, WatchInv, TodoInv;
    TodoIsRegistered(s, g, to);
    Registered(s, s.gens[g].post, to);
    BridgeSendStep(s, g, to);
  }

  lemma OfferThenRest<T>(table: Table<T>, c: ChanId, rest: set<ChanId>, m: T)
    requires c in table && c !in rest
    ensures OfferAll(table[c := table[c].Offer(m)], rest, m) == OfferAll(table, rest + {c}, m)
  {
    assert table[c := table[c].Offer(m)].Keys == table.Keys;
  }

  lemma OfferNone<T>(table: Table<T>, m: T)
    ensures OfferAll(table, {}, m) == table
  {
  }

  /** Two connections of a post never share a channel. */
  lemma Apart(s: Feed, post: Post, to: Conn, rest: set<Conn>)
    requires Inv(s) && Has(s.subs, post, to) && to !in rest
    ensures Inner(s.subs, post)[to].ch !in ChansAt(Inner(s.subs, post), rest)
    ensures ChansAt(Inner(s.subs, post), rest + {to}) == ChansAt(Inner(s.subs, post), rest) + {Inner(s.subs, post)[to].ch}
  {
    hide Bus.Valid, HubInv, OwedInv, BusInv, GenInv, WatchInv, TodoInv;
    InnerIsValid(s.subs, s.events, OwnerOf(s.watches), post);
  }

  lemma {:induction false} AllSends(s: Feed, g: ChanId, order: seq<Conn>)
    requires Inv(s) && g in s.gens && s.gens[g].phase.Publishing? && ListsAll(order, s.gens[g].phase.todo)
    ensures var r := SendEach(s, g, order);
            && Inv(r) && r.subs == s.subs
            && r.events == OfferAll(s.events, ChansAt(Inner(s.subs, s.gens[g].post), s.gens[g].phase.todo), s.gens[g].phase.m)
            && g in r.gens && r.gens[g] == s.gens[g].(phase := Publishing(s.gens[g].phase.m, {}))
    decreases |order|
  {
    hide Inv, DoBridgeSend, ChansAt, OfferAll;
    var gen := s.gens[g];
    var inner := Inner(s.subs, gen.post);
    if order == [] {
      assert gen.phase.todo == {};
      NoChans(inner);
      OfferNone(s.events, gen.phase.m);
    } else {
      var to := order[0];
      assert to in gen.phase.todo;
      OneSend(s, g, to);
      Shorter(order, gen.phase.todo);
      var rest := gen.phase.todo - {to};
      AllSends(DoBridgeSend(s, g, to), g, order[1..]);
      Apart(s, gen.post, to, rest);
      OfferThenRest(s.events, inner[to].ch, ChansAt(inner, rest), gen.phase.m);
      assert rest + {to} == gen.phase.todo;
    }
  }

  lemma NoChans(inner: map<Conn, Subscription>)
    ensures ChansAt(inner, {}) == {}
  {
  }

  lemma Shorter(order: seq<Conn>, todo: set<Conn>)
    requires order != [] && ListsAll(order, todo)
    ensures ListsAll(order[1..], todo - {order[0]})
  {
    assert forall c :: c in order <==> c == order[0] || c in order[1..];
  }

  /** One bridge publishing, undisturbed: the event channels end as the store's Publish leaves them, and the bridge is
      back at its select. */
  lemma PublishAlone(s: Feed, g: ChanId, order: seq<Conn>)
    requires Inv(s) && g in s.gens && s.gens[g].phase.Holding?
    requires ListsAll(order, Inner(s.subs, s.gens[g].post).Keys)
    ensures var r := PublishSteps(s, g, order);
            && r.subs == s.subs && !r.panicked
            && r.events == OfferAll(s.events, Targets(s.subs, s.gens[g].post), s.gens[g].phase.m)
            && g in r.gens && r.gens[g].phase.Idle? && r.gens[g].published == s.gens[g].published + [s.gens[g].phase.m]
  {
    hide Inv, OfferAll, SendEach, ListsAll;
    Calm(s);
    var p := DoBridgePublish(s, g);
    StepKeepsInv(s, BridgePublish(g));
    AllSends(p, g, order);
    Calm(SendEach(p, g, order));
    assert ChansAt(Inner(s.subs, s.gens[g].post), Inner(s.subs, s.gens[g].post).Keys) == Targets(s.subs, s.gens[g].post);
  }
}
