/** What each operation of the bus does, told by its lists and channels. */
module PubSubLaws {
  import opened GoChannels
  import opened ChannelNames
  import opened PubSub

  /** Nothing but the consumers of `name` has changed. */
  ghost predicate OtherNamesKept(b: Bus, r: Bus, name: Name) {
    forall n :: n != name ==> r.List(n) == b.List(n) && (n in r.subs <==> n in b.subs)
  }

  ghost predicate OtherChannelsKept(b: Bus, r: Bus, which: set<ChanId>) {
    forall c :: c in b.chans && c !in which ==> c in r.chans && r.chans[c] == b.chans[c]
  }

  /** Subscribe succeeds if and only if the bus is open and the name has a consumer already, or the transport agrees. */
  lemma SubscribeSucceedsIff(b: Bus, name: Name, out: ChanId, t: Transport)
    requires b.Valid()
    ensures var err := BusSubscribe(b, name, out, t).1;
            && (err.NoError? <==> !b.closed && (name in b.subs || t.Ok?))
            && (err.ErrClosed? <==> b.closed)
  {
  }

  /** A successful Subscribe appends one new open, empty channel to the consumers of the name. */
  lemma SubscribeMeans(b: Bus, name: Name, out: ChanId, t: Transport)
    requires b.Valid() && out !in b.chans && BusSubscribe(b, name, out, t).1.NoError?
    ensures var r := BusSubscribe(b, name, out, t).0;
            && r.List(name) == b.List(name) + [out] && name in r.subs
            && out in r.chans && r.chans[out] == Chan(64, [], false) && r.chans.Keys == b.chans.Keys + {out}
            && OtherNamesKept(b, r, name) && OtherChannelsKept(b, r, {}) && !r.closed
  {
  }

  lemma FailedSubscribeMeans(b: Bus, name: Name, out: ChanId, t: Transport)
    requires !BusSubscribe(b, name, out, t).1.NoError?
    ensures var r := BusSubscribe(b, name, out, t).0; r.subs == b.subs && r.chans == b.chans && r.closed == b.closed
  {
  }

  /** SUBSCRIBE goes out exactly for a name without consumers on an open bus, and takes effect as the transport says. */
  lemma SubscribeAsks(b: Bus, name: Name, out: ChanId, t: Transport)
    requires b.Valid()
    ensures var r := BusSubscribe(b, name, out, t).0;
            if !b.closed && name !in b.subs
            then r.commands == b.commands + [Command.Subscribe(name, t)]
                 && r.upstream == (if t.Failed? && !t.applied then b.upstream else b.upstream + {name})
            else r.commands == b.commands && r.upstream == b.upstream
  {
  }

  /** Unsubscribe on a closed bus, or of a channel that is not a consumer of the name, changes nothing. */
  lemma IdleUnsubscribeMeans(b: Bus, name: Name, sub: ChanId, t: Transport)
    requires b.closed || sub !in b.List(name)
    ensures BusUnsubscribe(b, name, sub, t) == (b, if b.closed then ErrClosed else NoError)
  {
  }

  /** Otherwise it closes that channel, keeping what is buffered, and takes it off the list, keeping the order of the
      others; a name without consumers is forgotten. */
  lemma UnsubscribeMeans(b: Bus, name: Name, sub: ChanId, t: Transport)
    requires b.Valid() && !b.closed && sub in b.List(name)
    ensures var r := BusUnsubscribe(b, name, sub, t).0;
            && sub in b.chans && sub in r.chans && r.chans[sub] == Chan(b.chans[sub].cap, b.chans[sub].buf, true)
            && r.chans.Keys == b.chans.Keys && OtherChannelsKept(b, r, {sub})
            && (exists i :: 0 <= i < |b.List(name)| && b.List(name)[i] == sub
                            && r.List(name) == b.List(name)[..i] + b.List(name)[i + 1..])
            && (name in r.subs <==> b.List(name) != [sub])
            && OtherNamesKept(b, r, name) && !r.closed
  {
    var list := b.List(name);
    assert b.madeFor[sub] == name;
    var i :| 0 <= i < |list| && list[i] == sub;
    WithoutAt(list, i);
    if list == [sub] {
      assert list[..i] + list[i + 1..] == [];
    } else {
      assert |list[..i] + list[i + 1..]| == |list| - 1;
    }
  }

  /** UNSUBSCRIBE goes out exactly when the last consumer leaves, and its failure is the only error then. */
  lemma UnsubscribeAsks(b: Bus, name: Name, sub: ChanId, t: Transport)
    requires b.Valid()
    ensures var (r, err) := BusUnsubscribe(b, name, sub, t);
            if !b.closed && b.List(name) == [sub]
            then r.commands == b.commands + [Command.Unsubscribe(name, t)]
                 && r.upstream == (if t.Failed? && !t.applied then b.upstream else b.upstream - {name})
                 && (err.ErrTransport? <==> t.Failed?) && !err.ErrClosed?
            else r.commands == b.commands && r.upstream == b.upstream && !err.ErrTransport?
  {
    if sub in b.List(name) {
      var rest := Without(b.List(name), sub);
      if rest == [] {
        assert |b.List(name)| == 1 && b.List(name) == [sub];
      }
      if b.List(name) == [sub] {
        assert rest == [];
      }
    }
  }

  /** A message reaches every consumer of its name that has room, last in its buffer, and nobody else. */
  lemma FanOutMeans(b: Bus, m: Message)
    requires b.Valid()
    ensures var r := FanOut(b, m);
            && (forall c :: c in b.List(m.channel) ==>
                  c in b.chans && c in r.chans
                  && r.chans[c].buf == (if |b.chans[c].buf| < 64 then b.chans[c].buf + [m] else b.chans[c].buf)
                  && !r.chans[c].closed)
            && OtherChannelsKept(b, r, Elements(b.List(m.channel)))
            && r.chans.Keys == b.chans.Keys && r.subs == b.subs && r.closed == b.closed
            && r.commands == b.commands && r.upstream == b.upstream
  {
    forall c | c in b.List(m.channel) ensures c in b.chans && !b.chans[c].closed {
      assert b.madeFor[c] == m.channel;
    }
  }

  /** Once closed, the bus lists nobody, and every channel it ever made is closed, with what it had buffered. */
  lemma CloseMeans(b: Bus)
    requires b.Valid()
    ensures var r := BusClose(b);
            && r.closed && r.subs == map[] && r.chans.Keys == b.chans.Keys
            && (forall c :: c in b.chans ==> r.chans[c] == Chan(b.chans[c].cap, b.chans[c].buf, true))
            && r.commands == b.commands && r.upstream == b.upstream
  {
    forall c | c in b.chans && !b.chans[c].closed ensures c in b.AllListed() {
      assert c in b.subs[b.madeFor[c]];
    }
  }

  /** A receive takes the oldest message of one channel. */
  lemma ReceiveMeans(b: Bus, c: ChanId)
    requires c in b.chans && b.chans[c].buf != []
    ensures var r := BusReceive(b, c);
            && c in r.chans && b.chans[c].buf == [b.chans[c].buf[0]] + r.chans[c].buf && r.chans[c].closed == b.chans[c].closed
            && r.chans.Keys == b.chans.Keys && OtherChannelsKept(b, r, {c})
            && r.subs == b.subs && r.closed == b.closed && r.commands == b.commands && r.upstream == b.upstream
  {
  }
}
