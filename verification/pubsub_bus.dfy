/** The local side of the Redis bus as a value: which consumer channels exist, which are listed
    under which channel name, and what the transport has been asked for. */
module PubSub {
  import opened GoChannels
  import opened ChannelNames

  datatype Message = Message(channel: Name, payload: Payload)

  /** How one SUBSCRIBE or UNSUBSCRIBE on the transport ended.  A command that is reported as failed
      may or may not have taken effect upstream. */
  datatype Transport = Ok | Failed(applied: bool) {
    predicate Applied() {
      Ok? || applied
    }
  }

  datatype Error = NoError | ErrClosed | ErrTransport

  datatype Command = Subscribe(name: Name, outcome: Transport) | Unsubscribe(name: Name, outcome: Transport)

  datatype Bus = Bus(
    subs: map<Name, seq<ChanId>>,  // r.subs
    closed: bool,                    // r.closed
    started: bool,                   // r.ps != nil
    chans: Table<Message>,           // every channel Subscribe ever made
    madeFor: map<ChanId, Name>,    // history: the name each channel was made for
    upstream: set<Name>,           // what the transport is subscribed to
    commands: seq<Command>           // history: the commands sent to the transport
  ) {
    function List(name: Name): seq<ChanId> {
      if name in subs then subs[name] else []
    }

    ghost predicate Listed(c: ChanId) {
      c in madeFor && c in List(madeFor[c])
    }

    function AllListed(): (r: set<ChanId>)
      ensures forall c :: c in r <==> exists name :: name in subs && c in subs[name]
    {
      set name, c | name in subs && c in subs[name] :: c
    }

    /** Every channel ever made is either open and in exactly one list at exactly one index, or
        closed and in none. */
    ghost predicate Valid() {
      && chans.Keys == madeFor.Keys
      && ListsValid(subs, madeFor)
      && CellsValid(chans, madeFor, subs)
      && (closed ==> subs == map[])
      && (subs != map[] ==> started)
    }
  }

  ghost predicate CellsValid(chans: Table<Message>, madeFor: map<ChanId, Name>, subs: map<Name, seq<ChanId>>)
    requires chans.Keys == madeFor.Keys
  {
    && (forall c :: c in chans ==> (!chans[c].closed <==> madeFor[c] in subs && c in subs[madeFor[c]]))
    && (forall c :: c in chans ==> chans[c].cap == BUFFER && |chans[c].buf| <= BUFFER)
  }

  ghost predicate ListsValid(subs: map<Name, seq<ChanId>>, madeFor: map<ChanId, Name>) {
    && (forall name :: name in subs ==> subs[name] != [] && Distinct(subs[name]))
    && (forall name, c :: name in subs && c in subs[name] ==> c in madeFor && madeFor[c] == name)
  }

  ghost predicate Distinct<T(!new)>(s: seq<T>) {
    forall i, j :: 0 <= i < j < |s| ==> s[i] != s[j]
  }

  function Elements<T(==)>(s: seq<T>): set<T> {
    set x | x in s
  }

  const EMPTY_BUS: Bus := Bus(map[], false, false, map[], map[], {}, [])

  /** `append(list[:found], list[found+1:]...)`, by value. */
  function Without<T(==)>(s: seq<T>, x: T): (r: seq<T>)
    ensures forall y :: y in r ==> y in s
    ensures forall y :: y in s && y != x ==> y in r
    ensures |r| == |s| - (if x in s then 1 else 0)
  {
    if s == [] then []
    else if s[0] == x then s[1..]
    else [s[0]] + Without(s[1..], x)
  }

  lemma {:induction false} WithoutAt<T>(s: seq<T>, found: nat)
    requires found < |s| && forall i :: 0 <= i < found ==> s[i] != s[found]
    ensures Without(s, s[found]) == s[..found] + s[found + 1..]
  {
    if found > 0 {
      WithoutAt(s[1..], found - 1);
      assert s[..found] == [s[0]] + s[1..][..found - 1];
      assert s[found + 1..] == s[1..][found..];
    }
  }

  lemma {:induction false} WithoutKeepsDistinct<T(!new)>(s: seq<T>, x: T)
    requires Distinct(s)
    ensures Distinct(Without(s, x)) && x !in Without(s, x)
  {
    if s != [] && s[0] != x {
      WithoutKeepsDistinct(s[1..], x);
      assert s[0] !in s[1..];
    } else if s != [] {
      assert x !in s[1..];
    }
  }

  // --- What each critical section does -------------------------------------------------------

  function BusSubscribe(b: Bus, name: Name, out: ChanId, t: Transport): (r: (Bus, Error)) {
    if b.closed then (b, ErrClosed) else
      var first := b.List(name) == [];
      var asked := if first then b.(upstream := if t.Applied() then b.upstream + {name} else b.upstream,
                                    commands := b.commands + [Subscribe(name, t)],
                                    started := true)
                   else b.(started := true);
      if first && t.Failed? then (asked, ErrTransport) else
        (asked.(subs := b.subs[name := b.List(name) + [out]],
                chans := b.chans[out := Fresh()],
                madeFor := b.madeFor[out := name]), NoError)
  }

  function BusUnsubscribe(b: Bus, name: Name, sub: ChanId, t: Transport): (r: (Bus, Error)) {
    if b.closed then (b, ErrClosed) else
    if sub !in b.List(name) then (b, NoError) else
      var rest := Without(b.List(name), sub);
      var shut := b.(chans := CloseAll(b.chans, {sub}));
      if rest != [] then (shut.(subs := b.subs[name := rest]), NoError) else
        (shut.(subs := b.subs - {name},
               upstream := if t.Applied() then b.upstream - {name} else b.upstream,
               commands := b.commands + [Unsubscribe(name, t)]),
         if t.Failed? then ErrTransport else NoError)
  }

  function FanOut(b: Bus, m: Message): (r: Bus) {
    if b.closed then b else b.(chans := OfferAll(b.chans, Elements(b.List(m.channel)), m))
  }

  function BusClose(b: Bus): (r: Bus) {
    if b.closed then b else b.(closed := true, subs := map[], chans := CloseAll(b.chans, b.AllListed()))
  }

  /** A bridge receiving from its channel. */
  function BusReceive(b: Bus, c: ChanId): (r: Bus)
    requires c in b.chans && b.chans[c].buf != []
  {
    b.(chans := b.chans[c := b.chans[c].(buf := b.chans[c].buf[1..])])
  }

  // --- Runs -----------------------------------------------------------------------------------

  datatype BusOp =
    | OpSubscribe(name: Name, out: ChanId, t: Transport)
    | OpUnsubscribe(name: Name, sub: ChanId, t: Transport)
    | OpFanOut(m: Message)
    | OpReceive(c: ChanId)
    | OpClose

  /** A new channel is never one that was handed out before; everything else is the caller's choice. */
  predicate BusCan(b: Bus, op: BusOp) {
    match op
    case OpSubscribe(_, out, _) => out !in b.chans
    case OpReceive(c) => c in b.chans && b.chans[c].buf != []
    case _ => true
  }

  function BusDo(b: Bus, op: BusOp): (r: Bus)
    requires BusCan(b, op)
  {
    match op
    case OpSubscribe(name, out, t) => BusSubscribe(b, name, out, t).0
    case OpUnsubscribe(name, sub, t) => BusUnsubscribe(b, name, sub, t).0
    case OpFanOut(m) => FanOut(b, m)
    case OpReceive(c) => BusReceive(b, c)
    case OpClose => BusClose(b)
  }

  ghost predicate BusRun(bs: seq<Bus>, ops: seq<BusOp>) {
    && |bs| == |ops| + 1
    && bs[0] == EMPTY_BUS
    && forall i :: 0 <= i < |ops| ==> BusCan(bs[i], ops[i]) && bs[i + 1] == BusDo(bs[i], ops[i])
  }

  lemma SubscribeKeepsLists(b: Bus, name: Name, out: ChanId, t: Transport)
    requires b.Valid() && out !in b.chans
    ensures var r := BusSubscribe(b, name, out, t).0; ListsValid(r.subs, r.madeFor)
  {
    var r := BusSubscribe(b, name, out, t).0;
    if r.subs != b.subs {
      assert Distinct(b.List(name)) && out !in b.List(name);
      assert Distinct(r.subs[name]);
    }
  }

  lemma SubscribeKeepsCells(b: Bus, name: Name, out: ChanId, t: Transport)
    requires b.Valid() && out !in b.chans
    ensures var r := BusSubscribe(b, name, out, t).0;
            r.chans.Keys == r.madeFor.Keys && CellsValid(r.chans, r.madeFor, r.subs)
  {
    hide ListsValid;
    var r := BusSubscribe(b, name, out, t).0;
    if r.subs != b.subs {
      assert r.subs[name][|b.List(name)|] == out;
      assert forall c :: c in b.chans ==> (b.Listed(c) <==> r.Listed(c));
    }
  }

  lemma SubscribeKeepsValid(b: Bus, name: Name, out: ChanId, t: Transport)
    requires b.Valid() && out !in b.chans
    ensures BusSubscribe(b, name, out, t).0.Valid()
  {
    hide ListsValid, CellsValid;
    SubscribeKeepsLists(b, name, out, t);
    SubscribeKeepsCells(b, name, out, t);
  }

  lemma UnsubscribeKeepsLists(b: Bus, name: Name, sub: ChanId, t: Transport)
    requires b.Valid()
    ensures var r := BusUnsubscribe(b, name, sub, t).0; ListsValid(r.subs, r.madeFor)
  {
    if sub in b.List(name) {
      WithoutKeepsDistinct(b.subs[name], sub);
    }
  }

  lemma UnsubscribeKeepsCells(b: Bus, name: Name, sub: ChanId, t: Transport)
    requires b.Valid() && sub in b.List(name)
    ensures var r := BusUnsubscribe(b, name, sub, t).0; CellsValid(r.chans, r.madeFor, r.subs)
  {
    var r := BusUnsubscribe(b, name, sub, t).0;
    WithoutKeepsDistinct(b.subs[name], sub);
    forall c | c in r.chans ensures !r.chans[c].closed <==> r.madeFor[c] in r.subs && c in r.subs[r.madeFor[c]] {
      if c == sub {
        assert b.madeFor[sub] == name;
      } else if b.madeFor[c] == name {
        assert c in Without(b.subs[name], sub) <==> c in b.subs[name];
      }
    }
  }

  lemma UnsubscribeKeepsValid(b: Bus, name: Name, sub: ChanId, t: Transport)
    requires b.Valid()
    ensures BusUnsubscribe(b, name, sub, t).0.Valid()
  {
    if !b.closed && sub in b.List(name) {
      UnsubscribeKeepsLists(b, name, sub, t);
      UnsubscribeKeepsCells(b, name, sub, t);
    }
  }

  lemma FanOutKeepsValid(b: Bus, m: Message)
    requires b.Valid()
    ensures FanOut(b, m).Valid()
  {
    var r := FanOut(b, m);
    assert forall c :: c in r.chans ==> c in b.chans && (b.Listed(c) <==> r.Listed(c));
  }

  lemma CloseKeepsValid(b: Bus)
    requires b.Valid()
    ensures BusClose(b).Valid()
  {
    var r := BusClose(b);
    forall c | c in r.chans ensures !r.chans[c].closed <==> r.Listed(c) {
      assert c in b.chans;
      if b.Listed(c) {
        assert c in b.subs[b.madeFor[c]];
      }
    }
  }

  lemma ReceiveKeepsValid(b: Bus, c: ChanId)
    requires b.Valid() && c in b.chans && b.chans[c].buf != []
    ensures BusReceive(b, c).Valid()
  {
    var r := BusReceive(b, c);
    assert forall d :: d in r.chans ==> d in b.chans && (b.Listed(d) <==> r.Listed(d));
  }

  lemma BusDoKeepsValid(b: Bus, op: BusOp)
    requires b.Valid() && BusCan(b, op)
    ensures BusDo(b, op).Valid()
  {
    match op
    case OpSubscribe(name, out, t) => SubscribeKeepsValid(b, name, out, t);
    case OpUnsubscribe(name, sub, t) => UnsubscribeKeepsValid(b, name, sub, t);
    case OpFanOut(m) => FanOutKeepsValid(b, m);
    case OpReceive(c) => ReceiveKeepsValid(b, c);
    case OpClose => CloseKeepsValid(b);
  }

  /** In every run, a channel that Subscribe returned is open and listed once, or closed and unlisted. */
  lemma {:induction false} ConsumerLifecycle(bs: seq<Bus>, ops: seq<BusOp>)
    requires BusRun(bs, ops)
    ensures forall i :: 0 <= i < |bs| ==> bs[i].Valid()
  {
    if ops != [] {
      var n := |ops| - 1;
      ConsumerLifecycle(bs[..n + 1], ops[..n]);
      assert bs[..n + 1][n] == bs[n];
      BusDoKeepsValid(bs[n], ops[n]);
      forall i | 0 <= i < |bs| ensures bs[i].Valid() {
        if i <= n {
          assert bs[..n + 1][i] == bs[i];
        }
      }
    }
  }

  /** A closed channel is never reopened, never sent to, and its list membership never returns. */
  lemma ClosedStaysClosed(b: Bus, op: BusOp, c: ChanId)
    requires b.Valid() && BusCan(b, op) && c in b.chans && b.chans[c].closed
    ensures c in BusDo(b, op).chans && BusDo(b, op).chans[c].closed
    ensures |BusDo(b, op).chans[c].buf| <= |b.chans[c].buf|
    ensures !BusDo(b, op).Listed(c)
  {
    BusDoKeepsValid(b, op);
    assert c in BusDo(b, op).chans && BusDo(b, op).chans[c].closed by {
      ClosedCells(b, op, c);
    }
    if op.OpFanOut? {
      NotATarget(b, op.m, c);
    }
  }

  lemma ClosedCells(b: Bus, op: BusOp, c: ChanId)
    requires BusCan(b, op) && c in b.chans && b.chans[c].closed
    ensures c in BusDo(b, op).chans && BusDo(b, op).chans[c].closed
  {
  }

  /** A closed channel is in no list, so a fan-out does not reach it. */
  lemma NotATarget(b: Bus, m: Message, c: ChanId)
    requires b.Valid() && c in b.chans && b.chans[c].closed
    ensures FanOut(b, m).chans[c] == b.chans[c]
  {
    assert !b.Listed(c);
  }

  // --- When Go would panic --------------------------------------------------------------------

  ghost predicate FanOutPanics(b: Bus, name: Name) {
    !b.closed && exists c :: c in b.List(name) && !CanClose(b.chans, c)
  }

  ghost predicate UnsubscribePanics(b: Bus, name: Name, c: ChanId) {
    !b.closed && c in b.List(name) && !CanClose(b.chans, c)
  }

  ghost predicate BusClosePanics(b: Bus) {
    && !b.closed
    && (|| (exists m, i :: m in b.subs && 0 <= i < |b.subs[m]| && !CanClose(b.chans, b.subs[m][i]))
        || (exists m, i, n, j :: m in b.subs && 0 <= i < |b.subs[m]| && n in b.subs && 0 <= j < |b.subs[n]|
                                 && (m, i) != (n, j) && b.subs[m][i] == b.subs[n][j]))
  }

  lemma NoFanOutPanic(b: Bus, name: Name)
    requires b.Valid()
    ensures !FanOutPanics(b, name)
  {
    if !b.closed && name in b.subs {
      forall c | c in b.subs[name] ensures CanClose(b.chans, c) {
        assert b.madeFor[c] == name;
      }
    }
  }

  lemma NoUnsubscribePanic(b: Bus, name: Name, c: ChanId)
    requires b.Valid()
    ensures !UnsubscribePanics(b, name, c)
  {
    if c in b.List(name) {
      assert b.madeFor[c] == name;
    }
  }

  lemma NoBusClosePanic(b: Bus)
    requires b.Valid()
    ensures !BusClosePanics(b)
  {
    forall m, i | m in b.subs && 0 <= i < |b.subs[m]| ensures CanClose(b.chans, b.subs[m][i]) && b.madeFor[b.subs[m][i]] == m {
      assert b.subs[m][i] in b.subs[m];
    }
  }

  // --- The transport --------------------------------------------------------------------------

  /** The last command sent for `name` was a SUBSCRIBE that the transport acknowledged. */
  predicate Acknowledged(cs: seq<Command>, name: Name) {
    cs != [] &&
    var n := |cs| - 1;
    if cs[n].name == name then cs[n].Subscribe? && cs[n].outcome.Ok? else Acknowledged(cs[..n], name)
  }

  /** SUBSCRIBE is sent only for a name without local consumers, that is, one whose last command was
      not an acknowledged SUBSCRIBE; UNSUBSCRIBE only for a name whose last command was one. */
  ghost predicate Alternating(cs: seq<Command>) {
    cs == [] ||
    var n := |cs| - 1;
    Alternating(cs[..n]) && (cs[n].Unsubscribe? <==> Acknowledged(cs[..n], cs[n].name))
  }

  ghost predicate Covered(b: Bus) {
    && Alternating(b.commands)
    && (!b.closed ==> b.subs.Keys <= b.upstream)
    && (!b.closed ==> forall name :: name in b.subs <==> Acknowledged(b.commands, name))
  }

  lemma CommandAppended(cs: seq<Command>, c: Command)
    requires Alternating(cs)
    requires c.Unsubscribe? <==> Acknowledged(cs, c.name)
    ensures Alternating(cs + [c])
    ensures forall name :: name != c.name ==> Acknowledged(cs + [c], name) == Acknowledged(cs, name)
    ensures Acknowledged(cs + [c], c.name) <==> c.Subscribe? && c.outcome.Ok?
  {
    assert (cs + [c])[..|cs|] == cs;
  }

  lemma SubscribeKeepsCovered(b: Bus, name: Name, out: ChanId, t: Transport)
    requires b.Valid() && Covered(b)
    ensures Covered(BusSubscribe(b, name, out, t).0)
  {
    if !b.closed && b.List(name) == [] {
      CommandAppended(b.commands, Subscribe(name, t));
    }
  }

  lemma UnsubscribeKeepsCovered(b: Bus, name: Name, sub: ChanId, t: Transport)
    requires b.Valid() && Covered(b)
    ensures Covered(BusUnsubscribe(b, name, sub, t).0)
  {
    if !b.closed && sub in b.List(name) && Without(b.List(name), sub) == [] {
      CommandAppended(b.commands, Unsubscribe(name, t));
    }
  }

  lemma BusDoKeepsCovered(b: Bus, op: BusOp)
    requires b.Valid() && Covered(b) && BusCan(b, op)
    ensures Covered(BusDo(b, op))
  {
    match op
    case OpSubscribe(name, out, t) => SubscribeKeepsCovered(b, name, out, t);
    case OpUnsubscribe(name, sub, t) => UnsubscribeKeepsCovered(b, name, sub, t);
    case _ =>
  }

  ghost predicate NoFailure(op: BusOp) {
    (op.OpSubscribe? || op.OpUnsubscribe?) ==> op.t.Ok?
  }

  /** With transport calls failing at will, a channel with a local consumer is subscribed upstream for
      as long as the bus is open; when no call fails, the two sets are equal. */
  lemma {:induction false} UpstreamCover(bs: seq<Bus>, ops: seq<BusOp>)
    requires BusRun(bs, ops)
    ensures Covered(bs[|ops|])
    ensures !bs[|ops|].closed && (forall i :: 0 <= i < |ops| ==> NoFailure(ops[i])) ==>
              bs[|ops|].upstream == bs[|ops|].subs.Keys
  {
    if ops != [] {
      var n := |ops| - 1;
      assert bs[..n + 1][n] == bs[n];
      UpstreamCover(bs[..n + 1], ops[..n]);
      ConsumerLifecycle(bs, ops);
      BusDoKeepsCovered(bs[n], ops[n]);
      if forall i :: 0 <= i < |ops| ==> NoFailure(ops[i]) {
        assert forall i :: 0 <= i < n ==> NoFailure(ops[..n][i]);
        assert NoFailure(ops[n]);
      }
    }
  }
}
