/** The client channels of one chat gateway as values: who is connected, through which channel, and every
    channel that was ever handed out. */
module ChatClients {
  import opened GoChannels
  import opened ChatIndex

  datatype Roster = Roster(
    clients: map<User, ChanId>,
    cells: Table<Payload>,         // every channel Register ever made
    issued: map<ChanId, User>      // history: the user each channel was made for
  ) {
    /** Every channel ever issued is the one current channel of its user and open, or closed. */
    ghost predicate Valid() {
      && cells.Keys == issued.Keys
      && (forall u :: u in clients ==> clients[u] in issued && issued[clients[u]] == u)
      && (forall c :: c in issued ==> (!cells[c].closed <==> Current(c)))
      && (forall c :: c in cells ==> cells[c].cap == BUFFER && |cells[c].buf| <= BUFFER)
    }

    predicate Current(c: ChanId) {
      c in issued && issued[c] in clients && clients[issued[c]] == c
    }
  }

  const NOBODY: Roster := Roster(map[], map[], map[])

  /** The channels of those of `users` who have one. */
  function Sockets(clients: map<User, ChanId>, users: set<User>): (r: set<ChanId>)
    ensures forall u :: u in users && u in clients ==> clients[u] in r
  {
    set u | u in users && u in clients :: clients[u]
  }

  ghost predicate Injective(clients: map<User, ChanId>) {
    forall u, v :: u in clients && v in clients && u != v ==> clients[u] != clients[v]
  }

  /** The old connection of a user who registers again is closed. */
  function Register(r: Roster, user: User, ch: ChanId): (s: Roster) {
    r.(cells := CloseAll(r.cells, Sockets(r.clients, {user}))[ch := Fresh()],
       clients := r.clients[user := ch],
       issued := r.issued[ch := user])
  }

  function Unregister(r: Roster, user: User): (s: Roster) {
    r.(cells := CloseAll(r.cells, Sockets(r.clients, {user})), clients := r.clients - {user})
  }

  /** One non-blocking send to every member who has a client. */
  function Deliver(r: Roster, members: set<User>, ev: Payload): (s: Roster) {
    r.(cells := OfferAll(r.cells, Sockets(r.clients, members), ev))
  }

  function CloseAllClients(r: Roster): (s: Roster) {
    r.(cells := CloseAll(r.cells, Sockets(r.clients, r.clients.Keys)), clients := map[])
  }

  /** A connection's write loop taking an event. */
  function Take(r: Roster, c: ChanId): (s: Roster)
    requires c in r.cells && r.cells[c].buf != []
  {
    r.(cells := r.cells[c := r.cells[c].(buf := r.cells[c].buf[1..])])
  }

  datatype ClientOp =
    | OpRegister(user: User, ch: ChanId)
    | OpUnregister(user: User)
    | OpDeliver(members: set<User>, ev: Payload)
    | OpTake(c: ChanId)
    | OpCloseAll

  predicate ClientCan(r: Roster, op: ClientOp) {
    match op
    case OpRegister(_, ch) => ch !in r.cells
    case OpTake(c) => c in r.cells && r.cells[c].buf != []
    case _ => true
  }

  function ClientDo(r: Roster, op: ClientOp): (s: Roster)
    requires ClientCan(r, op)
  {
    match op
    case OpRegister(user, ch) => Register(r, user, ch)
    case OpUnregister(user) => Unregister(r, user)
    case OpDeliver(members, ev) => Deliver(r, members, ev)
    case OpTake(c) => Take(r, c)
    case OpCloseAll => CloseAllClients(r)
  }

  /** The channels an operation closes, and those it sends on. */
  function Touched(r: Roster, op: ClientOp): set<ChanId> {
    match op
    case OpRegister(user, _) => Sockets(r.clients, {user})
    case OpUnregister(user) => Sockets(r.clients, {user})
    case OpDeliver(members, _) => Sockets(r.clients, members)
    case OpTake(_) => {}
    case OpCloseAll => Sockets(r.clients, r.clients.Keys)
  }

  ghost predicate ClientRun(rs: seq<Roster>, ops: seq<ClientOp>) {
    && |rs| == |ops| + 1
    && rs[0] == NOBODY
    && forall i :: 0 <= i < |ops| ==> ClientCan(rs[i], ops[i]) && rs[i + 1] == ClientDo(rs[i], ops[i])
  }

  lemma SocketIsCurrent(r: Roster, users: set<User>, c: ChanId)
    requires r.Valid()
    ensures c in Sockets(r.clients, users) <==> r.Current(c) && r.issued[c] in users
  {
  }

  lemma RegisterKeepsValid(r: Roster, user: User, ch: ChanId)
    requires r.Valid() && ch !in r.cells
    ensures Register(r, user, ch).Valid()
  {
    forall c ensures c in Sockets(r.clients, {user}) <==> r.Current(c) && r.issued[c] in {user} {
      SocketIsCurrent(r, {user}, c);
    }
  }

  lemma UnregisterKeepsValid(r: Roster, user: User)
    requires r.Valid()
    ensures Unregister(r, user).Valid()
  {
    forall c ensures c in Sockets(r.clients, {user}) <==> r.Current(c) && r.issued[c] in {user} {
      SocketIsCurrent(r, {user}, c);
    }
  }

  lemma DeliverKeepsValid(r: Roster, members: set<User>, ev: Payload)
    requires r.Valid()
    ensures Deliver(r, members, ev).Valid()
  {
    forall c ensures c in Sockets(r.clients, members) <==> r.Current(c) && r.issued[c] in members {
      SocketIsCurrent(r, members, c);
    }
  }

  lemma CloseAllClientsKeepsValid(r: Roster)
    requires r.Valid()
    ensures CloseAllClients(r).Valid()
  {
    forall c ensures c in Sockets(r.clients, r.clients.Keys) <==> r.Current(c) && r.issued[c] in r.clients.Keys {
      SocketIsCurrent(r, r.clients.Keys, c);
    }
  }

  lemma TakeKeepsValid(r: Roster, c: ChanId)
    requires r.Valid() && c in r.cells && r.cells[c].buf != []
    ensures Take(r, c).Valid()
  {
  }

  lemma ClientDoKeepsValid(r: Roster, op: ClientOp)
    requires r.Valid() && ClientCan(r, op)
    ensures ClientDo(r, op).Valid()
  {
    hide Roster.Valid, Register, Unregister, Deliver, CloseAllClients, Take;
    match op
    case OpRegister(user, ch) => RegisterKeepsValid(r, user, ch);
    case OpUnregister(user) => UnregisterKeepsValid(r, user);
    case OpDeliver(members, ev) => DeliverKeepsValid(r, members, ev);
    case OpTake(c) => TakeKeepsValid(r, c);
    case OpCloseAll => CloseAllClientsKeepsValid(r);
  }

  /** Nothing panics: what is closed or sent on is open, and the closes of one call are of different
      channels. */
  lemma TouchedIsOpen(r: Roster, op: ClientOp)
    requires r.Valid()
    ensures forall c :: c in Touched(r, op) ==> c in r.cells && !r.cells[c].closed
    ensures Injective(r.clients)
  {
  }

  /** In every run each channel ever issued is its user's current one and open, or was closed, once. */
  lemma {:induction false} ClientLifecycle(rs: seq<Roster>, ops: seq<ClientOp>, i: nat)
    requires ClientRun(rs, ops) && i < |rs|
    ensures rs[i].Valid()
    ensures i < |ops| ==> forall c :: c in Touched(rs[i], ops[i]) ==> c in rs[i].cells && !rs[i].cells[c].closed
  {
    hide Roster.Valid, Touched, ClientCan, ClientDo;
    if i == 0 {
      NobodyIsValid();
    } else {
      ClientLifecycle(rs, ops, i - 1);
      ClientDoKeepsValid(rs[i - 1], ops[i - 1]);
    }
    if i < |ops| {
      TouchedIsOpen(rs[i], ops[i]);
    }
  }

  lemma NobodyIsValid()
    ensures NOBODY.Valid()
  {
  }

  /** `c` is nobody's channel, is closed, and holds no more than what is left of `was`. */
  ghost predicate Silent(r: Roster, c: ChanId, was: seq<Payload>) {
    && c in r.issued && !r.Current(c) && c in r.cells && r.cells[c].closed
    && |r.cells[c].buf| <= |was| && r.cells[c].buf == was[|was| - |r.cells[c].buf|..]
  }

  /** A channel that was replaced, unregistered or shut stays closed and is sent nothing more. */
  lemma {:induction false} ReplacedStaysSilent(rs: seq<Roster>, ops: seq<ClientOp>, i: nat, j: nat, c: ChanId)
    requires ClientRun(rs, ops) && i <= j < |rs| && c in rs[i].issued && !rs[i].Current(c)
    ensures c in rs[i].cells && Silent(rs[j], c, rs[i].cells[c].buf)
    decreases j
  {
    hide Roster.Valid, ClientCan, ClientDo, Silent;
    ClientLifecycle(rs, ops, i);
    Closed(rs[i], c);
    if i < j {
      ReplacedStaysSilent(rs, ops, i, j - 1, c);
      ClientLifecycle(rs, ops, j - 1);
      SilentStep(rs[j - 1], ops[j - 1], c, rs[i].cells[c].buf);
    }
  }

  lemma Closed(r: Roster, c: ChanId)
    requires r.Valid() && c in r.issued && !r.Current(c)
    ensures c in r.cells && Silent(r, c, r.cells[c].buf)
  {
    assert r.cells[c].buf == r.cells[c].buf[0..];
  }

  lemma SilentStep(r: Roster, op: ClientOp, c: ChanId, was: seq<Payload>)
    requires r.Valid() && ClientCan(r, op) && Silent(r, c, was)
    ensures Silent(ClientDo(r, op), c, was)
  {
    forall users ensures c !in Sockets(r.clients, users) {
      SocketIsCurrent(r, users, c);
    }
  }

  // --- What each operation does ------------------------------------------------------------------------------------

  /** Registering gives the user a new open, empty channel of capacity 64 and closes the one the user had, keeping what it
      has buffered; everybody else's client and channel stay. */
  lemma RegisterMeans(r: Roster, user: User, ch: ChanId)
    requires r.Valid() && ch !in r.cells
    ensures var s := Register(r, user, ch);
            && user in s.clients && s.clients[user] == ch && s.cells[ch] == Chan(64, [], false) && s.issued[ch] == user
            && s.cells.Keys == r.cells.Keys + {ch}
            && (user in r.clients ==>
                  var was := r.clients[user]; s.cells[was] == Chan(r.cells[was].cap, r.cells[was].buf, true))
            && (forall u :: u != user ==> (u in s.clients <==> u in r.clients) && (u in r.clients ==> s.clients[u] == r.clients[u]))
            && (forall c :: c in r.cells && !(user in r.clients && r.clients[user] == c) ==> s.cells[c] == r.cells[c])
            && (forall c :: c in r.issued ==> s.issued[c] == r.issued[c])
  {
  }

  /** Unregistering closes the user's channel, keeping what it has buffered, and forgets the client; for a user without a
      client it does nothing. */
  lemma UnregisterMeans(r: Roster, user: User)
    requires r.Valid()
    ensures var s := Unregister(r, user);
            && user !in s.clients && s.issued == r.issued && s.cells.Keys == r.cells.Keys
            && (user in r.clients ==> var was := r.clients[user]; s.cells[was] == Chan(r.cells[was].cap, r.cells[was].buf, true))
            && (forall u :: u != user ==> (u in s.clients <==> u in r.clients) && (u in r.clients ==> s.clients[u] == r.clients[u]))
            && (forall c :: c in r.cells && !(user in r.clients && r.clients[user] == c) ==> s.cells[c] == r.cells[c])
  {
  }

  /** Closing leaves no client, and every channel ever issued closed, with what it had buffered. */
  lemma CloseAllMeans(r: Roster)
    requires r.Valid()
    ensures var s := CloseAllClients(r);
            && s.clients == map[] && s.issued == r.issued && s.cells.Keys == r.cells.Keys
            && (forall c :: c in r.cells ==> s.cells[c] == Chan(r.cells[c].cap, r.cells[c].buf, true))
  {
    forall c | c in r.cells && !r.cells[c].closed ensures c in Sockets(r.clients, r.clients.Keys) {
      SocketIsCurrent(r, r.clients.Keys, c);
    }
  }

  /** A write loop takes the oldest event of its own channel. */
  lemma TakeMeans(r: Roster, c: ChanId)
    requires c in r.cells && r.cells[c].buf != []
    ensures var s := Take(r, c);
            && s.clients == r.clients && s.issued == r.issued && s.cells.Keys == r.cells.Keys
            && r.cells[c].buf == [r.cells[c].buf[0]] + s.cells[c].buf && s.cells[c].closed == r.cells[c].closed
            && (forall d :: d in r.cells && d != c ==> s.cells[d] == r.cells[d])
  {
  }

  /** A delivery puts the event, once and last, into the channel of every member who has a client and room for it, and
      touches no other channel. */
  lemma DeliverReachesMembers(r: Roster, members: set<User>, ev: Payload)
    requires r.Valid()
    ensures forall u :: u in members && u in r.clients ==>
              var was := r.cells[r.clients[u]].buf;
              Deliver(r, members, ev).cells[r.clients[u]].buf == if |was| < 64 then was + [ev] else was
    ensures forall c :: c in r.cells && !(r.Current(c) && r.issued[c] in members) ==>
              Deliver(r, members, ev).cells[c] == r.cells[c]
    ensures var s := Deliver(r, members, ev); s.clients == r.clients && s.issued == r.issued && s.cells.Keys == r.cells.Keys
  {
    forall c ensures c in Sockets(r.clients, members) <==> r.Current(c) && r.issued[c] in members {
      SocketIsCurrent(r, members, c);
    }
  }

  /** Unregister names a user, not a session.  Called by the session that was issued `c`, it leaves every other channel
      alone if and only if `c` is still the user's current channel, or the user has none. */
  lemma UnregisterSparesOthersIff(r: Roster, user: User, c: ChanId)
    requires r.Valid() && c in r.issued && r.issued[c] == user
    ensures (forall d :: d in r.cells && d != c ==> Unregister(r, user).cells[d] == r.cells[d])
            <==> r.Current(c) || user !in r.clients
  {
    if user in r.clients {
      var current := r.clients[user];
      assert Unregister(r, user).cells[current].closed && !r.cells[current].closed;
    }
  }

  /** The failing input: a session that has been replaced unregisters, and it is the replacement that loses its
      channel. */
  lemma LateUnregisterHitsReplacement(r: Roster, user: User, ch: ChanId)
    requires r.Valid() && user in r.clients && ch !in r.cells
    ensures var c, s := r.clients[user], Register(r, user, ch);
            && c != ch && c in s.issued && s.issued[c] == user && !s.Current(c) && s.cells[c].closed
            && s.Current(ch) && !s.cells[ch].closed
            && Unregister(s, user).cells[ch].closed && user !in Unregister(s, user).clients
  {
    RegisterKeepsValid(r, user, ch);
    UnregisterSparesOthersIff(Register(r, user, ch), user, r.clients[user]);
  }
}
