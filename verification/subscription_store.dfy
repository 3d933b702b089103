/** The per-connection fan-out of one gateway: which connection watches which post, through which
    event channel. */
module SubscriptionStore {
  import opened GoChannels

  type Post = string
  type Conn = string

  datatype Subscription = Subscription(userID: string, ch: ChanId)

  type Subs = map<Post, map<Conn, Subscription>>

  function Inner(subs: Subs, post: Post): map<Conn, Subscription> {
    if post in subs then subs[post] else map[]
  }

  predicate Has(subs: Subs, post: Post, conn: Conn) {
    conn in Inner(subs, post)
  }

  /** The (post, connection) pairs the store stands for. */
  ghost function Pairs(subs: Subs): iset<(Post, Conn)> {
    iset p: Post, c: Conn | Has(subs, p, c) :: (p, c)
  }

  function ChansOf(inner: map<Conn, Subscription>): set<ChanId> {
    set c | c in inner :: inner[c].ch
  }

  function Targets(subs: Subs, post: Post): set<ChanId> {
    ChansOf(Inner(subs, post))
  }

  function AllTargets(subs: Subs): (r: set<ChanId>)
    ensures forall ch :: ch in r <==> exists p :: p in subs && ch in ChansOf(subs[p])
  {
    set p, ch | p in subs && ch in ChansOf(subs[p]) :: ch
  }

  function Add(subs: Subs, post: Post, conn: Conn, sub: Subscription): (r: Subs)
    ensures forall p :: Inner(r, p) == if p == post then Inner(subs, p)[conn := sub] else Inner(subs, p)
  {
    subs[post := Inner(subs, post)[conn := sub]]
  }

  function Drop(subs: Subs, post: Post, conn: Conn): (r: Subs)
    ensures forall p :: Inner(r, p) == if p == post then Inner(subs, p) - {conn} else Inner(subs, p)
  {
    if !Has(subs, post, conn) then subs else
      var rest := subs[post] - {conn};
      if rest == map[] then subs - {post} else subs[post := rest]
  }

  ghost predicate NoEmptyInner(subs: Subs) {
    forall p :: p in subs ==> subs[p] != map[]
  }

  type Owner = map<ChanId, (Post, Conn)>

  /** Registered channels are open, and each belongs to one connection only; that is what makes every
      send and the one close of each of them safe. */
  ghost predicate ChannelsValid(subs: Subs, events: Table<Payload>, owner: Owner) {
    forall p, c :: Has(subs, p, c) ==>
      var ch := Inner(subs, p)[c].ch;
      ch in events && !events[ch].closed && ch in owner && owner[ch] == (p, c)
  }

  lemma AddIsInsert(subs: Subs, post: Post, conn: Conn, sub: Subscription)
    ensures Pairs(Add(subs, post, conn, sub)) == Pairs(subs) + iset{(post, conn)}
  {
    var r := Add(subs, post, conn, sub);
    forall p, c ensures (p, c) in Pairs(r) <==> (p, c) in Pairs(subs) || (p, c) == (post, conn) {
      assert Has(r, p, c) <==> Has(subs, p, c) || (p == post && c == conn);
    }
  }

  lemma AddGrows(subs: Subs, post: Post, conn: Conn, sub: Subscription)
    ensures NoEmptyInner(subs) ==> NoEmptyInner(Add(subs, post, conn, sub))
    ensures Add(subs, post, conn, sub).Keys == subs.Keys + {post}
    ensures !Has(subs, post, conn) ==> |Inner(Add(subs, post, conn, sub), post)| == |Inner(subs, post)| + 1
  {
    assert conn in Add(subs, post, conn, sub)[post];
  }

  lemma DropIsDelete(subs: Subs, post: Post, conn: Conn)
    ensures Pairs(Drop(subs, post, conn)) == Pairs(subs) - iset{(post, conn)}
  {
    var r := Drop(subs, post, conn);
    forall p, c ensures (p, c) in Pairs(r) <==> (p, c) in Pairs(subs) && (p, c) != (post, conn) {
      assert Has(r, p, c) <==> Has(subs, p, c) && !(p == post && c == conn);
    }
  }

  lemma DropShrinks(subs: Subs, post: Post, conn: Conn)
    requires NoEmptyInner(subs)
    ensures NoEmptyInner(Drop(subs, post, conn))
    ensures Has(subs, post, conn) ==> |Inner(Drop(subs, post, conn), post)| == |Inner(subs, post)| - 1
  {
    if Has(subs, post, conn) {
      assert (subs[post] - {conn}).Keys == subs[post].Keys - {conn};
    }
  }

  ghost predicate InnerValid(inner: map<Conn, Subscription>, events: Table<Payload>) {
    && (forall c :: c in inner ==> inner[c].ch in events && !events[inner[c].ch].closed)
    && (forall c, d :: c in inner && d in inner && inner[c].ch == inner[d].ch ==> c == d)
  }

  lemma InnerIsValid(subs: Subs, events: Table<Payload>, owner: Owner, post: Post)
    requires ChannelsValid(subs, events, owner)
    ensures InnerValid(Inner(subs, post), events)
  {
    var inner := Inner(subs, post);
    forall c | c in inner
      ensures inner[c].ch in events && !events[inner[c].ch].closed && inner[c].ch in owner && owner[inner[c].ch].1 == c
    {
      assert Has(subs, post, c);
    }
  }

  lemma TargetsExist(subs: Subs, events: Table<Payload>, owner: Owner)
    requires ChannelsValid(subs, events, owner)
    ensures AllTargets(subs) <= events.Keys
  {
    forall p, c | p in subs && c in subs[p] ensures subs[p][c].ch in events {
      assert Has(subs, p, c);
    }
  }

  lemma MakeKeepsChannels(subs: Subs, events: Table<Payload>, owner: Owner)
    requires ChannelsValid(subs, events, owner)
    ensures forall ch: ChanId :: ch !in events ==> ChannelsValid(subs, events[ch := Fresh()], owner)
  {
  }

  lemma AddKeepsChannels(subs: Subs, events: Table<Payload>, owner: Owner, post: Post, conn: Conn, sub: Subscription)
    requires ChannelsValid(subs, events, owner)
    requires sub.ch in events && !events[sub.ch].closed && sub.ch !in AllTargets(subs)
    ensures ChannelsValid(Add(subs, post, conn, sub), events, owner[sub.ch := (post, conn)])
  {
    var r := Add(subs, post, conn, sub);
    forall p, c | Has(r, p, c) && !(p == post && c == conn) ensures Has(subs, p, c) && Inner(r, p)[c] == Inner(subs, p)[c] && Inner(r, p)[c].ch != sub.ch {
      assert Has(subs, p, c);
      assert subs[p][c].ch in ChansOf(subs[p]);
    }
  }

  lemma DropKeepsChannels(subs: Subs, events: Table<Payload>, owner: Owner, post: Post, conn: Conn)
    requires ChannelsValid(subs, events, owner)
    ensures ChannelsValid(Drop(subs, post, conn), events, owner)
  {
    var r := Drop(subs, post, conn);
    forall p, c | Has(r, p, c) ensures Has(subs, p, c) && Inner(r, p)[c] == Inner(subs, p)[c] {
    }
  }

  /** The loop of Publish: one non-blocking send per connection, in no particular order. */
  method OfferEach(heap: Heap<Payload>, inner: map<Conn, Subscription>, ev: Payload)
    requires heap.Valid() && InnerValid(inner, heap.cells)
    modifies heap
    ensures heap.Valid() && heap.cells == OfferAll(old(heap.cells), ChansOf(inner), ev)
  {
    ghost var was := heap.cells;
    ghost var done: set<ChanId> := {};
    var todo := inner.Keys;
    assert was == OfferAll(was, done, ev);
    while todo != {}
      invariant todo <= inner.Keys && heap.Valid()
      invariant done == set c | c in inner && c !in todo :: inner[c].ch
      invariant heap.cells == OfferAll(was, done, ev)
    {
      var conn :| conn in todo;
      OfferOne(was, done, inner[conn].ch, ev);
      var sent := heap.Offer(inner[conn].ch, ev);
      done, todo := done + {inner[conn].ch}, todo - {conn};
    }
    assert done == ChansOf(inner);
  }

  /** The inner loop of Close. */
  method CloseEach(heap: Heap<Payload>, inner: map<Conn, Subscription>)
    requires heap.Valid() && InnerValid(inner, heap.cells)
    modifies heap
    ensures heap.Valid() && heap.cells == CloseAll(old(heap.cells), ChansOf(inner))
  {
    ghost var was := heap.cells;
    ghost var done: set<ChanId> := {};
    var todo := inner.Keys;
    assert was == CloseAll(was, done);
    while todo != {}
      invariant todo <= inner.Keys && heap.Valid()
      invariant done == set c | c in inner && c !in todo :: inner[c].ch
      invariant heap.cells == CloseAll(was, done)
    {
      var conn :| conn in todo;
      CloseMore(was, done, {inner[conn].ch});
      heap.Close(inner[conn].ch);
      done, todo := done + {inner[conn].ch}, todo - {conn};
    }
    assert done == ChansOf(inner);
  }

  class Store {
    var subs: Subs
    const heap: Heap<Payload>
    ghost var owner: Owner

    ghost predicate Valid()
      reads this, heap
    {
      heap.Valid() && NoEmptyInner(subs) && ChannelsValid(subs, heap.cells, owner)
    }

    constructor (heap: Heap<Payload>)
      requires heap.Valid()
      ensures Valid() && subs == map[] && this.heap == heap
    {
      subs, owner := map[], map[];
      this.heap := heap;
    }

    /** `uuid` is the connection ID drawn for this call; `ch` is an open channel of the caller's that
        no other connection uses. */
    method Subscribe(post: Post, userID: string, ch: ChanId, uuid: Conn) returns (conn: Conn, firstForPost: bool)
      requires Valid()
      requires ch in heap.cells && !heap.cells[ch].closed && ch !in AllTargets(subs)
      modifies this
      ensures Valid() && conn == uuid
      ensures subs == Add(old(subs), post, conn, Subscription(userID, ch))
      ensures firstForPost <==> Inner(old(subs), post) == map[]
    {
      conn := uuid;
      var inner := map[];
      firstForPost := post !in subs;
      if !firstForPost {
        inner := subs[post];
      }
      AddGrows(subs, post, conn, Subscription(userID, ch));
      AddKeepsChannels(subs, heap.cells, owner, post, conn, Subscription(userID, ch));
      subs := subs[post := inner[conn := Subscription(userID, ch)]];
      owner := owner[ch := (post, conn)];
    }

    /** The user is not compared with the one that subscribed; an unknown connection changes nothing. */
    method Unsubscribe(post: Post, userID: string, conn: Conn) returns (lastForPost: bool)
      requires Valid()
      modifies this
      ensures Valid() && subs == Drop(old(subs), post, conn)
      ensures lastForPost <==> Has(old(subs), post, conn) && post !in subs
    {
      DropShrinks(subs, post, conn);
      DropKeepsChannels(subs, heap.cells, owner, post, conn);
      if post !in subs || conn !in subs[post] {
        return false;
      }
      var rest := subs[post] - {conn};
      lastForPost := |rest| == 0;
      subs := if lastForPost then subs - {post} else subs[post := rest];
    }

    method Publish(post: Post, ev: Payload)
      requires Valid()
      modifies heap
      ensures Valid() && heap.cells == OfferAll(old(heap.cells), Targets(subs, post), ev)
    {
      if post in subs {
        InnerIsValid(subs, heap.cells, owner, post);
        OfferEach(heap, subs[post], ev);
      }
    }

    /** How many connections watch the post. */
    method Subscribers(post: Post) returns (n: nat)
      ensures n == |Inner(subs, post)|
    {
      n := if post in subs then |subs[post]| else 0;
    }

    method Close()
      requires Valid()
      modifies this, heap
      ensures Valid() && subs == map[]
      ensures heap.cells == CloseAll(old(heap.cells), AllTargets(old(subs)))
    {
      ghost var was, done: set<ChanId> := heap.cells, {};
      var posts := subs.Keys;
      assert was == CloseAll(was, done);
      while posts != {}
        invariant posts <= subs.Keys && subs == old(subs) && owner == old(owner) && heap.Valid()
        invariant done == set p, ch | p in subs && p !in posts && ch in ChansOf(subs[p]) :: ch
        invariant heap.cells == CloseAll(was, done)
      {
        var post :| post in posts;
        StillOpen(subs, was, owner, post, posts, done);
        CloseEach(heap, subs[post]);
        CloseMore(was, done, ChansOf(subs[post]));
        done, posts := done + ChansOf(subs[post]), posts - {post};
      }
      assert done == AllTargets(subs);
      subs := map[];
    }
  }

  lemma StillOpen(subs: Subs, was: Table<Payload>, owner: Owner, post: Post, posts: set<Post>, done: set<ChanId>)
    requires ChannelsValid(subs, was, owner) && post in posts && post in subs
    requires done == set p, ch | p in subs && p !in posts && ch in ChansOf(subs[p]) :: ch
    ensures InnerValid(subs[post], CloseAll(was, done))
  {
    InnerIsValid(subs, was, owner, post);
    forall c | c in subs[post] ensures subs[post][c].ch !in done {
      assert Has(subs, post, c);
      forall p | p in subs && p !in posts ensures subs[post][c].ch !in ChansOf(subs[p]) {
        assert forall d :: d in subs[p] ==> Has(subs, p, d);
      }
    }
  }

  // --- What Publish and Close do, told by the registrations ----------------------------------------------------------

  /** A channel that no connection of the post is registered with. */
  ghost predicate Unregistered(subs: Subs, post: Post, ch: ChanId) {
    forall c :: Has(subs, post, c) ==> Inner(subs, post)[c].ch != ch
  }

  /** Publish puts the event last into the channel of every connection of the post that has room for it; a full channel
      loses it, and no other channel changes. */
  lemma PublishMeans(subs: Subs, events: Table<Payload>, owner: Owner, post: Post, ev: Payload)
    requires ChannelsValid(subs, events, owner)
    ensures var after := OfferAll(events, Targets(subs, post), ev);
            && after.Keys == events.Keys
            && (forall c :: Has(subs, post, c) ==>
                  var ch := Inner(subs, post)[c].ch;
                  && ch in events && ch in after
                  && after[ch].buf == (if |events[ch].buf| < events[ch].cap then events[ch].buf + [ev] else events[ch].buf)
                  && !after[ch].closed)
            && (forall ch :: ch in events && Unregistered(subs, post, ch) ==> after[ch] == events[ch])
  {
    forall c | Has(subs, post, c) ensures Inner(subs, post)[c].ch in Targets(subs, post) {
    }
    forall ch | ch in Targets(subs, post) ensures !Unregistered(subs, post, ch) {
      var c :| c in Inner(subs, post) && Inner(subs, post)[c].ch == ch;
      assert Has(subs, post, c);
    }
  }

  /** Close closes the channel of every connection, keeping what it has buffered, and no other channel. */
  lemma CloseMeans(subs: Subs, events: Table<Payload>, owner: Owner)
    requires ChannelsValid(subs, events, owner)
    ensures var after := CloseAll(events, AllTargets(subs));
            && after.Keys == events.Keys
            && (forall p, c :: Has(subs, p, c) ==>
                  var ch := Inner(subs, p)[c].ch;
                  ch in events && ch in after && after[ch] == Chan(events[ch].cap, events[ch].buf, true))
            && (forall ch :: ch in events && (forall p :: Unregistered(subs, p, ch)) ==> after[ch] == events[ch])
  {
    forall p, c | Has(subs, p, c) ensures Inner(subs, p)[c].ch in AllTargets(subs) {
      assert subs[p][c].ch in ChansOf(subs[p]);
    }
    forall ch | ch in AllTargets(subs) ensures exists p :: !Unregistered(subs, p, ch) {
      var p :| p in subs && ch in ChansOf(subs[p]);
      var c :| c in subs[p] && subs[p][c].ch == ch;
      assert Has(subs, p, c);
      assert !Unregistered(subs, p, ch);
    }
  }
}
