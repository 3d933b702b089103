/** One response stream: the loop of the SSE handler. */
module SseStream {
  import opened EventStream
  import opened SseFrames
  import opened SseWriter

  /** What json.Unmarshal makes of a bus payload. */
  datatype Decoded = NotAnEnvelope | Envelope(etype: Bytes, data: Bytes)

  /** A payload that is no envelope, or an incomplete one, is passed through as a "message". */
  function Split(payload: Bytes, decoded: Decoded): (r: (Bytes, Bytes)) {
    if decoded.Envelope? && decoded.etype != [] && |decoded.data| > 0 then (decoded.etype, decoded.data) else (MESSAGE, payload)
  }

  /** Which case the handler's select took. */
  datatype Turn = Disconnected | Tick | Payload(payload: Bytes, decoded: Decoded) | LocalClosed

  predicate Writes(turn: Turn) {
    turn.Tick? || turn.Payload?
  }

  function ItemOf(turn: Turn): Item
    requires Writes(turn)
  {
    if turn.Tick? then KeepAlive else
      var (etype, data) := Split(turn.payload, turn.decoded);
      Sent(etype, data)
  }

  /** The items of the turns up to the first one that ends the stream. */
  function Items(turns: seq<Turn>): seq<Item> {
    if turns == [] || !Writes(turns[0]) then [] else [ItemOf(turns[0])] + Items(turns[1..])
  }

  /** `ready` and `{"status":"connected"}`. */
  const READY: Bytes := [114, 101, 97, 100, 121]
  const CONNECTED: Bytes := [123, 34, 115, 116, 97, 116, 117, 115, 34, 58, 34, 99, 111, 110, 110, 101, 99, 116, 101, 100, 34, 125]
  const HELLO: Item := Sent(READY, CONNECTED)

  /** What the handler tries to write. */
  function Stream(turns: seq<Turn>): Bytes {
    Encode(HELLO) + Render(Items(turns))
  }

  lemma {:induction false} ItemsSoFar(turns: seq<Turn>, i: nat)
    requires i < |turns| && forall j :: 0 <= j <= i ==> Writes(turns[j])
    ensures Items(turns[..i + 1]) == Items(turns[..i]) + [ItemOf(turns[i])]
  {
    hide ItemOf;
    if i > 0 {
      ItemsSoFar(turns[1..], i - 1);
      assert turns[..i + 1][1..] == turns[1..][..i] && turns[..i][1..] == turns[1..][..i - 1];
    } else {
      assert turns[..1][1..] == [] && turns[..0] == [];
    }
  }

  lemma {:induction false} ItemsEnd(turns: seq<Turn>, i: nat)
    requires i <= |turns| && (forall j :: 0 <= j < i ==> Writes(turns[j]))
    requires i < |turns| ==> !Writes(turns[i])
    ensures Items(turns) == Items(turns[..i])
  {
    if i > 0 {
      ItemsEnd(turns[1..], i - 1);
      assert turns[..i][1..] == turns[1..][..i - 1];
    }
  }

  lemma {:induction false} RenderAppend(a: seq<Item>, b: seq<Item>)
    ensures Render(a + b) == Render(a) + Render(b)
    decreases |a|
  {
    hide Encode;
    if a == [] {
      assert a + b == b;
    } else {
      RenderAppend(a[1..], b);
      assert (a + b)[0] == a[0] && (a + b)[1..] == a[1..] + b;
      Associative(Encode(a[0]), Render(a[1..]), Render(b));
    }
  }

  lemma Associative(a: Bytes, b: Bytes, c: Bytes)
    ensures a + (b + c) == (a + b) + c
  {
  }

  lemma {:induction false} ItemsPrefix(turns: seq<Turn>, i: nat)
    requires i <= |turns|
    ensures Items(turns[..i]) <= Items(turns)
  {
    if i > 0 && Writes(turns[0]) {
      ItemsPrefix(turns[1..], i - 1);
      assert turns[..i][1..] == turns[1..][..i - 1];
    }
  }

  /** A stream that has already filled the connection gains nothing from more turns. */
  lemma NoRoom(turns: seq<Turn>, i: nat, room: nat)
    requires i <= |turns| && |Stream(turns[..i])| > room
    ensures Taken(Stream(turns), room) == Taken(Stream(turns[..i]), room) && |Stream(turns)| > room
  {
    hide Items, Render, Encode;
    ItemsPrefix(turns, i);
    var a, b := Items(turns[..i]), Items(turns);
    assert b == a + b[|a|..];
    RenderAppend(a, b[|a|..]);
    Associative(Encode(HELLO), Render(a), Render(b[|a|..]));
    Beginning(Stream(turns[..i]), Render(b[|a|..]), room);
  }

  /** The handler from its first flush on.  It stops when the client disconnects, when its channel is closed, or
      when a write fails; an error from writing the first event is ignored.  `turns` is what select delivers. */
  method SubscribePost(w: ResponseWriter, turns: seq<Turn>) returns (taken: nat)
    requires w.out == []
    modifies w
    ensures !w.flushable ==> w.out == [] && taken == 0
    ensures w.flushable ==> w.out == Taken(Stream(turns), old(w.room))
    ensures taken <= |turns|
    ensures w.flushable && |Stream(turns)| <= old(w.room) ==>
              w.flushed == |w.out| && (taken == |turns| || !Writes(turns[taken]))
  {
    hide Items, Render, Encode, Stream, ItemOf, Taken;
    taken := 0;
    if !w.flushable {
      return;
    }
    ghost var room := w.room;
    w.Flush();
    OnlyHello(turns);
    var r := WriteEvent(w, READY, CONNECTED);
    assert w.out == Taken(Stream(turns[..0]), room);
    while taken < |turns|
      invariant taken <= |turns| && forall j :: 0 <= j < taken ==> Writes(turns[j])
      invariant w.out == Taken(Stream(turns[..taken]), room) && w.room == room - |w.out|
      invariant |Stream(turns[..taken])| <= room ==> w.flushed == |w.out|
    {
      if !Writes(turns[taken]) {
        StreamEnd(turns, taken);
        return;
      }
      ghost var before, next := Stream(turns[..taken]), Encode(ItemOf(turns[taken]));
      OneMore(turns, taken);
      TakenInPieces(before, next, room);
      NotEmpty(ItemOf(turns[taken]));
      Fits(before, next, room);
      var ok := WriteItem(w, turns[taken]);
      taken := taken + 1;
      if !ok {
        NoRoom(turns, taken, room);
        return;
      }
    }
    assert turns[..taken] == turns;
  }

  /** What the handler does for a tick and for a payload. */
  method WriteItem(w: ResponseWriter, turn: Turn) returns (ok: bool)
    requires w.flushable && Writes(turn)
    modifies w
    ensures w.out == old(w.out) + Taken(Encode(ItemOf(turn)), old(w.room))
    ensures w.room == old(w.room) - |Taken(Encode(ItemOf(turn)), old(w.room))|
    ensures ok <==> |Encode(ItemOf(turn))| <= old(w.room)
    ensures ok ==> w.flushed == |w.out|
  {
    hide Frame, Taken;
    if turn.Tick? {
      ok := w.Write(KEEPALIVE);
      if ok {
        w.Flush();
      }
    } else {
      var (etype, data) := Split(turn.payload, turn.decoded);
      var r := WriteEvent(w, etype, data);
      ok := r.Done?;
    }
  }

  lemma OnlyHello(turns: seq<Turn>)
    ensures Stream(turns[..0]) == Frame(READY, CONNECTED)
  {
    hide Frame;
    assert Frame(READY, CONNECTED) + [] == Frame(READY, CONNECTED);
  }

  lemma StreamEnd(turns: seq<Turn>, i: nat)
    requires i < |turns| && (forall j :: 0 <= j < i ==> Writes(turns[j])) && !Writes(turns[i])
    ensures Stream(turns) == Stream(turns[..i])
  {
    ItemsEnd(turns, i);
  }

  lemma OneMore(turns: seq<Turn>, i: nat)
    requires i < |turns| && forall j :: 0 <= j <= i ==> Writes(turns[j])
    ensures Stream(turns[..i + 1]) == Stream(turns[..i]) + Encode(ItemOf(turns[i]))
  {
    hide Encode, ItemOf;
    ItemsSoFar(turns, i);
    RenderAppend(Items(turns[..i]), [ItemOf(turns[i])]);
    assert Render([ItemOf(turns[i])]) == Encode(ItemOf(turns[i])) + [];
  }

  lemma NotEmpty(item: Item)
    ensures Encode(item) != []
  {
  }

  lemma Fits(p: Bytes, q: Bytes, room: nat)
    requires q != []
    ensures |q| <= room - |Taken(p, room)| <==> |p + q| <= room
  {
  }

  // --- What the browser sees ------------------------------------------------------------------------------------

  lemma HelloIsClean()
    ensures CleanItem(HELLO)
  {
    assert Clean(READY);
    assert Clean(CONNECTED) by {
      assert forall i :: 0 <= i < |CONNECTED| ==> CONNECTED[i] >= 34;
    }
  }

  /** Whatever the client has received when the connection ends, it has dispatched a prefix of "ready" and the
      events that were written, in order and unaltered; and all of them if nothing was cut off. */
  lemma {:induction false} ClientSees(turns: seq<Turn>, room: nat)
    requires forall i :: 0 <= i < |Items(turns)| ==> CleanItem(Items(turns)[i])
    ensures Parse(Taken(Stream(turns), room)) <= Written([HELLO] + Items(turns))
    ensures |Stream(turns)| <= room ==> Parse(Taken(Stream(turns), room)) == Written([HELLO] + Items(turns))
  {
    hide Written, CleanItem, Encode, Parse;
    HelloIsClean();
    var items := [HELLO] + Items(turns);
    assert items[1..] == Items(turns);
    assert Render(items) == Stream(turns);
    RoundTrip(items);
    CutRoundTrip(items, |Taken(Stream(turns), room)|);
    assert Taken(Stream(turns), room) == Stream(turns)[..|Taken(Stream(turns), room)|];
  }
}
