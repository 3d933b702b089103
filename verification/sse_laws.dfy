/** The event stream in plain text, and what a browser shows for each payload. */
module SseLaws {
  import opened EventStream
  import opened SseFrames
  import opened SseWriter
  import opened SseStream

  function Ascii(s: string): (r: Bytes)
    requires forall i :: 0 <= i < |s| ==> s[i] < 128 as char
    ensures |r| == |s| && forall i :: 0 <= i < |s| ==> r[i] as int == s[i] as int
  {
    seq(|s|, i requires 0 <= i < |s| => (s[i] as int) as byte)
  }

  // --- The wire format ------------------------------------------------------------------------------------------------

  lemma EventFieldText()
    ensures FieldLine(EVENT, []) == Ascii("event: ")
  {
  }

  lemma DataFieldText()
    ensures FieldLine(DATA, []) == Ascii("data: ")
  {
  }

  lemma LineEndText()
    ensures Ascii("\n") == [LF] && Ascii("\n\n") == [LF, LF]
  {
  }

  lemma MessageText()
    ensures MESSAGE == Ascii("message")
  {
  }

  /** `event: T`, `data: D` and a blank line; without a type only the latter two. */
  lemma FrameText(etype: Bytes, data: Bytes)
    ensures Frame(etype, data) ==
            (if etype == [] then [] else Ascii("event: ") + etype + Ascii("\n")) + Ascii("data: ") + data + Ascii("\n\n")
  {
    EventFieldText();
    DataFieldText();
    LineEndText();
    assert FieldLine(EVENT, etype) == FieldLine(EVENT, []) + etype;
    assert FieldLine(DATA, data) == FieldLine(DATA, []) + data;
    var start := if etype == [] then [] else Ascii("event: ") + etype + Ascii("\n");
    assert EventPart(etype) == start;
    assert start + (Ascii("data: ") + data + Ascii("\n\n")) == start + Ascii("data: ") + data + Ascii("\n\n");
  }

  lemma KeepAliveText()
    ensures Encode(KeepAlive) == Ascii(": keepalive\n\n")
  {
    assert |KEEPALIVE| == 13;
  }

  function StatusConnected(): Bytes {
    Ascii("{\"status\":\"connected\"}")
  }

  lemma ReadyText()
    ensures READY == Ascii("ready")
  {
  }

  lemma ConnectedText()
    ensures CONNECTED == StatusConnected()
  {
  }

  /** The stream begins with the greeting, byte for byte. */
  lemma GreetingText(turns: seq<Turn>)
    ensures Ascii("event: ") + Ascii("ready") + Ascii("\n") + Ascii("data: ") + StatusConnected() + Ascii("\n\n")
            <= Stream(turns)
  {
    hide Frame, Render, Items;
    ReadyText();
    ConnectedText();
    FrameText(READY, CONNECTED);
    assert Encode(HELLO) == Frame(READY, CONNECTED);
  }

  // --- Turn by turn -----------------------------------------------------------------------------------------------------

  predicate GoesOn(turns: seq<Turn>) {
    forall j :: 0 <= j < |turns| ==> turns[j].Tick? || turns[j].Payload?
  }

  /** A tick adds the keepalive comment to the stream. */
  lemma TickWrites(turns: seq<Turn>, k: nat)
    requires k < |turns| && GoesOn(turns[..k + 1]) && turns[k].Tick?
    ensures Stream(turns[..k + 1]) == Stream(turns[..k]) + Ascii(": keepalive\n\n")
  {
    hide Encode, Stream;
    WritesUpTo(turns, k);
    OneMore(turns, k);
    KeepAliveText();
  }

  lemma WritesUpTo(turns: seq<Turn>, k: nat)
    requires k < |turns| && GoesOn(turns[..k + 1])
    ensures forall j :: 0 <= j <= k ==> Writes(turns[j])
  {
    assert forall j :: 0 <= j <= k ==> turns[..k + 1][j] == turns[j];
  }

  /** Whatever comes after the client has disconnected, or the connection's channel was closed, is not written. */
  lemma EndsWith(turns: seq<Turn>, k: nat)
    requires k < |turns| && GoesOn(turns[..k]) && (turns[k].Disconnected? || turns[k].LocalClosed?)
    ensures Stream(turns) == Stream(turns[..k])
  {
    hide Stream;
    assert forall j :: 0 <= j < k ==> turns[..k][j] == turns[j];
    StreamEnd(turns, k);
  }

  // --- What a payload is shown as -----------------------------------------------------------------------------------------

  /** An envelope with a type and data is shown as that; anything else as a "message" with the payload itself. */
  ghost predicate Shown(turn: Turn, etype: Bytes, data: Bytes) {
    turn.Payload? &&
    match turn.decoded
    case Envelope(t, d) =>
      if t != [] && d != [] then etype == t && data == d else etype == Ascii("message") && data == turn.payload
    case NotAnEnvelope => etype == Ascii("message") && data == turn.payload
  }

  /** Shown without a line break. */
  ghost predicate CleanTurn(turn: Turn) {
    turn.Payload? ==> exists t, d :: Shown(turn, t, d) && Clean(t) && Clean(d)
  }

  function CountPayloads(turns: seq<Turn>): nat {
    if turns == [] then 0 else CountPayloads(turns[..|turns| - 1]) + (if turns[|turns| - 1].Payload? then 1 else 0)
  }

  lemma ItemIsShown(turn: Turn, etype: Bytes, data: Bytes)
    requires turn.Payload? && Shown(turn, etype, data)
    ensures ItemOf(turn) == Sent(etype, data) && Reads(etype, data) == Event(etype, data, [])
  {
    MessageText();
  }

  lemma CleanTurnsCleanItem(turn: Turn)
    requires Writes(turn) && CleanTurn(turn)
    ensures CleanItem(ItemOf(turn))
  {
    if turn.Payload? {
      var t, d :| Shown(turn, t, d) && Clean(t) && Clean(d);
      ItemIsShown(turn, t, d);
    }
  }

  lemma {:induction false} WrittenAppend(a: seq<Item>, item: Item)
    ensures Written(a + [item]) == Written(a) + (if item.Sent? then [Reads(item.etype, item.data)] else [])
    decreases |a|
  {
    hide Reads;
    if a == [] {
      assert a + [item] == [item] && [item][1..] == [];
    } else {
      WrittenAppend(a[1..], item);
      assert (a + [item])[1..] == a[1..] + [item] && (a + [item])[0] == a[0];
    }
  }

  lemma {:induction false} ItemsSoFarAre(turns: seq<Turn>)
    requires GoesOn(turns) && forall j :: 0 <= j < |turns| ==> CleanTurn(turns[j])
    ensures |Written([HELLO] + Items(turns))| == 1 + CountPayloads(turns)
    ensures forall i :: 0 <= i < |[HELLO] + Items(turns)| ==> CleanItem(([HELLO] + Items(turns))[i])
    decreases |turns|
  {
    hide ItemOf, Reads, CleanItem, CleanTurn;
    if turns == [] {
      HelloIsClean();
      OnlyHelloWritten();
    } else {
      var n := |turns| - 1;
      ItemsSoFarAre(turns[..n]);
      assert turns[..n + 1] == turns;
      ItemsSoFar(turns, n);
      CleanTurnsCleanItem(turns[n]);
      WrittenAppend([HELLO] + Items(turns[..n]), ItemOf(turns[n]));
      assert [HELLO] + Items(turns[..n]) + [ItemOf(turns[n])] == [HELLO] + Items(turns);
      SentIffPayload(turns[n]);
    }
  }

  lemma SentIffPayload(turn: Turn)
    requires Writes(turn)
    ensures ItemOf(turn).Sent? <==> turn.Payload?
  {
  }

  lemma OnlyHelloWritten()
    ensures Items([]) == [] && [HELLO] + Items([]) == [HELLO] && Written([HELLO]) == [Reads(READY, CONNECTED)]
  {
    hide Reads;
    assert [HELLO][1..] == [];
  }

  /** The stream up to the k-th turn is a beginning of the whole. */
  lemma StreamGrows(turns: seq<Turn>, k: nat)
    requires k <= |turns|
    ensures Stream(turns[..k]) <= Stream(turns)
  {
    hide Items, Render, Encode;
    ItemsPrefix(turns, k);
    var a, b := Items(turns[..k]), Items(turns);
    assert b == a + b[|a|..];
    RenderAppend(a, b[|a|..]);
    Associative(Encode(HELLO), Render(a), Render(b[|a|..]));
  }

  /** The k-th turn of a response, if the connection took the stream that far: after the greeting and one event per earlier
      payload the browser dispatches what `Shown` says, whatever comes later. */
  lemma KthEvent(turns: seq<Turn>, k: nat, room: nat, etype: Bytes, data: Bytes)
    requires k < |turns| && GoesOn(turns[..k + 1]) && Shown(turns[k], etype, data)
    requires forall j :: 0 <= j <= k ==> CleanTurn(turns[j])
    requires |Stream(turns[..k + 1])| <= room
    ensures Dispatched(Parse(Taken(Stream(turns), room)), 1 + CountPayloads(turns[..k]), etype, data)
  {
    hide Stream, Items, Parse, Written, Shown, CleanTurn, Reads, CleanItem, ItemOf;
    var first := turns[..k + 1];
    assert forall j :: 0 <= j < |first| ==> first[j] == turns[j];
    StreamGrows(turns, k + 1);
    SeenGrows(Stream(first), Stream(turns), room);
    SeenInFull(first);
    LastShown(turns, k, etype, data);
  }

  predicate Dispatched(events: seq<Event>, i: nat, etype: Bytes, data: Bytes) {
    i < |events| && events[i] == Event(etype, data, [])
  }

  /** The greeting is the first event of every response that got that far. */
  lemma GreetingFirst(turns: seq<Turn>, room: nat)
    requires |Stream([])| <= room
    ensures Dispatched(Parse(Taken(Stream(turns), room)), 0, Ascii("ready"), StatusConnected())
  {
    hide Stream, Items, Parse, Written, CleanTurn, Encode;
    assert turns[..0] == [];
    StreamGrows(turns, 0);
    SeenGrows(Stream([]), Stream(turns), room);
    SeenInFull([]);
    GreetingSeen(Items([]));
  }

  lemma SeenGrows(a: Bytes, s: Bytes, room: nat)
    requires a <= s && |a| <= room
    ensures Parse(a) <= Parse(Taken(s, room))
  {
    hide Parse;
    var t := Taken(s, room);
    assert t[..|a|] == a;
    PrefixSafety(t, |a|);
  }

  lemma SeenInFull(turns: seq<Turn>)
    requires GoesOn(turns) && forall j :: 0 <= j < |turns| ==> CleanTurn(turns[j])
    ensures Parse(Stream(turns)) == Written([HELLO] + Items(turns))
  {
    hide Parse, Written, Items, CleanItem, CleanTurn, Encode;
    ItemsSoFarAre(turns);
    var items := [HELLO] + Items(turns);
    assert items[1..] == Items(turns);
    assert Render(items) == Stream(turns);
    RoundTrip(items);
  }

  lemma LastShown(turns: seq<Turn>, k: nat, etype: Bytes, data: Bytes)
    requires k < |turns| && GoesOn(turns[..k + 1]) && Shown(turns[k], etype, data)
    requires forall j :: 0 <= j <= k ==> CleanTurn(turns[j])
    ensures var w := Written([HELLO] + Items(turns[..k + 1]));
            |w| == 2 + CountPayloads(turns[..k]) && w[1 + CountPayloads(turns[..k])] == Event(etype, data, [])
  {
    hide Items, Written, CleanTurn, CleanItem, ItemOf, Reads, CountPayloads;
    WritesUpTo(turns, k);
    assert forall j :: 0 <= j < k ==> turns[..k][j] == turns[j] && turns[..k + 1][j] == turns[j];
    assert GoesOn(turns[..k]);
    ItemsSoFarAre(turns[..k]);
    ItemsSoFar(turns, k);
    ItemIsShown(turns[k], etype, data);
    var before := [HELLO] + Items(turns[..k]);
    WrittenAppend(before, ItemOf(turns[k]));
    assert before + [ItemOf(turns[k])] == [HELLO] + Items(turns[..k + 1]);
  }

  lemma GreetingSeen(items: seq<Item>)
    ensures Written([HELLO] + items) != []
    ensures Written([HELLO] + items)[0] == Event(Ascii("ready"), StatusConnected(), [])
  {
    ReadyText();
    ConnectedText();
    assert ([HELLO] + items)[0] == HELLO;
  }
}
