/** The frames the gateway writes, and what a browser makes of them. */
module SseFrames {
  import opened EventStream

  function FieldLine(name: Bytes, value: Bytes): Bytes {
    name + [COLON, SPACE] + value
  }

  /** The bytes of `event: T`, `data: D` and a blank line; an empty type is left out. */
  function Frame(etype: Bytes, data: Bytes): Bytes {
    EventPart(etype) + DataPart(data)
  }

  function EventPart(etype: Bytes): Bytes {
    if etype == [] then [] else FieldLine(EVENT, etype) + [LF]
  }

  function DataPart(data: Bytes): Bytes {
    FieldLine(DATA, data) + [LF, LF]
  }

  /** The comment `: keepalive`. */
  const COMMENT: Bytes := [58, 32, 107, 101, 101, 112, 97, 108, 105, 118, 101]
  const KEEPALIVE: Bytes := COMMENT + [LF, LF]

  datatype Item = Sent(etype: Bytes, data: Bytes) | KeepAlive

  function Encode(item: Item): Bytes {
    if item.KeepAlive? then KEEPALIVE else Frame(item.etype, item.data)
  }

  function Render(items: seq<Item>): Bytes {
    if items == [] then [] else Encode(items[0]) + Render(items[1..])
  }

  predicate CleanItem(item: Item) {
    item.Sent? ==> Clean(item.etype) && Clean(item.data)
  }

  /** What was written, as a browser is to see it. */
  function Reads(etype: Bytes, data: Bytes): Event {
    Event(if etype == [] then MESSAGE else etype, data, [])
  }

  function Written(items: seq<Item>): seq<Event> {
    if items == [] then []
    else (if items[0].Sent? then [Reads(items[0].etype, items[0].data)] else []) + Written(items[1..])
  }

  // --- Reading one line -----------------------------------------------------------------------------------------

  lemma {:induction false} BreakAfter(l: Bytes, rest: Bytes)
    requires Clean(l)
    ensures FirstBreak(l + [LF] + rest) == |l|
  {
    var s := l + [LF] + rest;
    if l == [] {
      assert s[0] == LF;
    } else {
      assert s[0] == l[0] && s[1..] == l[1..] + [LF] + rest;
      BreakAfter(l[1..], rest);
    }
  }

  lemma LinesOf(l: Bytes, rest: Bytes)
    requires Clean(l)
    ensures Lines(l + [LF] + rest) == [l] + Lines(rest)
  {
    var s := l + [LF] + rest;
    BreakAfter(l, rest);
    assert s[..|l|] == l && s[|l|] == LF;
    assert AfterLine(s) == rest;
  }

  lemma ReadLine(r: Reader, l: Bytes, rest: Bytes)
    requires Clean(l)
    ensures Interpret(r, Lines(l + [LF] + rest)) == Interpret(Line(r, l), Lines(rest))
  {
    hide Lines, Line;
    LinesOf(l, rest);
    var lines := Lines(l + [LF] + rest);
    assert lines[0] == l && lines[1..] == Lines(rest);
  }

  lemma {:induction false} ColonAfter(name: Bytes, rest: Bytes)
    requires COLON !in name
    ensures FirstColon(name + [COLON] + rest) == |name|
  {
    var s := name + [COLON] + rest;
    if name == [] {
      assert s[0] == COLON;
    } else {
      assert s[0] == name[0] && s[1..] == name[1..] + [COLON] + rest;
      ColonAfter(name[1..], rest);
    }
  }

  lemma LineIsField(r: Reader, name: Bytes, value: Bytes)
    requires COLON !in name && name != []
    ensures Line(r, FieldLine(name, value)) == Field(r, name, value)
  {
    hide Field;
    var l := FieldLine(name, value);
    assert l == name + [COLON] + ([SPACE] + value);
    ColonAfter(name, [SPACE] + value);
    assert l[0] == name[0] && l[..|name|] == name;
    var v := l[|name| + 1..];
    assert v == [SPACE] + value && v[1..] == value;
  }

  // --- Reading one frame ----------------------------------------------------------------------------------------

  /** Between two events. */
  predicate Fresh(r: Reader) {
    r.data == [] && r.etype == []
  }

  lemma ReadEventPart(r: Reader, etype: Bytes, rest: Bytes)
    requires Fresh(r) && Clean(etype)
    ensures Interpret(r, Lines(EventPart(etype) + rest)) == Interpret(r.(etype := etype), Lines(rest))
  {
    hide Interpret, Lines, Line;
    if etype == [] {
      assert EventPart(etype) + rest == rest;
    } else {
      ReadLine(r, FieldLine(EVENT, etype), rest);
      LineIsField(r, EVENT, etype);
    }
  }

  lemma ReadDataLine(r: Reader, data: Bytes, rest: Bytes)
    requires r.data == [] && Clean(data)
    ensures Interpret(r, Lines(FieldLine(DATA, data) + [LF] + rest)) == Interpret(r.(data := data + [LF]), Lines(rest))
  {
    hide Interpret, Lines, Line;
    ReadLine(r, FieldLine(DATA, data), rest);
    LineIsField(r, DATA, data);
    assert [] + data + [LF] == data + [LF];
  }

  lemma ReadBlank(r: Reader, rest: Bytes)
    ensures Interpret(r, Lines([LF] + rest)) == Interpret(Dispatch(r), Lines(rest))
  {
    hide Interpret, Lines, Dispatch;
    assert [] + [LF] + rest == [LF] + rest;
    ReadLine(r, [], rest);
  }

  lemma ReadFrame(r: Reader, etype: Bytes, data: Bytes, rest: Bytes)
    requires Fresh(r) && r.lastId == [] && Clean(etype) && Clean(data)
    ensures Interpret(r, Lines(Frame(etype, data) + rest)) ==
            Interpret(r.(events := r.events + [Reads(etype, data)]), Lines(rest))
  {
    hide Interpret, Lines, FieldLine, EventPart;
    assert Frame(etype, data) + rest == EventPart(etype) + (DataPart(data) + rest);
    assert DataPart(data) + rest == FieldLine(DATA, data) + [LF] + ([LF] + rest);
    ReadEventPart(r, etype, DataPart(data) + rest);
    ReadDataLine(r.(etype := etype), data, [LF] + rest);
    var full := r.(etype := etype, data := data + [LF]);
    ReadBlank(full, rest);
    assert full.data[..|full.data| - 1] == data;
  }

  lemma ReadKeepAlive(r: Reader, rest: Bytes)
    requires Fresh(r)
    ensures Interpret(r, Lines(KEEPALIVE + rest)) == Interpret(r, Lines(rest))
  {
    hide Interpret, Lines;
    assert KEEPALIVE + rest == COMMENT + [LF] + ([LF] + rest);
    ReadLine(r, COMMENT, [LF] + rest);
    ReadBlank(r, rest);
  }

  // --- Reading a stream -----------------------------------------------------------------------------------------

  lemma {:induction false} ReadItems(r: Reader, items: seq<Item>)
    requires Fresh(r) && r.lastId == [] && forall i :: 0 <= i < |items| ==> CleanItem(items[i])
    ensures Interpret(r, Lines(Render(items))) == r.(events := r.events + Written(items))
    decreases |items|
  {
    hide Frame, Reads, Interpret, Lines, Clean, Encode;
    if items == [] {
      ReadNothing(r);
      assert r.events + [] == r.events;
    } else {
      ReadItem(r, items[0], Render(items[1..]));
      ReadItems(After(r, items[0]), items[1..]);
      AfterAll(r, items);
    }
  }

  /** The reader once it has read one item. */
  function After(r: Reader, item: Item): Reader {
    if item.KeepAlive? then r else r.(events := r.events + [Reads(item.etype, item.data)])
  }

  lemma ReadItem(r: Reader, item: Item, rest: Bytes)
    requires Fresh(r) && r.lastId == [] && CleanItem(item)
    ensures Interpret(r, Lines(Encode(item) + rest)) == Interpret(After(r, item), Lines(rest))
  {
    hide Frame, Reads, Interpret, Lines, Clean;
    match item
    case KeepAlive => ReadKeepAlive(r, rest);
    case Sent(etype, data) => ReadFrame(r, etype, data, rest);
  }

  lemma AfterAll(r: Reader, items: seq<Item>)
    requires items != []
    ensures After(r, items[0]).events + Written(items[1..]) == r.events + Written(items)
  {
    hide Reads;
    if items[0].Sent? {
      var first := [Reads(items[0].etype, items[0].data)];
      assert r.events + first + Written(items[1..]) == r.events + (first + Written(items[1..]));
    } else {
      assert [] + Written(items[1..]) == Written(items[1..]);
    }
  }

  lemma ReadNothing(r: Reader)
    ensures Interpret(r, Lines([])) == r
  {
  }

  lemma NoBom(items: seq<Item>)
    ensures StripBom(Render(items)) == Render(items)
  {
    if items != [] {
      var s := Render(items);
      assert s[0] == Encode(items[0])[0];
      assert s[0] == 58 || s[0] == 101 || s[0] == 100;
    }
  }

  /** A browser reads exactly the events that were written, and no keepalive. */
  lemma {:induction false} RoundTrip(items: seq<Item>)
    requires forall i :: 0 <= i < |items| ==> CleanItem(items[i])
    ensures Parse(Render(items)) == Written(items)
  {
    hide Interpret, Lines, Render, Written, CleanItem;
    NoBom(items);
    ReadItems(START, items);
    assert [] + Written(items) == Written(items);
  }

  /** A connection that breaks at any byte has shown the browser a prefix of the events. */
  lemma {:induction false} CutRoundTrip(items: seq<Item>, k: nat)
    requires forall i :: 0 <= i < |items| ==> CleanItem(items[i])
    requires k <= |Render(items)|
    ensures Parse(Render(items)[..k]) <= Written(items)
  {
    RoundTrip(items);
    PrefixSafety(Render(items), k);
  }
}
