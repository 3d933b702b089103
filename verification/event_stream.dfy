/** How a browser reads an event stream: sections 9.2.5 and 9.2.6 of the WHATWG HTML Living Standard, on the
    bytes of the stream. */
module EventStream {

  newtype byte = x: int | 0 <= x < 256

  type Bytes = seq<byte>

  const LF: byte := 10
  const CR: byte := 13
  const SPACE: byte := 32
  const COLON: byte := 58

  const EVENT: Bytes := [101, 118, 101, 110, 116]
  const DATA: Bytes := [100, 97, 116, 97]
  const ID: Bytes := [105, 100]
  const RETRY: Bytes := [114, 101, 116, 114, 121]
  const MESSAGE: Bytes := [109, 101, 115, 115, 97, 103, 101]
  const BOM: Bytes := [0xEF, 0xBB, 0xBF]

  // --- Lines -----------------------------------------------------------------------------------------------

  predicate Clean(s: Bytes) {
    LF !in s && CR !in s
  }

  function FirstBreak(s: Bytes): (i: nat)
    ensures i <= |s| && Clean(s[..i])
    ensures i < |s| ==> s[i] == LF || s[i] == CR
  {
    if s == [] || s[0] == LF || s[0] == CR then 0 else
      assert s[..FirstBreak(s[1..]) + 1] == [s[0]] + s[1..][..FirstBreak(s[1..])];
      FirstBreak(s[1..]) + 1
  }

  /** A line ends with LF, with CR, or with the pair of CR and LF. */
  function BreakLength(s: Bytes, i: nat): (n: nat)
    requires i < |s|
    ensures 1 <= n <= 2 && i + n <= |s|
  {
    if s[i] == CR && i + 1 < |s| && s[i + 1] == LF then 2 else 1
  }

  /** The complete lines; what follows the last line end is not one. */
  function Lines(s: Bytes): seq<Bytes> {
    if FirstBreak(s) == |s| then [] else [s[..FirstBreak(s)]] + Lines(AfterLine(s))
  }

  function AfterLine(s: Bytes): (r: Bytes)
    requires FirstBreak(s) < |s|
    ensures |r| < |s|
  {
    s[FirstBreak(s) + BreakLength(s, FirstBreak(s))..]
  }

  // --- Interpretation ------------------------------------------------------------------------------------------

  datatype Event = Event(etype: Bytes, data: Bytes, lastId: Bytes)

  datatype Reader = Reader(data: Bytes, etype: Bytes, lastId: Bytes, retry: Bytes, events: seq<Event>)

  const START: Reader := Reader([], [], [], [], [])

  function FirstColon(s: Bytes): (i: nat)
    ensures i <= |s| && COLON !in s[..i] && (i < |s| ==> s[i] == COLON)
  {
    if s == [] || s[0] == COLON then 0 else
      assert s[..FirstColon(s[1..]) + 1] == [s[0]] + s[1..][..FirstColon(s[1..])];
      FirstColon(s[1..]) + 1
  }

  /** The value behind the colon, without one leading space. */
  function Value(line: Bytes): (v: Bytes) {
    var i := FirstColon(line);
    if i == |line| then [] else
      var v := line[i + 1..];
      if v != [] && v[0] == SPACE then v[1..] else v
  }

  predicate Digits(s: Bytes) {
    forall i :: 0 <= i < |s| ==> 48 <= s[i] <= 57
  }

  function Field(r: Reader, name: Bytes, value: Bytes): (q: Reader)
    ensures q.events == r.events
  {
    if name == EVENT then r.(etype := value)
    else if name == DATA then r.(data := r.data + value + [LF])
    else if name == ID then if 0 in value then r else r.(lastId := value)
    else if name == RETRY then if value != [] && Digits(value) then r.(retry := value) else r
    else r
  }

  function Dispatch(r: Reader): Reader {
    if r.data == [] then r.(etype := [])
    else
      var data := if r.data[|r.data| - 1] == LF then r.data[..|r.data| - 1] else r.data;
      r.(data := [], etype := [],
         events := r.events + [Event(if r.etype == [] then MESSAGE else r.etype, data, r.lastId)])
  }

  function Line(r: Reader, line: Bytes): Reader {
    if line == [] then Dispatch(r)
    else if line[0] == COLON then r
    else Field(r, line[..FirstColon(line)], Value(line))
  }

  function Interpret(r: Reader, lines: seq<Bytes>): Reader
    decreases |lines|
  {
    if lines == [] then r else Interpret(Line(r, lines[0]), lines[1..])
  }

  function StripBom(s: Bytes): Bytes {
    if BOM <= s then s[|BOM|..] else s
  }

  /** The events a browser has dispatched once it has read `s`. */
  function Parse(s: Bytes): seq<Event> {
    Interpret(START, Lines(StripBom(s))).events
  }

  // --- Cutting a stream ------------------------------------------------------------------------------------------

  lemma {:induction false} FirstBreakStays(a: Bytes, b: Bytes)
    requires FirstBreak(a) < |a|
    ensures FirstBreak(a + b) == FirstBreak(a)
  {
    assert (a + b)[0] == a[0];
    if a[0] != LF && a[0] != CR {
      FirstBreakStays(a[1..], b);
      assert (a + b)[1..] == a[1..] + b;
    }
  }

  lemma AfterLineStays(a: Bytes, b: Bytes)
    requires FirstBreak(a) < |a|
    ensures FirstBreak(a + b) == FirstBreak(a)
    ensures AfterLine(a) != [] ==> AfterLine(a + b) == AfterLine(a) + b
    ensures (a + b)[..FirstBreak(a)] == a[..FirstBreak(a)]
  {
    FirstBreakStays(a, b);
  }

  lemma {:induction false} LinesGrow(a: Bytes, b: Bytes)
    ensures Lines(a) <= Lines(a + b)
    decreases |a|
  {
    hide AfterLine, BreakLength;
    if FirstBreak(a) < |a| {
      AfterLineStays(a, b);
      if AfterLine(a) != [] {
        LinesGrow(AfterLine(a), b);
      }
    }
  }

  lemma {:induction false} EventsGrow(r: Reader, lines: seq<Bytes>)
    ensures r.events <= Interpret(r, lines).events
    decreases |lines|
  {
    if lines != [] {
      EventsGrow(Line(r, lines[0]), lines[1..]);
    }
  }

  lemma {:induction false} InterpretAppend(r: Reader, a: seq<Bytes>, b: seq<Bytes>)
    ensures Interpret(r, a + b) == Interpret(Interpret(r, a), b)
    decreases |a|
  {
    if a == [] {
      assert a + b == b;
    } else {
      assert (a + b)[1..] == a[1..] + b;
      InterpretAppend(Line(r, a[0]), a[1..], b);
    }
  }

  lemma StripBomGrows(a: Bytes, b: Bytes)
    ensures Lines(StripBom(a)) <= Lines(StripBom(a + b))
  {
    if BOM <= a {
      assert (a + b)[|BOM|..] == a[|BOM|..] + b;
      LinesGrow(a[|BOM|..], b);
    } else if BOM <= a + b {
      PartOfBom(a, b);
    } else {
      LinesGrow(a, b);
    }
  }

  lemma PartOfBom(a: Bytes, b: Bytes)
    requires BOM <= a + b && !(BOM <= a)
    ensures Lines(a) == []
  {
    assert forall i :: 0 <= i < |a| ==> a[i] == (a + b)[i] == BOM[i];
  }

  /** Whatever the stream, cutting it at any byte yields a prefix of its events: none is lost half-way, altered or
      made up. */
  lemma PrefixSafety(s: Bytes, k: nat)
    requires k <= |s|
    ensures Parse(s[..k]) <= Parse(s)
  {
    var a, b := s[..k], s[k..];
    assert s == a + b;
    StripBomGrows(a, b);
    var short, long := Lines(StripBom(a)), Lines(StripBom(s));
    assert long == short + long[|short|..];
    InterpretAppend(START, short, long[|short|..]);
    EventsGrow(Interpret(START, short), long[|short|..]);
  }
}
