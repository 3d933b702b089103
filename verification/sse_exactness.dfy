/** Exactly which streams can be read back: those without a line break in any type or data. */
module SseExactness {
  import opened EventStream
  import opened SseFrames

  // --- Nothing a browser reads contains a carriage return, and no type a line break ---------------------------------

  ghost predicate Tidy(r: Reader) {
    && Clean(r.etype) && CR !in r.data
    && forall i :: 0 <= i < |r.events| ==> Clean(r.events[i].etype) && CR !in r.events[i].data
  }

  lemma {:induction false} LinesAreClean(s: Bytes)
    ensures forall i :: 0 <= i < |Lines(s)| ==> Clean(Lines(s)[i])
    decreases |s|
  {
    hide AfterLine;
    if FirstBreak(s) < |s| {
      LinesAreClean(AfterLine(s));
    }
  }

  lemma LineKeepsTidy(r: Reader, line: Bytes)
    requires Tidy(r) && Clean(line)
    ensures Tidy(Line(r, line))
  {
    assert Clean(MESSAGE);
    assert forall b :: b in Value(line) ==> b in line;
  }

  lemma {:induction false} ReadingIsTidy(r: Reader, lines: seq<Bytes>)
    requires Tidy(r) && forall i :: 0 <= i < |lines| ==> Clean(lines[i])
    ensures Tidy(Interpret(r, lines))
    decreases |lines|
  {
    hide Tidy, Line, Clean;
    if lines != [] {
      LineKeepsTidy(r, lines[0]);
      ReadingIsTidy(Line(r, lines[0]), lines[1..]);
    }
  }

  lemma ClearIsClean()
    ensures Clean([])
  {
  }

  // --- How much data a stretch of lines can carry -----------------------------------------------------------------------

  function Weight(lines: seq<Bytes>): nat {
    if lines == [] then 0 else |lines[0]| + 1 + Weight(lines[1..])
  }

  lemma {:induction false} WeightOfLines(s: Bytes)
    ensures Weight(Lines(s)) <= |s|
    decreases |s|
  {
    if FirstBreak(s) < |s| {
      WeightOfLines(AfterLine(s));
      assert Lines(s)[1..] == Lines(AfterLine(s));
    }
  }

  predicate Ended(data: Bytes) {
    data == [] || data[|data| - 1] == LF
  }

  /** A line that is not blank adds no event, and less data than its own length. */
  lemma LineGain(r: Reader, line: Bytes)
    requires line != [] && Ended(r.data)
    ensures var q := Line(r, line); q.events == r.events && |q.data| <= |r.data| + |line| && Ended(q.data)
    ensures r.data != [] ==> Line(r, line).data != []
  {
    if line[0] != COLON && line[..FirstColon(line)] == DATA {
      assert |line| >= 4;
      assert |Value(line)| < |line|;
    }
  }

  lemma {:induction false} DataBound(r: Reader, lines: seq<Bytes>, i: nat)
    requires Ended(r.data) && |r.events| <= i < |Interpret(r, lines).events|
    ensures |Interpret(r, lines).events[i].data| + 2 <= |r.data| + Weight(lines)
    ensures lines != [] && lines[0] != [] ==> |Interpret(r, lines).events[i].data| + 3 <= |r.data| + Weight(lines)
    decreases |lines|
  {
    hide Line, Dispatch;
    if lines != [] {
      var q := Line(r, lines[0]);
      if lines[0] != [] {
        LineGain(r, lines[0]);
        DataBound(q, lines[1..], i);
      } else {
        BlankGain(r);
        EventsGrow(q, lines[1..]);
        if i >= |q.events| {
          DataBound(q, lines[1..], i);
        }
      }
    }
  }

  lemma BlankGain(r: Reader)
    requires Ended(r.data)
    ensures var q := Line(r, []);
            && q.data == [] && |q.events| == |r.events| + (if r.data == [] then 0 else 1)
            && (|q.events| > |r.events| ==> |q.events[|r.events|].data| + 1 == |r.data|)
  {
  }

  // --- Every frame ends in a blank line ----------------------------------------------------------------------------------

  lemma {:induction false} LinesSplit(a: Bytes, b: Bytes)
    requires a == [] || a[|a| - 1] == LF
    ensures Lines(a + b) == Lines(a) + Lines(b)
    decreases |a|
  {
    hide Clean;
    if a == [] {
      assert a + b == b;
    } else {
      BreakBeforeEnd(a, FirstBreak(a));
      FirstBreakStays(a, b);
      assert AfterLine(a + b) == AfterLine(a) + b;
      assert (a + b)[..FirstBreak(a)] == a[..FirstBreak(a)];
      LinesSplit(AfterLine(a), b);
    }
  }

  lemma BreakBeforeEnd(a: Bytes, i: nat)
    requires a != [] && a[|a| - 1] == LF && i == FirstBreak(a)
    ensures i < |a| && (a[i] == CR ==> i + 1 < |a|)
  {
    assert a[..|a|] == a && LF in a;
  }

  lemma LastIsBlank(s: Bytes)
    requires s == [] || s[|s| - 1] == LF
    ensures var lines := Lines(s + [LF]); lines != [] && lines[|lines| - 1] == []
  {
    LinesSplit(s, [LF]);
    assert FirstBreak([LF]) == 0 && AfterLine([LF]) == [];
    assert Lines([LF]) == [[]] + Lines([]);
  }

  /** With data waiting, the blank line at the end dispatches an event if none was dispatched before. */
  lemma {:induction false} Dispatches(r: Reader, lines: seq<Bytes>)
    requires r.data != [] && Ended(r.data) && lines != [] && lines[|lines| - 1] == []
    ensures |Interpret(r, lines).events| > |r.events|
    decreases |lines|
  {
    hide Line, Ended;
    if lines[0] == [] {
      BlankGain(r);
      EventsGrow(Line(r, []), lines[1..]);
    } else {
      LineGain(r, lines[0]);
      Dispatches(Line(r, lines[0]), lines[1..]);
    }
  }

  // --- The criterion ------------------------------------------------------------------------------------------------------

  lemma ReadFirstDataLine(r: Reader, etype: Bytes, x: Bytes, y: Bytes, rest: Bytes)
    requires Fresh(r) && Clean(etype) && Clean(x)
    ensures Interpret(r, Lines(Frame(etype, x + [LF] + y) + rest)) ==
            Interpret(r.(etype := etype, data := x + [LF]), Lines(y + [LF, LF] + rest))
  {
    hide Interpret, Lines, FieldLine, EventPart;
    SplitData(x, y, rest);
    assert Frame(etype, x + [LF] + y) + rest == EventPart(etype) + (DataPart(x + [LF] + y) + rest);
    ReadEventPart(r, etype, DataPart(x + [LF] + y) + rest);
    ReadDataLine(r.(etype := etype), x, y + [LF, LF] + rest);
  }

  lemma SplitData(x: Bytes, y: Bytes, rest: Bytes)
    ensures DataPart(x + [LF] + y) + rest == FieldLine(DATA, x) + [LF] + (y + [LF, LF] + rest)
  {
  }

  /** Data with a line feed never comes back: the event that is read in its place has lost part of it. */
  lemma LineFeedLoses(r: Reader, etype: Bytes, data: Bytes, rest: Bytes)
    requires Fresh(r) && Clean(etype) && CR !in data && LF in data
    ensures var events := Interpret(r, Lines(Frame(etype, data) + rest)).events;
            |events| > |r.events| && |events[|r.events|].data| < |data|
  {
    hide Lines, Line, Interpret;
    var n := FirstBreak(data);
    var x, y := data[..n], data[n + 1..];
    assert data == x + [LF] + y;
    ReadFirstDataLine(r, etype, x, y, rest);
    var q, lines := r.(etype := etype, data := x + [LF]), Lines(y + [LF, LF]);
    LinesSplit(y + [LF, LF], rest);
    InterpretAppend(q, lines, Lines(rest));
    EventsGrow(Interpret(q, lines), Lines(rest));
    FirstEventLoses(q, y);
  }

  lemma FirstEventLoses(q: Reader, y: Bytes)
    requires Ended(q.data) && q.data != []
    ensures var events := Interpret(q, Lines(y + [LF, LF])).events;
            |events| > |q.events| && |events[|q.events|].data| < |q.data| + |y|
  {
    hide Lines, Line, Interpret;
    var lines := Lines(y + [LF, LF]);
    assert y + [LF, LF] == y + [LF] + [LF];
    LastIsBlank(y + [LF]);
    Dispatches(q, lines);
    WeightOfLines(y + [LF, LF]);
    DataBound(q, lines, |q.events|);
    if lines[0] == [] {
      FirstIsBlank(q, lines);
    }
  }

  lemma FirstIsBlank(r: Reader, lines: seq<Bytes>)
    requires Ended(r.data) && r.data != [] && lines != [] && lines[0] == []
    requires |Interpret(r, lines).events| > |r.events|
    ensures |Interpret(r, lines).events[|r.events|].data| + 1 == |r.data|
  {
    hide Line;
    BlankGain(r);
    EventsGrow(Line(r, []), lines[1..]);
  }

  lemma AfterKeepsTidy(r: Reader, item: Item)
    requires Tidy(r) && CleanItem(item)
    ensures Tidy(After(r, item))
  {
    assert Clean(MESSAGE);
  }

  /** The first item with a line break is not read back, whatever follows it. */
  lemma UncleanIsLost(r: Reader, item: Item, rest: Bytes)
    requires Fresh(r) && Tidy(r) && !CleanItem(item)
    ensures var events := Interpret(r, Lines(Encode(item) + rest)).events;
            !(After(r, item).events <= events)
  {
    hide Interpret, Lines, Frame;
    var events := Interpret(r, Lines(Encode(item) + rest)).events;
    LinesAreClean(Encode(item) + rest);
    ReadingIsTidy(r, Lines(Encode(item) + rest));
    if After(r, item).events <= events {
      assert events[|r.events|] == Reads(item.etype, item.data);
      LineFeedLoses(r, item.etype, item.data, rest);
    }
  }

  lemma {:induction false} UncleanDiffers(r: Reader, items: seq<Item>)
    requires Fresh(r) && r.lastId == [] && Tidy(r) && exists i :: 0 <= i < |items| && !CleanItem(items[i])
    ensures Interpret(r, Lines(Render(items))).events != r.events + Written(items)
    decreases |items|
  {
    hide Interpret, Lines, Encode, CleanItem, Reads, Tidy, Fresh;
    var rest := Render(items[1..]);
    AfterAll(r, items);
    if CleanItem(items[0]) {
      ReadItem(r, items[0], rest);
      AfterKeepsTidy(r, items[0]);
      StaysFresh(r, items[0]);
      var i :| 0 <= i < |items| && !CleanItem(items[i]);
      assert items[1..][i - 1] == items[i];
      UncleanDiffers(After(r, items[0]), items[1..]);
    } else {
      UncleanIsLost(r, items[0], rest);
    }
  }

  lemma StaysFresh(r: Reader, item: Item)
    requires Fresh(r) && r.lastId == []
    ensures Fresh(After(r, item)) && After(r, item).lastId == []
  {
  }

  lemma StartIsTidy()
    ensures Fresh(START) && Tidy(START)
  {
    ClearIsClean();
  }

  /** A stream of frames and keepalives is read back as what was written if and only if no type and no data contains
      CR or LF.  WriteEvent does not check this, and events.Split hands a payload that is no envelope through as it is. */
  lemma {:induction false} ReadsBackIff(items: seq<Item>)
    ensures Parse(Render(items)) == Written(items) <==> forall i :: 0 <= i < |items| ==> CleanItem(items[i])
  {
    hide Interpret, Lines, Render, Written, CleanItem, Tidy, Fresh;
    if forall i :: 0 <= i < |items| ==> CleanItem(items[i]) {
      RoundTrip(items);
    } else {
      NoBom(items);
      StartIsTidy();
      UncleanDiffers(START, items);
      assert [] + Written(items) == Written(items);
    }
  }
}
