/** The reader against the sentences of sections 9.2.5 and 9.2.6 of the WHATWG HTML Living Standard. */
module EventStreamLaws {
  import opened EventStream
  import opened SseFrames
  import opened SseLaws

  // --- Lines and the byte order mark --------------------------------------------------------------------------------

  /** CR, LF and the pair of both end a line alike. */
  lemma LineEndings(l: Bytes, rest: Bytes)
    requires Clean(l)
    ensures Lines(l + [LF] + rest) == [l] + Lines(rest)
    ensures Lines(l + [CR, LF] + rest) == [l] + Lines(rest)
    ensures (rest == [] || rest[0] != LF) ==> Lines(l + [CR] + rest) == [l] + Lines(rest)
  {
    hide Lines, Clean;
    LinesOf(l, rest);
    PairEndsLine(l, rest);
    if rest == [] || rest[0] != LF {
      ReturnEndsLine(l, rest);
    }
  }

  lemma PairEndsLine(l: Bytes, rest: Bytes)
    requires Clean(l)
    ensures Lines(l + [CR, LF] + rest) == [l] + Lines(rest)
  {
    hide Clean, Lines;
    var s := l + [CR, LF] + rest;
    assert s == l + ([CR, LF] + rest);
    BreaksAt(l, [CR, LF] + rest);
    assert s[|l| + 2..] == rest;
    OneLine(s);
  }

  lemma ReturnEndsLine(l: Bytes, rest: Bytes)
    requires Clean(l) && (rest == [] || rest[0] != LF)
    ensures Lines(l + [CR] + rest) == [l] + Lines(rest)
  {
    hide Clean, Lines;
    var s := l + [CR] + rest;
    assert s == l + ([CR] + rest);
    BreaksAt(l, [CR] + rest);
    assert s[|l| + 1..] == rest;
    assert rest != [] ==> s[|l| + 1] == rest[0];
    OneLine(s);
  }

  lemma OneLine(s: Bytes)
    requires FirstBreak(s) < |s|
    ensures Lines(s) == [s[..FirstBreak(s)]] + Lines(AfterLine(s))
  {
    hide AfterLine;
  }

  lemma {:induction false} BreaksAt(l: Bytes, rest: Bytes)
    requires Clean(l) && rest != [] && (rest[0] == CR || rest[0] == LF)
    ensures FirstBreak(l + rest) == |l| && (l + rest)[..|l|] == l
  {
    var s := l + rest;
    if l == [] {
      assert s == rest;
    } else {
      assert s[0] == l[0] && s[1..] == l[1..] + rest;
      BreaksAt(l[1..], rest);
    }
  }

  /** What follows the last line end is no line, and is never interpreted. */
  lemma UnfinishedLine(s: Bytes)
    requires Clean(s)
    ensures Lines(s) == []
  {
  }

  /** One leading byte order mark is ignored. */
  lemma LeadingBom(s: Bytes)
    requires !(BOM <= s)
    ensures Parse(BOM + s) == Parse(s)
  {
    assert (BOM + s)[|BOM|..] == s;
  }

  // --- Fields ---------------------------------------------------------------------------------------------------------

  lemma FieldNames()
    ensures EVENT == Ascii("event") && DATA == Ascii("data") && ID == Ascii("id") && RETRY == Ascii("retry")
  {
  }

  /** A line that starts with a colon is ignored. */
  lemma CommentIgnored(r: Reader, line: Bytes)
    requires line != [] && line[0] == COLON
    ensures Line(r, line) == r
  {
  }

  /** A name, a colon, one optional space, and the value; without a colon the whole line is the name, and the value is
      empty. */
  lemma LineMeans(r: Reader, name: Bytes, value: Bytes)
    requires name != [] && COLON !in name
    ensures Line(r, name + [COLON, SPACE] + value) == Field(r, name, value)
    ensures (value == [] || value[0] != SPACE) ==> Line(r, name + [COLON] + value) == Field(r, name, value)
    ensures Line(r, name) == Field(r, name, [])
  {
    hide Field;
    LineIsField(r, name, value);
    assert FieldLine(name, value) == name + [COLON, SPACE] + value;
    ColonAfter(name, value);
    var l := name + [COLON] + value;
    assert l[..|name|] == name && l[|name| + 1..] == value;
    NoColon(name);
    assert name[..|name|] == name;
  }

  lemma {:induction false} NoColon(name: Bytes)
    requires COLON !in name
    ensures FirstColon(name) == |name|
  {
    if name != [] {
      NoColon(name[1..]);
    }
  }

  /** What each field does; all other names do nothing. */
  lemma FieldMeans(r: Reader, name: Bytes, value: Bytes)
    ensures Field(r, Ascii("event"), value) == Reader(r.data, value, r.lastId, r.retry, r.events)
    ensures Field(r, Ascii("data"), value) == Reader(r.data + value + [LF], r.etype, r.lastId, r.retry, r.events)
    ensures Field(r, Ascii("id"), value) == Reader(r.data, r.etype, if 0 in value then r.lastId else value, r.retry, r.events)
    ensures name !in {Ascii("event"), Ascii("data"), Ascii("id"), Ascii("retry")} ==> Field(r, name, value) == r
    ensures Field(r, Ascii("retry"), value) ==
            Reader(r.data, r.etype, r.lastId, if value != [] && AllDigits(value) then value else r.retry, r.events)
  {
    FieldNames();
    assert |EVENT| == 5 && |DATA| == 4 && |ID| == 2 && |RETRY| == 5 && EVENT[0] != RETRY[0];
  }

  predicate AllDigits(s: Bytes) {
    forall i :: 0 <= i < |s| ==> Ascii("0")[0] <= s[i] <= Ascii("9")[0]
  }

  // --- Dispatch -------------------------------------------------------------------------------------------------------

  /** A blank line without data dispatches nothing and forgets the type. */
  lemma BlankWithoutData(r: Reader)
    requires r.data == []
    ensures Line(r, []) == Reader([], [], r.lastId, r.retry, r.events)
  {
  }

  /** With data it dispatches one event: the data without its last line feed, under the type set, or "message". The last
      event ID stays for later events. */
  lemma BlankWithData(r: Reader, data: Bytes)
    requires r.data == data + [LF]
    ensures Line(r, []) == Reader([], [], r.lastId, r.retry,
                                  r.events + [Event(if r.etype == [] then Ascii("message") else r.etype, data, r.lastId)])
  {
    MessageText();
    assert r.data[..|r.data| - 1] == data;
  }

  /** Several data lines are joined by line feeds. */
  lemma DataLinesJoin(r: Reader, a: Bytes, b: Bytes)
    requires r.data == []
    ensures Field(Field(r, Ascii("data"), a), Ascii("data"), b).data == a + [LF] + b + [LF]
  {
    FieldMeans(r, [], a);
    FieldMeans(Field(r, Ascii("data"), a), [], b);
    assert [] + a + [LF] + b + [LF] == a + [LF] + b + [LF];
  }
}
