/** Writing one frame: through a buffered writer onto the response, then a flush. */
module SseWriter {
  import opened EventStream
  import opened SseFrames

  /** What reaches a connection that takes `room` more bytes and then breaks for good. */
  function Taken(p: Bytes, room: nat): (t: Bytes)
    ensures t <= p && |t| <= room
    ensures |p| <= room ==> t == p
  {
    if |p| <= room then p else p[..room]
  }

  /** As much as there is room for. */
  lemma TakenMeans(p: Bytes, room: nat)
    ensures Taken(p, room) <= p && |Taken(p, room)| == if |p| <= room then |p| else room
  {
  }

  /** Writing in two pieces is writing the whole. */
  lemma TakenInPieces(p: Bytes, q: Bytes, room: nat)
    ensures Taken(p, room) + Taken(q, room - |Taken(p, room)|) == Taken(p + q, room)
  {
  }

  /** An HTTP response: the bytes the client gets, how many of them have been pushed out by a flush, and
      how many more the connection will take. */
  class ResponseWriter {
    var out: Bytes
    var flushed: nat
    var room: nat
    const flushable: bool

    constructor (room: nat, flushable: bool)
      ensures out == [] && flushed == 0 && this.room == room && this.flushable == flushable
    {
      out, flushed := [], 0;
      this.room, this.flushable := room, flushable;
    }

    method Write(p: Bytes) returns (ok: bool)
      modifies `out, `room
      ensures out == old(out) + Taken(p, old(room)) && room == old(room) - |Taken(p, old(room))|
      ensures ok <==> |p| <= old(room)
    {
      var t := Taken(p, room);
      ok := |p| <= room;
      out, room := out + t, room - |t|;
    }

    method Flush()
      modifies `flushed
      ensures flushed == |out|
    {
      flushed := |out|;
    }
  }

  /** The size of a bufio.Writer. */
  const BUFFERED: nat := 4096

  /** A bufio.Writer: it passes bytes on when its buffer is full, and stays failed once a write has failed. */
  class BufferedWriter {
    const w: ResponseWriter
    var buf: Bytes
    var failed: bool
    ghost var asked: Bytes         // everything written to it
    ghost const before: Bytes      // what the response held when it was made
    ghost const room: nat

    /** While nothing has failed, what was asked for has been passed on or is in the buffer; after a failure the
        response holds as much of it as the connection took. */
    ghost predicate Valid()
      reads this, w
    {
      && |buf| <= BUFFERED
      && (!failed ==> w.out + buf == before + asked && w.room + |w.out| == room + |before|
                      && |w.out| >= |before| && w.out[..|before|] == before)
      && (failed ==> w.room == 0 && |asked| > room && w.out == before + Taken(asked, room))
    }

    constructor (w: ResponseWriter)
      ensures Valid() && this.w == w && !failed && buf == []
      ensures before == w.out && room == w.room && asked == []
    {
      this.w := w;
      buf, failed, asked := [], false, [];
      before, room := w.out, w.room;
    }

    method Write(p: Bytes) returns (ok: bool)
      requires Valid() && !failed
      modifies this, w`out, w`room
      ensures Valid() && asked == old(asked) + p && ok == !failed
    {
      var rest := p;
      asked := asked + p;
      while |rest| > BUFFERED - |buf| && !failed
        invariant |buf| <= BUFFERED && asked == old(asked) + p
        invariant !failed ==> w.out + buf + rest == before + asked && w.room + |w.out| == room + |before|
                              && |w.out| >= |before| && w.out[..|before|] == before
        invariant failed ==> Valid()
        decreases |rest|, |buf|, if failed then 0 else 1
      {
        if |buf| == 0 {
          Passed(before, w.out, rest, asked, room, w.room);
          var ok := w.Write(rest);
          failed := !ok;
          rest := [];
        } else {
          var n := BUFFERED - |buf|;
          buf, rest := buf + rest[..n], rest[n..];
          Flush(rest);
        }
      }
      if !failed {
        buf := buf + rest;
      }
      ok := !failed;
    }

    /** Passes the buffer on.  `rest` is what the caller has yet to put into it. */
    method Flush(ghost rest: Bytes)
      requires |buf| <= BUFFERED && !failed
      requires w.out + buf + rest == before + asked && w.room + |w.out| == room + |before|
      requires |w.out| >= |before| && w.out[..|before|] == before
      modifies this`buf, this`failed, w`out, w`room
      ensures failed ==> Valid()
      ensures !failed ==> buf == [] && w.out + rest == before + asked && w.room + |w.out| == room + |before|
                          && |w.out| >= |before| && w.out[..|before|] == before
      ensures failed <==> |old(buf)| > old(w.room)
    {
      PassedSome(before, w.out, buf, rest, asked, room, w.room);
      var ok := w.Write(buf);
      failed := !ok;
      if !failed {
        buf := [];
      }
    }
  }

  lemma Passed(before: Bytes, out: Bytes, rest: Bytes, asked: Bytes, room: nat, left: nat)
    requires out + rest == before + asked && left + |out| == room + |before|
    requires |out| >= |before| && out[..|before|] == before
    ensures |rest| > left ==> |asked| > room && out + Taken(rest, left) == before + Taken(asked, room)
    ensures out + rest == before + asked && (out + rest)[..|before|] == before
  {
    if |rest| > left {
      assert out + rest[..left] == (out + rest)[..|out| + left];
      assert before + asked[..room] == (before + asked)[..|before| + room];
    }
  }

  lemma PassedSome(before: Bytes, out: Bytes, buf: Bytes, rest: Bytes, asked: Bytes, room: nat, left: nat)
    requires out + buf + rest == before + asked && left + |out| == room + |before|
    requires |out| >= |before| && out[..|before|] == before
    ensures |buf| > left ==> |asked| > room && out + Taken(buf, left) == before + Taken(asked, room)
    ensures (out + buf)[..|before|] == before
  {
    if |buf| > left {
      assert out + buf[..left] == (out + buf + rest)[..|out| + left];
      assert before + asked[..room] == (before + asked)[..|before| + room];
    }
  }

  datatype Outcome = Done | NoFlusher | Broken

  /** Writes one event and flushes it.  The client gets the whole frame, or, when the connection breaks, a
      beginning of it; without a flusher it gets nothing. */
  method WriteEvent(w: ResponseWriter, etype: Bytes, data: Bytes) returns (r: Outcome)
    modifies w
    ensures r.NoFlusher? <==> !w.flushable
    ensures r.NoFlusher? ==> w.out == old(w.out) && w.room == old(w.room)
    ensures w.flushable ==>
              && w.out == old(w.out) + Taken(Frame(etype, data), old(w.room))
              && w.room == old(w.room) - |Taken(Frame(etype, data), old(w.room))|
              && (r.Done? <==> |Frame(etype, data)| <= old(w.room))
    ensures r.Done? ==> w.flushed == |w.out|
  {
    hide Taken, FieldLine;
    TakenMeans(Frame(etype, data), w.room);
    if !w.flushable {
      return NoFlusher;
    }
    var bw := new BufferedWriter(w);
    var ok;
    if etype != [] {
      ok := bw.Write(FieldLine(EVENT, etype) + [LF]);
      if !ok {
        Beginning(bw.asked, DataPart(data), bw.room);
        assert Frame(etype, data) == bw.asked + DataPart(data);
        return Broken;
      }
    }
    assert bw.asked == EventPart(etype);
    ok := bw.Write(DataPart(data));
    assert bw.asked == Frame(etype, data);
    if !ok {
      return Broken;
    }
    bw.Flush([]);
    if bw.failed {
      return Broken;
    }
    w.Flush();
    r := Done;
  }

  lemma Beginning(p: Bytes, q: Bytes, room: nat)
    requires |p| > room
    ensures Taken(p + q, room) == Taken(p, room)
  {
  }
}
