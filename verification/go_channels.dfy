/**
 Buffered Go channels, as far as this program uses them.

 A channel is a handle into a table of cells.  Two handles alias exactly when they are equal,
 which is how the program compares channels in `Unsubscribe`.
 */
module GoChannels {

  type ChanId = nat

  /** Payloads are opaque to every component here.  A payload is represented by its position in the
      transport's input stream, so that two deliveries of one message can be told apart from
      deliveries of two messages. */
  type Payload = nat

  /** The capacity given to every channel the program makes. */
  const BUFFER: nat := 64

  datatype Chan<T> = Chan(cap: nat, buf: seq<T>, closed: bool) {
    predicate Full() {
      |buf| >= cap
    }

    /** `select { case c <- m: default: }` on an open channel. */
    function Offer(m: T): (c: Chan<T>)
      ensures c.cap == cap && c.closed == closed
      ensures |buf| <= cap ==> |c.buf| <= cap
    {
      if Full() then this else this.(buf := buf + [m])
    }
  }

  type Table<T> = map<ChanId, Chan<T>>

  function Fresh<T>(): Chan<T> {
    Chan(BUFFER, [], false)
  }

  /** What has to hold of a channel that is closed or sent on, or Go panics. */
  ghost predicate CanClose<T>(table: Table<T>, c: ChanId) {
    c in table && !table[c].closed
  }

  /** One non-blocking send of `m` on each channel in `targets`. */
  function OfferAll<T>(table: Table<T>, targets: set<ChanId>, m: T): (r: Table<T>)
    ensures r.Keys == table.Keys
    ensures forall c :: c in table ==> r[c].cap == table[c].cap && r[c].closed == table[c].closed
  {
    map c | c in table :: if c in targets then table[c].Offer(m) else table[c]
  }

  function CloseAll<T>(table: Table<T>, targets: set<ChanId>): (r: Table<T>)
    ensures r.Keys == table.Keys
  {
    map c | c in table :: if c in targets then table[c].(closed := true) else table[c]
  }

  /** A send on one more channel extends a fan-out. */
  lemma OfferOne<T>(table: Table<T>, done: set<ChanId>, c: ChanId, m: T)
    requires c in table && c !in done
    ensures var t := OfferAll(table, done, m);
            t[c] == table[c] && t[c := t[c].Offer(m)] == OfferAll(table, done + {c}, m)
  {
    var t := OfferAll(table, done, m);
    assert t[c := t[c].Offer(m)].Keys == table.Keys;
  }

  lemma CloseMore<T>(table: Table<T>, done: set<ChanId>, more: set<ChanId>)
    ensures CloseAll(CloseAll(table, done), more) == CloseAll(table, done + more)
  {
  }

  /** Every channel is made empty and open, with room for 64. */
  lemma FreshHolds64<T>()
    ensures Fresh<T>() == Chan(64, [], false)
  {
  }

  /** After a fan-out each target that had room ends in `m`, and nothing else has changed. */
  lemma OfferAllMeans<T>(table: Table<T>, targets: set<ChanId>, m: T)
    ensures forall c :: c in table && c in targets && |table[c].buf| < table[c].cap ==>
              OfferAll(table, targets, m)[c] == Chan(table[c].cap, table[c].buf + [m], table[c].closed)
    ensures forall c :: c in table && (c !in targets || |table[c].buf| >= table[c].cap) ==> OfferAll(table, targets, m)[c] == table[c]
  {
  }

  /** Closing keeps what is buffered, and touches no other channel. */
  lemma CloseAllMeans<T>(table: Table<T>, targets: set<ChanId>)
    ensures forall c :: c in table && c in targets ==> CloseAll(table, targets)[c] == Chan(table[c].cap, table[c].buf, true)
    ensures forall c :: c in table && c !in targets ==> CloseAll(table, targets)[c] == table[c]
  {
  }

  /** What a receive finds: a value, nothing yet, or a closed channel with an empty buffer. */
  datatype Received<T> = Value(v: T) | Blocked | Drained

  /** The runtime's channels.  The preconditions of `Offer` and `Close` are the two things that make
      Go panic: a send on a closed channel and a close of a closed channel. */
  class Heap<T> {
    var cells: Table<T>
    var next: ChanId

    ghost predicate Valid()
      reads this
    {
      && (forall c :: c in cells ==> c < next)
      && (forall c :: c in cells ==> |cells[c].buf| <= cells[c].cap)
    }

    constructor ()
      ensures Valid() && cells == map[]
    {
      cells := map[];
      next := 0;
    }

    method Make() returns (c: ChanId)
      requires Valid()
      modifies this
      ensures Valid()
      ensures c !in old(cells) && cells == old(cells)[c := Fresh()]
    {
      c := next;
      cells := cells[c := Fresh()];
      next := next + 1;
    }

    method Offer(c: ChanId, m: T) returns (sent: bool)
      requires Valid() && c in cells && !cells[c].closed
      modifies this
      ensures Valid()
      ensures cells == old(cells)[c := old(cells)[c].Offer(m)]
      ensures sent == !old(cells)[c].Full()
    {
      sent := !cells[c].Full();
      if sent {
        var cell := cells[c];
        cells := cells[c := cell.(buf := cell.buf + [m])];
      }
      assert cells[c] == old(cells)[c].Offer(m);
    }

    method Close(c: ChanId)
      requires Valid() && c in cells && !cells[c].closed
      modifies this
      ensures Valid()
      ensures cells == CloseAll(old(cells), {c})
    {
      cells := cells[c := cells[c].(closed := true)];
    }

    /** A receive drains what is buffered before it reports the channel closed. */
    method Receive(c: ChanId) returns (r: Received<T>)
      requires Valid() && c in cells
      modifies this
      ensures Valid()
      ensures r.Value? <==> old(cells)[c].buf != []
      ensures r.Drained? <==> old(cells)[c].buf == [] && old(cells)[c].closed
      ensures r.Value? ==> r.v == old(cells)[c].buf[0]
      ensures cells == if r.Value? then old(cells)[c := old(cells)[c].(buf := old(cells)[c].buf[1..])] else old(cells)
    {
      var cell := cells[c];
      if cell.buf != [] {
        r := Value(cell.buf[0]);
        cells := cells[c := cell.(buf := cell.buf[1..])];
      } else if cell.closed {
        r := Drained;
      } else {
        r := Blocked;
      }
    }
  }
}
