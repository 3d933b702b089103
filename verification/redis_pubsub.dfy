/** The Redis bus: one upstream connection, many local consumer channels. */
module RedisBus {
  import opened GoChannels
  import opened ChannelNames
  import opened PubSub

  /** `append(list[:found], list[found+1:]...)` on the list's backing array: everything behind `found`
      moves down by one, in place, and the live part is one shorter. */
  method ShiftOut(arr: array<ChanId>, len: nat, found: nat)
    requires found < len <= arr.Length
    modifies arr
    ensures arr[..len - 1] == old(arr[..found]) + old(arr[found + 1..len])
    ensures arr[len - 1..] == old(arr[len - 1..])
  {
    for i := found to len - 1
      invariant forall k :: 0 <= k < found || i <= k < arr.Length ==> arr[k] == old(arr[k])
      invariant forall k :: found <= k < i ==> arr[k] == old(arr[k + 1])
    {
      arr[i] := arr[i + 1];
    }
  }

  lemma ListIsOpen(b: Bus, name: Name)
    requires b.Valid() && name in b.subs
    ensures Distinct(b.subs[name])
    ensures forall c :: c in b.subs[name] ==> c in b.chans && !b.chans[c].closed && b.madeFor[c] == name
  {
    forall c | c in b.subs[name] ensures c in b.chans && !b.chans[c].closed && b.madeFor[c] == name {
      assert b.Listed(c);
    }
  }

  lemma OthersAreElsewhere(b: Bus, name: Name, names: set<Name>)
    requires b.Valid() && name in b.subs && name !in names
    ensures ListedUnder(b.subs, names) !! Elements(b.subs[name])
  {
    forall c | c in ListedUnder(b.subs, names) ensures c !in b.subs[name] {
      var n :| n in names && n in b.subs && c in b.subs[n];
      assert b.madeFor[c] == n;
    }
  }

  /** The loop of fanOut: one non-blocking send per listed consumer. */
  method OfferEach(heap: Heap<Message>, list: seq<ChanId>, m: Message)
    requires heap.Valid() && Distinct(list)
    requires forall c :: c in list ==> c in heap.cells && !heap.cells[c].closed
    modifies heap
    ensures heap.Valid() && heap.cells == OfferAll(old(heap.cells), Elements(list), m)
  {
    ghost var was := heap.cells;
    assert was == OfferAll(was, {}, m);
    for i := 0 to |list|
      invariant heap.Valid()
      invariant heap.cells == OfferAll(was, Elements(list[..i]), m)
    {
      assert list[i] in list;
      OfferOne(was, Elements(list[..i]), list[i], m);
      var sent := heap.Offer(list[i], m);
      assert Elements(list[..i + 1]) == Elements(list[..i]) + {list[i]};
    }
    assert list[..|list|] == list;
  }

  /** The inner loop of Close. */
  method CloseEach(heap: Heap<Message>, list: seq<ChanId>)
    requires heap.Valid() && Distinct(list)
    requires forall c :: c in list ==> c in heap.cells && !heap.cells[c].closed
    modifies heap
    ensures heap.Valid() && heap.cells == CloseAll(old(heap.cells), Elements(list))
  {
    ghost var was := heap.cells;
    assert was == CloseAll(was, {});
    for i := 0 to |list|
      invariant heap.Valid()
      invariant heap.cells == CloseAll(was, Elements(list[..i]))
    {
      assert list[i] in list;
      CloseMore(was, Elements(list[..i]), {list[i]});
      heap.Close(list[i]);
      assert Elements(list[..i + 1]) == Elements(list[..i]) + {list[i]};
    }
    assert list[..|list|] == list;
  }

  class RedisPubSub {
    var subs: map<Name, seq<ChanId>>
    var closed: bool
    var started: bool
    const heap: Heap<Message>
    ghost var madeFor: map<ChanId, Name>
    ghost var upstream: set<Name>
    ghost var commands: seq<Command>

    ghost function View(): Bus
      reads this, heap
    {
      Bus(subs, closed, started, heap.cells, madeFor, upstream, commands)
    }

    ghost predicate Valid()
      reads this, heap
    {
      heap.Valid() && View().Valid()
    }

    constructor ()
      ensures Valid() && View() == EMPTY_BUS && fresh(heap)
    {
      subs, closed, started := map[], false, false;
      heap := new Heap<Message>();
      madeFor, upstream, commands := map[], {}, [];
    }

    method Subscribe(name: Name, t: Transport) returns (out: ChanId, err: Error)
      requires Valid()
      modifies this, heap
      ensures Valid() && (View(), err) == BusSubscribe(old(View()), name, out, t)
      ensures err.NoError? ==> out !in old(View()).chans
    {
      ghost var was := View();
      out := heap.next;
      if closed {
        return out, ErrClosed;
      }
      started := true;
      var list := if name in subs then subs[name] else [];
      if |list| == 0 {
        commands := commands + [Command.Subscribe(name, t)];
        upstream := if t.Applied() then upstream + {name} else upstream;
        if t.Failed? {
          assert View() == BusSubscribe(was, name, out, t).0;
          SubscribeKeepsValid(was, name, out, t);
          return out, ErrTransport;
        }
      }
      out := heap.Make();
      subs := subs[name := list + [out]];
      madeFor := madeFor[out := name];
      err := NoError;
      assert View() == BusSubscribe(was, name, out, t).0;
      SubscribeKeepsValid(was, name, out, t);
    }

    /** The search loop of Unsubscribe. */
    static method Find(list: seq<ChanId>, sub: ChanId) returns (found: int)
      ensures -1 <= found < |list|
      ensures found == -1 ==> sub !in list
      ensures found >= 0 ==> list[found] == sub && sub !in list[..found]
    {
      for i := 0 to |list|
        invariant sub !in list[..i]
      {
        if list[i] == sub {
          return i;
        }
      }
      found := -1;
    }

    method Unsubscribe(name: Name, sub: ChanId, t: Transport) returns (err: Error)
      requires Valid()
      modifies this, heap
      ensures Valid() && (View(), err) == BusUnsubscribe(old(View()), name, sub, t)
    {
      hide Bus.Valid, CloseAll;
      ghost var was := View();
      if closed {
        return ErrClosed;
      }
      var list := if name in subs then subs[name] else [];
      var found := Find(list, sub);
      if found < 0 {
        return NoError;
      }
      assert !was.chans[sub].closed && sub in was.chans by { ListIsOpen(was, name); }
      heap.Close(sub);
      list := Cut(list, found);
      err := NoError;
      if |list| == 0 {
        subs := subs - {name};
        commands := commands + [Command.Unsubscribe(name, t)];
        upstream := if t.Applied() then upstream - {name} else upstream;
        if t.Failed? {
          err := ErrTransport;
        }
      } else {
        subs := subs[name := list];
      }
      assert View() == BusUnsubscribe(was, name, sub, t).0;
      UnsubscribeKeepsValid(was, name, sub, t);
    }

    /** Removes one element by shifting the list's backing array. */
    static method Cut(list: seq<ChanId>, found: nat) returns (rest: seq<ChanId>)
      requires found < |list| && list[found] !in list[..found]
      ensures rest == Without(list, list[found])
    {
      var arr := new ChanId[|list|](i requires 0 <= i < |list| => list[i]);
      assert arr[..] == list;
      ShiftOut(arr, |list|, found);
      WithoutAt(list, found);
      rest := arr[..|list| - 1];
    }

    method FanOut(m: Message)
      requires Valid()
      modifies heap
      ensures Valid() && View() == PubSub.FanOut(old(View()), m)
    {
      ghost var was := View();
      FanOutKeepsValid(was, m);
      if closed {
        return;
      }
      if m.channel in subs {
        ListIsOpen(was, m.channel);
        OfferEach(heap, subs[m.channel], m);
      } else {
        assert OfferAll(was.chans, Elements(was.List(m.channel)), m) == was.chans;
      }
    }

    method Close()
      requires Valid()
      modifies this, heap
      ensures Valid() && View() == BusClose(old(View()))
    {
      ghost var was := View();
      if closed {
        return;
      }
      closed := true;
      var names := subs.Keys;
      assert was.chans == CloseAll(was.chans, ListedUnder(was.subs, {}));
      while names != {}
        invariant names <= subs.Keys && heap.Valid()
        invariant View() == was.(closed := true, chans := heap.cells)
        invariant heap.cells == CloseAll(was.chans, ListedUnder(was.subs, was.subs.Keys - names))
      {
        var name :| name in names;
        ListIsOpen(was, name);
        OthersAreElsewhere(was, name, was.subs.Keys - names);
        CloseEach(heap, subs[name]);
        ListedMore(was, name, names);
        names := names - {name};
      }
      assert was.subs.Keys - names == was.subs.Keys;
      assert ListedUnder(was.subs, was.subs.Keys) == was.AllListed();
      subs := map[];
      assert View() == BusClose(was);
      CloseKeepsValid(was);
    }

    method Receive(c: ChanId) returns (r: Received<Message>)
      requires Valid() && c in heap.cells
      modifies heap
      ensures Valid()
      ensures r.Value? <==> old(View()).chans[c].buf != []
      ensures r.Value? ==> r.v == old(View()).chans[c].buf[0] && View() == BusReceive(old(View()), c)
      ensures !r.Value? ==> View() == old(View())
      ensures r.Drained? <==> old(View()).chans[c].buf == [] && old(View()).chans[c].closed
    {
      ghost var was := View();
      r := heap.Receive(c);
      if r.Value? {
        ReceiveKeepsValid(was, c);
      }
    }
  }

  ghost function ListedUnder(lists: map<Name, seq<ChanId>>, names: set<Name>): set<ChanId> {
    set name, c | name in names && name in lists && c in lists[name] :: c
  }

  lemma ListedMore(b: Bus, name: Name, names: set<Name>)
    requires name in names && names <= b.subs.Keys
    ensures CloseAll(CloseAll(b.chans, ListedUnder(b.subs, b.subs.Keys - names)), Elements(b.subs[name]))
         == CloseAll(b.chans, ListedUnder(b.subs, b.subs.Keys - (names - {name})))
  {
    var before := ListedUnder(b.subs, b.subs.Keys - names);
    CloseMore(b.chans, before, Elements(b.subs[name]));
    assert b.subs.Keys - (names - {name}) == (b.subs.Keys - names) + {name};
    assert before + Elements(b.subs[name]) == ListedUnder(b.subs, (b.subs.Keys - names) + {name});
  }
}
