/**
 The locks of one gateway process, and why its goroutines cannot wait for each other in a circle.

 Every call path is a script of lock operations, taken from the code; a goroutine makes any calls in any
 order, and the scheduler is free.  Calls into the transport are taken to return.
 */
module Locks {

  datatype Lock = FeedHubMu | ChatHubMu | FeedStoreMu | ChatStoreMu | BusMu

  function Rank(l: Lock): (r: nat) {
    match l
    case FeedHubMu => 0
    case ChatHubMu => 1
    case FeedStoreMu => 2
    case ChatStoreMu => 3
    case BusMu => 4
  }

  /** `AwaitReader` is the receive from readerDone in the bus's Close. */
  datatype Instr = Take(l: Lock) | TakeShared(l: Lock) | Drop(l: Lock) | AwaitReader

  // --- The call paths --------------------------------------------------------------------------------------------

  datatype Call =
    | FeedAcquire(attach: bool, failed: bool)
    | FeedRelease(last: bool)
    | FeedClose(entries: nat)
    | FeedBridge(messages: nat)
    | ChatJoin(added: bool, attach: bool, failed: bool)
    | ChatLeave(last: bool)
    | ChatLeaveAll(lasts: seq<bool>)
    | ChatClose(entries: nat)
    | ChatBridge(messages: nat)
    | ChatClient                       // Register or Unregister
    | BusPublish
    | BusClose(started: bool)
    | BusReader(messages: nat)

  /** Visits, one after the other, to components that hold their own lock only while they are visited. */
  function Visits(ls: seq<Lock>): seq<Instr> {
    if ls == [] then [] else [Take(ls[0]), Drop(ls[0])] + Visits(ls[1..])
  }

  function Reads(n: nat, l: Lock): seq<Instr> {
    if n == 0 then [] else [TakeShared(l), Drop(l)] + Reads(n - 1, l)
  }

  /** A call of a hub: its own mutex for the whole call, and visits meanwhile. */
  function HubCall(hub: Lock, visits: seq<Lock>): seq<Instr> {
    [Take(hub)] + Visits(visits) + [Drop(hub)]
  }

  function Repeat(n: nat, l: Lock): (r: seq<Lock>)
    ensures forall i :: 0 <= i < |r| ==> r[i] == l
  {
    if n == 0 then [] else [l] + Repeat(n - 1, l)
  }

  function Leave(last: bool): seq<Instr> {
    HubCall(ChatHubMu, [ChatStoreMu] + (if last then [BusMu] else []))
  }

  function LeaveEach(lasts: seq<bool>): seq<Instr> {
    if lasts == [] then [] else Leave(lasts[0]) + LeaveEach(lasts[1..])
  }

  function Script(c: Call): seq<Instr> {
    match c
    case FeedAcquire(attach, failed) =>
      HubCall(FeedHubMu, (if attach then [BusMu] else []) + (if attach && failed then [] else [FeedStoreMu]))
    case FeedRelease(last) => HubCall(FeedHubMu, [FeedStoreMu] + (if last then [BusMu] else []))
    case FeedClose(entries) => HubCall(FeedHubMu, Repeat(entries, BusMu) + [FeedStoreMu])
    case FeedBridge(messages) => Reads(messages, FeedStoreMu)
    case ChatJoin(added, attach, failed) =>
      HubCall(ChatHubMu, [ChatStoreMu] + (if added && attach then [BusMu] else [])
                         + (if added && attach && failed then [ChatStoreMu] else []))
    case ChatLeave(last) => Leave(last)
    case ChatLeaveAll(lasts) => Reads(1, ChatStoreMu) + LeaveEach(lasts)
    case ChatClose(entries) => HubCall(ChatHubMu, Repeat(entries, BusMu) + [ChatStoreMu])
    case ChatBridge(messages) => Reads(messages, ChatStoreMu)
    case ChatClient => Visits([ChatStoreMu])
    case BusPublish => Visits([BusMu])
    case BusClose(started) => Visits([BusMu]) + (if started then [AwaitReader] else [])
    case BusReader(messages) => Visits(Repeat(messages, BusMu))
  }

  function Program(calls: seq<Call>): seq<Instr> {
    if calls == [] then [] else Script(calls[0]) + Program(calls[1..])
  }

  // --- What the scripts say --------------------------------------------------------------------------------------

  /** Locks taken, in order. */
  function TakenIn(script: seq<Instr>): seq<Lock> {
    if script == [] then []
    else (if script[0].Take? || script[0].TakeShared? then [script[0].l] else []) + TakenIn(script[1..])
  }

  lemma TakenInNext(i: Instr, rest: seq<Instr>)
    ensures TakenIn([i] + rest) == (if i.Take? || i.TakeShared? then [i.l] else []) + TakenIn(rest)
  {
    assert ([i] + rest)[1..] == rest;
  }

  lemma {:induction false} TakenInVisits(ls: seq<Lock>, rest: seq<Instr>)
    ensures TakenIn(Visits(ls) + rest) == ls + TakenIn(rest)
    decreases |ls|
  {
    hide TakenIn;
    if ls == [] {
      assert [] + rest == rest;
      assert [] + TakenIn(rest) == TakenIn(rest);
    } else {
      var inner := Visits(ls[1..]) + rest;
      TakenInVisits(ls[1..], rest);
      TakenInNext(Drop(ls[0]), inner);
      TakenInNext(Take(ls[0]), [Drop(ls[0])] + inner);
      assert Visits(ls) + rest == [Take(ls[0])] + ([Drop(ls[0])] + inner);
      assert [ls[0]] + ([] + (ls[1..] + TakenIn(rest))) == ls + TakenIn(rest);
    }
  }

  /** A hub call takes its own mutex first, then the locks of what it visits, in this order, and drops its own mutex last
      and not before. */
  lemma HubCallMeans(hub: Lock, visits: seq<Lock>)
    requires hub !in visits
    ensures var s := HubCall(hub, visits);
            && TakenIn(s) == [hub] + visits && s[0] == Take(hub) && s[|s| - 1] == Drop(hub)
            && forall i :: 0 < i < |s| - 1 ==> s[i] != Take(hub) && s[i] != Drop(hub)
  {
    var s := HubCall(hub, visits);
    assert s[1..] == Visits(visits) + [Drop(hub)];
    TakenInVisits(visits, [Drop(hub)]);
    assert TakenIn([Drop(hub)]) == [];
    assert visits + [] == visits;
    OnlyVisited(visits, hub);
  }

  lemma {:induction false} OnlyVisited(visits: seq<Lock>, l: Lock)
    requires l !in visits
    ensures Take(l) !in Visits(visits) && Drop(l) !in Visits(visits)
    decreases |visits|
  {
    if visits != [] {
      OnlyVisited(visits[1..], l);
    }
  }

  /** What each hub call visits. */
  lemma CallsVisit(attach: bool, failed: bool, added: bool, last: bool)
    ensures TakenIn(Script(FeedAcquire(attach, failed))) ==
            [FeedHubMu] + (if attach then [BusMu] else []) + (if attach && failed then [] else [FeedStoreMu])
    ensures TakenIn(Script(FeedRelease(last))) == [FeedHubMu, FeedStoreMu] + (if last then [BusMu] else [])
    ensures TakenIn(Script(ChatJoin(added, attach, failed))) ==
            [ChatHubMu, ChatStoreMu] + (if added && attach then [BusMu] else []) + (if added && attach && failed then [ChatStoreMu] else [])
    ensures TakenIn(Script(ChatLeave(last))) == [ChatHubMu, ChatStoreMu] + (if last then [BusMu] else [])
  {
    hide HubCall, TakenIn, Visits;
    HubCallMeans(FeedHubMu, (if attach then [BusMu] else []) + (if attach && failed then [] else [FeedStoreMu]));
    HubCallMeans(FeedHubMu, [FeedStoreMu] + (if last then [BusMu] else []));
    HubCallMeans(ChatHubMu, [ChatStoreMu] + (if added && attach then [BusMu] else [])
                            + (if added && attach && failed then [ChatStoreMu] else []));
    HubCallMeans(ChatHubMu, [ChatStoreMu] + (if last then [BusMu] else []));
  }

  /** Close visits the bus once per entry, and then the store, all under the hub's mutex. */
  lemma CloseVisits(entries: nat)
    ensures exists buses :: |buses| == entries && (forall i :: 0 <= i < entries ==> buses[i] == BusMu)
              && TakenIn(Script(FeedClose(entries))) == [FeedHubMu] + buses + [FeedStoreMu]
              && TakenIn(Script(ChatClose(entries))) == [ChatHubMu] + buses + [ChatStoreMu]
  {
    hide HubCall, TakenIn, Visits;
    var buses := Repeat(entries, BusMu);
    RepeatLength(entries, BusMu);
    HubCallMeans(FeedHubMu, buses + [FeedStoreMu]);
    HubCallMeans(ChatHubMu, buses + [ChatStoreMu]);
    assert [FeedHubMu] + (buses + [FeedStoreMu]) == [FeedHubMu] + buses + [FeedStoreMu];
    assert [ChatHubMu] + (buses + [ChatStoreMu]) == [ChatHubMu] + buses + [ChatStoreMu];
  }

  lemma {:induction false} RepeatLength(n: nat, l: Lock)
    ensures |Repeat(n, l)| == n
  {
    if n > 0 {
      RepeatLength(n - 1, l);
    }
  }

  // --- The discipline --------------------------------------------------------------------------------------------

  ghost predicate Above(held: set<Lock>, l: Lock) {
    forall h :: h in held ==> Rank(h) < Rank(l)
  }

  /** Locks are taken in strictly increasing rank; what is dropped is held; nothing is held while awaiting the reader,
      nor at the end. */
  ghost predicate Disciplined(held: set<Lock>, script: seq<Instr>)
    decreases |script|
  {
    if script == [] then held == {} else
      match script[0]
      case Take(l) => Above(held, l) && Disciplined(held + {l}, script[1..])
      case TakeShared(l) => Above(held, l) && Disciplined(held + {l}, script[1..])
      case Drop(l) => l in held && Disciplined(held - {l}, script[1..])
      case AwaitReader => held == {} && Disciplined(held, script[1..])
  }

  /** A lock taken and dropped at once. */
  lemma BrieflyKeeps(held: set<Lock>, first: Instr, rest: seq<Instr>)
    requires first.Take? || first.TakeShared?
    requires Above(held, first.l) && Disciplined(held, rest)
    ensures Disciplined(held, [first, Drop(first.l)] + rest)
  {
    var s := [first, Drop(first.l)] + rest;
    assert first.l !in held;
    assert held + {first.l} - {first.l} == held;
    assert s[1..] == [Drop(first.l)] + rest && s[1..][1..] == rest;
  }

  lemma {:induction false} VisitsKeep(held: set<Lock>, ls: seq<Lock>, rest: seq<Instr>)
    requires forall i :: 0 <= i < |ls| ==> Above(held, ls[i])
    requires Disciplined(held, rest)
    ensures Disciplined(held, Visits(ls) + rest)
    decreases |ls|
  {
    hide Disciplined;
    if ls == [] {
      assert [] + rest == rest;
    } else {
      VisitsKeep(held, ls[1..], rest);
      BrieflyKeeps(held, Take(ls[0]), Visits(ls[1..]) + rest);
      assert Visits(ls) + rest == [Take(ls[0]), Drop(ls[0])] + (Visits(ls[1..]) + rest);
    }
  }

  lemma {:induction false} ReadsKeep(n: nat, l: Lock, rest: seq<Instr>)
    requires Disciplined({}, rest)
    ensures Disciplined({}, Reads(n, l) + rest)
  {
    hide Disciplined;
    if n == 0 {
      assert [] + rest == rest;
    } else {
      ReadsKeep(n - 1, l, rest);
      BrieflyKeeps({}, TakeShared(l), Reads(n - 1, l) + rest);
      assert Reads(n, l) + rest == [TakeShared(l), Drop(l)] + (Reads(n - 1, l) + rest);
    }
  }

  lemma HubCallKeeps(hub: Lock, visits: seq<Lock>, rest: seq<Instr>)
    requires forall i :: 0 <= i < |visits| ==> Rank(hub) < Rank(visits[i])
    requires Disciplined({}, rest)
    ensures Disciplined({}, HubCall(hub, visits) + rest)
  {
    var end := [Drop(hub)] + rest;
    assert Disciplined({hub}, end) by {
      assert end[1..] == rest && {hub} - {hub} == {};
    }
    VisitsKeep({hub}, visits, end);
    var s := HubCall(hub, visits) + rest;
    assert s[0] == Take(hub) && s[1..] == Visits(visits) + end;
    assert {} + {hub} == {hub};
  }

  lemma {:induction false} LeaveEachKeeps(lasts: seq<bool>, rest: seq<Instr>)
    requires Disciplined({}, rest)
    ensures Disciplined({}, LeaveEach(lasts) + rest)
    decreases |lasts|
  {
    hide Disciplined, HubCall;
    if lasts == [] {
      assert [] + rest == rest;
    } else {
      LeaveEachKeeps(lasts[1..], rest);
      HubCallKeeps(ChatHubMu, [ChatStoreMu] + (if lasts[0] then [BusMu] else []), LeaveEach(lasts[1..]) + rest);
      assert LeaveEach(lasts) + rest == Leave(lasts[0]) + (LeaveEach(lasts[1..]) + rest);
    }
  }

  lemma AwaitKeeps(rest: seq<Instr>)
    requires Disciplined({}, rest)
    ensures Disciplined({}, [AwaitReader] + rest)
  {
    assert ([AwaitReader] + rest)[1..] == rest;
  }

  lemma FeedKeeps(c: Call, rest: seq<Instr>)
    requires (c.FeedAcquire? || c.FeedRelease? || c.FeedClose? || c.FeedBridge?) && Disciplined({}, rest)
    ensures Disciplined({}, Script(c) + rest)
  {
    hide Disciplined, HubCall, Reads;
    match c
    case FeedAcquire(attach, failed) =>
      HubCallKeeps(FeedHubMu, (if attach then [BusMu] else []) + (if attach && failed then [] else [FeedStoreMu]), rest);
    case FeedRelease(last) => HubCallKeeps(FeedHubMu, [FeedStoreMu] + (if last then [BusMu] else []), rest);
    case FeedClose(entries) => HubCallKeeps(FeedHubMu, Repeat(entries, BusMu) + [FeedStoreMu], rest);
    case FeedBridge(messages) => ReadsKeep(messages, FeedStoreMu, rest);
  }

  lemma ChatHubKeeps(c: Call, rest: seq<Instr>)
    requires (c.ChatJoin? || c.ChatLeave? || c.ChatClose?) && Disciplined({}, rest)
    ensures Disciplined({}, Script(c) + rest)
  {
    hide Disciplined, HubCall;
    match c
    case ChatJoin(added, attach, failed) =>
      HubCallKeeps(ChatHubMu, [ChatStoreMu] + (if added && attach then [BusMu] else [])
                              + (if added && attach && failed then [ChatStoreMu] else []), rest);
    case ChatLeave(last) => HubCallKeeps(ChatHubMu, [ChatStoreMu] + (if last then [BusMu] else []), rest);
    case ChatClose(entries) => HubCallKeeps(ChatHubMu, Repeat(entries, BusMu) + [ChatStoreMu], rest);
  }

  lemma LeaveAllKeeps(lasts: seq<bool>, rest: seq<Instr>)
    requires Disciplined({}, rest)
    ensures Disciplined({}, Script(ChatLeaveAll(lasts)) + rest)
  {
    hide Disciplined, Reads, LeaveEach;
    LeaveEachKeeps(lasts, rest);
    ReadsKeep(1, ChatStoreMu, LeaveEach(lasts) + rest);
    assert Script(ChatLeaveAll(lasts)) + rest == Reads(1, ChatStoreMu) + (LeaveEach(lasts) + rest);
  }

  lemma BusCloseKeeps(started: bool, rest: seq<Instr>)
    requires Disciplined({}, rest)
    ensures Disciplined({}, Script(BusClose(started)) + rest)
  {
    hide Disciplined, Visits;
    if started {
      AwaitKeeps(rest);
      VisitsKeep({}, [BusMu], [AwaitReader] + rest);
      assert Visits([BusMu]) + [AwaitReader] + rest == Visits([BusMu]) + ([AwaitReader] + rest);
    } else {
      VisitsKeep({}, [BusMu], rest);
      assert Visits([BusMu]) + [] == Visits([BusMu]);
    }
  }

  /** Every call path of the program keeps the discipline. */
  lemma ScriptKeeps(c: Call, rest: seq<Instr>)
    requires Disciplined({}, rest)
    ensures Disciplined({}, Script(c) + rest)
  {
    hide Disciplined, HubCall, Visits, Reads, LeaveEach, Leave;
    match c
    case FeedAcquire(_, _) => FeedKeeps(c, rest);
    case FeedRelease(_) => FeedKeeps(c, rest);
    case FeedClose(_) => FeedKeeps(c, rest);
    case FeedBridge(_) => FeedKeeps(c, rest);
    case ChatJoin(_, _, _) => ChatHubKeeps(c, rest);
    case ChatLeave(_) => ChatHubKeeps(c, rest);
    case ChatLeaveAll(lasts) => LeaveAllKeeps(lasts, rest);
    case ChatClose(_) => ChatHubKeeps(c, rest);
    case ChatBridge(messages) => ReadsKeep(messages, ChatStoreMu, rest);
    case ChatClient => VisitsKeep({}, [ChatStoreMu], rest);
    case BusPublish => VisitsKeep({}, [BusMu], rest);
    case BusClose(started) => BusCloseKeeps(started, rest);
    case BusReader(messages) => VisitsKeep({}, Repeat(messages, BusMu), rest);
  }

  lemma {:induction false} ProgramIsDisciplined(calls: seq<Call>)
    ensures Disciplined({}, Program(calls))
    decreases |calls|
  {
    hide Script;
    if calls != [] {
      ProgramIsDisciplined(calls[1..]);
      ScriptKeeps(calls[0], Program(calls[1..]));
    }
  }

  // --- The scheduler -----------------------------------------------------------------------------------------------

  datatype Thread = Thread(todo: seq<Instr>, excl: set<Lock>, shared: set<Lock>) {
    function Held(): set<Lock> {
      excl + shared
    }
  }

  /** Thread 0 is the bus's reader. */
  type Threads = seq<Thread>

  predicate IsFree(ts: Threads, l: Lock) {
    forall t :: 0 <= t < |ts| ==> l !in ts[t].Held()
  }

  /** Go's RWMutex lets no new reader in while a writer waits. */
  predicate OpenToReaders(ts: Threads, l: Lock) {
    forall t :: 0 <= t < |ts| ==> l !in ts[t].excl && !(ts[t].todo != [] && ts[t].todo[0] == Take(l))
  }

  predicate Enabled(ts: Threads, t: nat)
    requires t < |ts|
  {
    && ts[t].todo != []
    && match ts[t].todo[0]
       case Take(l) => IsFree(ts, l)
       case TakeShared(l) => OpenToReaders(ts, l)
       case Drop(_) => true
       case AwaitReader => ts[0].todo == []
  }

  function Advance(th: Thread): Thread
    requires th.todo != []
  {
    var rest := th.todo[1..];
    match th.todo[0]
    case Take(l) => Thread(rest, th.excl + {l}, th.shared)
    case TakeShared(l) => Thread(rest, th.excl, th.shared + {l})
    case Drop(l) => Thread(rest, th.excl - {l}, th.shared - {l})
    case AwaitReader => Thread(rest, th.excl, th.shared)
  }

  /** The reader runs fan-outs only; every other goroutine makes any calls. */
  ghost predicate Starts(ts: Threads, messages: nat, calls: seq<seq<Call>>) {
    && |ts| == |calls| + 1
    && ts[0] == Thread(Program([BusReader(messages)]), {}, {})
    && forall t :: 0 < t < |ts| ==> ts[t] == Thread(Program(calls[t - 1]), {}, {})
  }

  ghost predicate Run(tss: seq<Threads>, order: seq<nat>, messages: nat, calls: seq<seq<Call>>) {
    && |tss| == |order| + 1
    && Starts(tss[0], messages, calls)
    && forall i :: 0 <= i < |order| ==> order[i] < |tss[i]| && Enabled(tss[i], order[i])
                                        && tss[i + 1] == tss[i][order[i] := Advance(tss[i][order[i]])]
  }

  ghost predicate Inv(ts: Threads) {
    && |ts| > 0 && AwaitReader !in ts[0].todo
    && forall t :: 0 <= t < |ts| ==> Disciplined(ts[t].Held(), ts[t].todo)
  }

  // --- Someone can always go on --------------------------------------------------------------------------------------

  lemma AdvanceKeeps(th: Thread)
    requires th.todo != [] && Disciplined(th.Held(), th.todo)
    ensures Disciplined(Advance(th).Held(), Advance(th).todo)
  {
    var next := th.todo[0];
    if next.Take? {
      assert Advance(th).Held() == th.Held() + {next.l};
    } else if next.TakeShared? {
      assert Advance(th).Held() == th.Held() + {next.l};
    } else if next.Drop? {
      assert Advance(th).Held() == th.Held() - {next.l};
    }
  }

  lemma StepKeepsInv(ts: Threads, t: nat)
    requires Inv(ts) && t < |ts| && Enabled(ts, t)
    ensures Inv(ts[t := Advance(ts[t])])
  {
    hide Disciplined;
    AdvanceKeeps(ts[t]);
  }

  lemma {:induction false} NoAwaitInVisits(ls: seq<Lock>)
    ensures AwaitReader !in Visits(ls)
  {
    if ls != [] {
      NoAwaitInVisits(ls[1..]);
    }
  }

  lemma StartsInv(ts: Threads, messages: nat, calls: seq<seq<Call>>)
    requires Starts(ts, messages, calls)
    ensures Inv(ts)
  {
    hide Disciplined;
    forall t | 0 <= t < |ts| ensures Disciplined(ts[t].Held(), ts[t].todo) {
      assert ts[t].Held() == {};
      ProgramIsDisciplined(if t == 0 then [BusReader(messages)] else calls[t - 1]);
    }
    NoAwaitInVisits(Repeat(messages, BusMu));
    assert Program([BusReader(messages)]) == Visits(Repeat(messages, BusMu)) + Program([]);
  }

  /** A lock taken next by someone, when nobody holds it: either that one can go on, or a writer it waits for can. */
  lemma TakerGoesOn(ts: Threads, t: nat)
    requires t < |ts| && ts[t].todo != [] && (ts[t].todo[0].Take? || ts[t].todo[0].TakeShared?)
    requires IsFree(ts, ts[t].todo[0].l)
    ensures exists u :: 0 <= u < |ts| && Enabled(ts, u)
  {
    var l := ts[t].todo[0].l;
    if ts[t].todo[0].Take? || OpenToReaders(ts, l) {
      assert Enabled(ts, t);
    } else {
      assert forall u :: 0 <= u < |ts| ==> l !in ts[u].Held();
      var u :| 0 <= u < |ts| && ts[u].todo != [] && ts[u].todo[0] == Take(l);
      assert Enabled(ts, u);
    }
  }

  ghost predicate SomeHeldAt(ts: Threads, rank: nat) {
    exists t, l :: 0 <= t < |ts| && l in ts[t].Held() && Rank(l) == rank
  }

  /** The holder of the highest lock can drop it, or take one that nobody holds. */
  lemma HighestHolderGoesOn(ts: Threads, rank: nat)
    requires Inv(ts) && SomeHeldAt(ts, rank) && forall r :: r > rank ==> !SomeHeldAt(ts, r)
    ensures exists u :: 0 <= u < |ts| && Enabled(ts, u)
  {
    var t, l :| 0 <= t < |ts| && l in ts[t].Held() && Rank(l) == rank;
    assert Disciplined(ts[t].Held(), ts[t].todo);
    assert ts[t].todo != [];
    var next := ts[t].todo[0];
    if next.Drop? {
      assert Enabled(ts, t);
    } else {
      assert Rank(next.l) > rank;
      assert !SomeHeldAt(ts, Rank(next.l));
      forall u | 0 <= u < |ts| ensures next.l !in ts[u].Held() {
      }
      TakerGoesOn(ts, t);
    }
  }

  lemma NothingHeldGoesOn(ts: Threads, t: nat)
    requires Inv(ts) && t < |ts| && ts[t].todo != [] && forall u :: 0 <= u < |ts| ==> ts[u].Held() == {}
    ensures exists u :: 0 <= u < |ts| && Enabled(ts, u)
  {
    assert Disciplined(ts[t].Held(), ts[t].todo);
    if ts[t].todo[0].AwaitReader? {
      if ts[0].todo == [] {
        assert Enabled(ts, t);
      } else {
        assert Disciplined(ts[0].Held(), ts[0].todo);
        assert ts[0].todo[0] in ts[0].todo;
        TakerGoesOn(ts, 0);
      }
    } else {
      TakerGoesOn(ts, t);
    }
  }

  lemma SomeoneGoesOn(ts: Threads, t: nat)
    requires Inv(ts) && t < |ts| && ts[t].todo != []
    ensures exists u :: 0 <= u < |ts| && Enabled(ts, u)
  {
    hide Inv, Enabled;
    if rank: nat :| SomeHeldAt(ts, rank) && forall r :: r > rank ==> !SomeHeldAt(ts, r) {
      HighestHolderGoesOn(ts, rank);
    } else {
      NoHighest(ts);
      forall u | 0 <= u < |ts| ensures ts[u].Held() == {} {
        forall l ensures l !in ts[u].Held() {
          assert !SomeHeldAt(ts, Rank(l));
        }
      }
      NothingHeldGoesOn(ts, t);
    }
  }

  lemma NoHighest(ts: Threads)
    requires forall rank: nat :: SomeHeldAt(ts, rank) ==> exists r :: r > rank && SomeHeldAt(ts, r)
    ensures forall rank: nat :: !SomeHeldAt(ts, rank)
  {
    assert forall rank: nat :: rank > 4 ==> !SomeHeldAt(ts, rank);
    assert !SomeHeldAt(ts, 4);
    assert !SomeHeldAt(ts, 3);
    assert !SomeHeldAt(ts, 2);
    assert !SomeHeldAt(ts, 1);
  }

  /** Deadlock freedom: in every reachable state, as long as some goroutine has not finished its calls, some goroutine
      can take its next step. */
  lemma {:induction false} DeadlockFree(tss: seq<Threads>, order: seq<nat>, messages: nat, calls: seq<seq<Call>>,
                                        i: nat, t: nat)
    requires Run(tss, order, messages, calls) && i < |tss| && t < |tss[i]| && tss[i][t].todo != []
    ensures exists u :: 0 <= u < |tss[i]| && Enabled(tss[i], u)
  {
    hide Inv, Enabled, Starts;
    RunKeepsInv(tss, order, messages, calls, i);
    SomeoneGoesOn(tss[i], t);
  }

  lemma {:induction false} RunKeepsInv(tss: seq<Threads>, order: seq<nat>, messages: nat, calls: seq<seq<Call>>, i: nat)
    requires Run(tss, order, messages, calls) && i < |tss|
    ensures Inv(tss[i])
  {
    hide Inv, Enabled, Starts;
    if i == 0 {
      StartsInv(tss[0], messages, calls);
    } else {
      RunKeepsInv(tss, order, messages, calls, i - 1);
      StepKeepsInv(tss[i - 1], order[i - 1]);
    }
  }

  /** The instructions left. */
  function Left(ts: Threads): nat {
    if ts == [] then 0 else |ts[0].todo| + Left(ts[1..])
  }

  lemma {:induction false} LeftUpdated(ts: Threads, t: nat, th: Thread)
    requires t < |ts|
    ensures Left(ts[t := th]) == Left(ts) - |ts[t].todo| + |th.todo|
    decreases t
  {
    if t == 0 {
      assert ts[0 := th][1..] == ts[1..];
    } else {
      LeftUpdated(ts[1..], t - 1, th);
      assert ts[t := th][1..] == ts[1..][t - 1 := th];
    }
  }

  /** Every step uses up one instruction, so that with `DeadlockFree` every schedule ends with all calls finished. */
  lemma {:induction false} StepsAreUsedUp(tss: seq<Threads>, order: seq<nat>, messages: nat, calls: seq<seq<Call>>,
                                          i: nat)
    requires Run(tss, order, messages, calls) && i < |tss|
    ensures Left(tss[i]) + i == Left(tss[0])
  {
    hide Starts, Left;
    if i > 0 {
      StepsAreUsedUp(tss, order, messages, calls, i - 1);
      LeftUpdated(tss[i - 1], order[i - 1], Advance(tss[i - 1][order[i - 1]]));
    }
  }
}
