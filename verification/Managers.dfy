/**
 The two completion managers of the MPI backend: the request manager, which
 rotates a deque of entries and tests one per call, and the continuation manager, whose
 callbacks the library invokes.
 */
module Managers {
  import opened Basics
  import opened Wrappers

  datatype Request = Request(op: Op, device: nat, rank: int, tag: int, buffer: nat, length: int, ctx: int)

  /** `active` says that the MPI request is not null. */
  datatype Entry = Entry(active: bool, request: Request)

  /** The MPI status of a completed operation. */
  datatype Status = Status(source: int, tag: int, count: int)

  /** What MPI_Test would say of each entry at some moment. */
  type Library = Entry -> Option<Status>

  /** irecv never returns a null request, and put receives are not given to a manager. */
  predicate EntryOk(e: Entry) { e.request.op != PUT_SIGNAL && (e.request.op == RECV ==> e.active) }

  ghost predicate AllOk(es: seq<Entry>) { forall i :: 0 <= i < |es| ==> EntryOk(es[i]) }

  // ---------------------------------------------------------------- what one visit does

  predicate Complete(mpi: Library, e: Entry) { !e.active || mpi(e).Some? }

  /** The record that the request manager signals for a complete entry. */
  function Report(mpi: Library, e: Entry): Request {
    if e.request.op == RECV && mpi(e).Some? then
      e.request.(rank := mpi(e).value.source, tag := mpi(e).value.tag, length := mpi(e).value.count)
    else e.request
  }

  function Visited(mpi: Library, es: seq<Entry>): seq<Entry> {
    if es == [] then [] else if Complete(mpi, es[0]) then es[1..] else es[1..] + [es[0]]
  }

  function Reported(mpi: Library, es: seq<Entry>): seq<Request> {
    if es != [] && Complete(mpi, es[0]) then [Report(mpi, es[0])] else []
  }

  /** The request manager: `signalled` is what it handed to completion objects so far. */
  class RequestManager {
    var entries: seq<Entry>
    var signalled: seq<Request>

    ghost predicate Valid() reads this { AllOk(entries) }

    constructor ()
      ensures Valid() && entries == [] && signalled == []
    {
      entries, signalled := [], [];
    }

    method AddEntry(e: Entry)
      requires Valid() && EntryOk(e)
      modifies this
      ensures Valid() && entries == old(entries) + [e] && signalled == old(signalled)
    {
      entries := entries + [e];
    }

    /** `hint` is the unlocked look at the deque, `won` the outcome of the try-lock. */
    method DoProgress(mpi: Library, hint: bool, won: bool) returns (made: bool)
      requires Valid()
      modifies this
      ensures Valid()
      ensures hint && won ==> entries == Visited(mpi, old(entries)) && signalled == old(signalled) + Reported(mpi, old(entries))
      ensures !(hint && won) ==> entries == old(entries) && signalled == old(signalled)
      ensures made <==> |signalled| == |old(signalled)| + 1
      ensures hint && won && old(entries) == [] ==> entries == [] && !made
      ensures hint && won && old(entries) != [] ==>
                var e, rest := old(entries)[0], old(entries)[1..];
                && (made <==> !e.active || mpi(e).Some?)
                && (!made ==> entries == rest + [e] && signalled == old(signalled))
                && (made ==>
                      && entries == rest && |signalled| > 0 && signalled[..|signalled| - 1] == old(signalled)
                      && var r, x := e.request, signalled[|signalled| - 1];
                         && (r.op != RECV ==> x == r)
                         && (r.op == RECV ==>
                               x == Request(RECV, r.device, mpi(e).value.source, mpi(e).value.tag, r.buffer, mpi(e).value.count, r.ctx)))
    {
      if !hint || !won {
        return false;
      }
      if entries == [] {
        return false;
      }
      var entry := entries[0];
      entries := entries[1..];
      var status, succeed := None, false;
      if !entry.active {
        succeed := true;
      } else {
        status := mpi(entry);
        succeed := status.Some?;
      }
      if !succeed {
        entries := entries + [entry];
        return false;
      }
      var request := entry.request;
      if request.op == RECV {
        request := request.(length := status.value.count, tag := status.value.tag, rank := status.value.source);
      }
      signalled := signalled + [request];
      return true;
    }
  }

  /** The continuation manager: `attached` are the heap entries whose callbacks have not run. */
  class ContinuationManager {
    var attached: seq<Entry>
    var signalled: seq<Request>

    constructor ()
      ensures attached == [] && signalled == []
    {
      attached, signalled := [], [];
    }

    /** The library may run the callback at once. */
    method AddEntry(e: Entry, immediate: bool)
      modifies this
      ensures attached == (if immediate then old(attached) else old(attached) + [e])
      ensures signalled == (if immediate then old(signalled) + [e.request] else old(signalled))
      ensures attached == ContNext(old(attached), Attach(e, immediate))
      ensures signalled == old(signalled) + ContNow(old(attached), Attach(e, immediate))
    {
      attached := attached + [e];
      if immediate {
        Invoke(|attached| - 1);
      }
    }

    /** complete_cb, which ignores the status. */
    method Invoke(i: nat)
      requires i < |attached|
      modifies this
      ensures attached == old(attached)[..i] + old(attached)[i + 1..] && signalled == old(signalled) + [old(attached)[i].request]
      ensures attached == ContNext(old(attached), Fire(i))
      ensures signalled == old(signalled) + ContNow(old(attached), Fire(i))
    {
      signalled := signalled + [attached[i].request];
      attached := attached[..i] + attached[i + 1..];
    }
  }

  // ---------------------------------------------------------------- runs of the request manager

  /** A call that adds an entry, or a do_progress that wins the lock, with MPI's answers at that time. */
  datatype Call = Add(e: Entry) | Win(mpi: Library)

  function Next(es: seq<Entry>, call: Call): seq<Entry> {
    match call
    case Add(e) => es + [e]
    case Win(mpi) => Visited(mpi, es)
  }

  function Now(es: seq<Entry>, call: Call): seq<Request> { if call.Win? then Reported(call.mpi, es) else [] }

  function After(es: seq<Entry>, calls: seq<Call>): seq<Entry>
    decreases |calls|
  {
    if calls == [] then es else After(Next(es, calls[0]), calls[1..])
  }

  function Out(es: seq<Entry>, calls: seq<Call>): seq<Request>
    decreases |calls|
  {
    if calls == [] then [] else Now(es, calls[0]) + Out(Next(es, calls[0]), calls[1..])
  }

  function Wins(calls: seq<Call>): nat
    decreases |calls|
  {
    if calls == [] then 0 else Wins(calls[1..]) + if calls[0].Win? then 1 else 0
  }

  /** Round-robin fairness: whatever is added meanwhile and whatever completes, the entry at
      position p moves forward by exactly one place per winning call, so it is the one tested by
      exactly the (p+1)-th. */
  lemma {:induction false} RoundRobin(es: seq<Entry>, calls: seq<Call>, p: nat)
    requires Wins(calls) <= p < |es|
    ensures p - Wins(calls) < |After(es, calls)| && After(es, calls)[p - Wins(calls)] == es[p]
    decreases |calls|
  {
    if calls != [] {
      match calls[0]
      case Add(e) => RoundRobin(es + [e], calls[1..], p);
      case Win(mpi) => RoundRobin(Visited(mpi, es), calls[1..], p - 1);
    }
  }

  function Completed(mpi: Library, es: seq<Entry>): seq<Request> {
    if es == [] then []
    else (if !es[0].active || mpi(es[0]).Some? then [Report(mpi, es[0])] else []) + Completed(mpi, es[1..])
  }

  function Incomplete(mpi: Library, es: seq<Entry>): seq<Entry> {
    if es == [] then [] else (if es[0].active && mpi(es[0]).None? then [es[0]] else []) + Incomplete(mpi, es[1..])
  }

  function Sweep(mpi: Library, n: nat): seq<Call> { seq(n, _ => Win(mpi)) }

  function Kept(mpi: Library, e: Entry): seq<Entry> { if Complete(mpi, e) then [] else [e] }

  /** One winning call at the head of a sweep. */
  lemma SweepStep(mpi: Library, es: seq<Entry>, back: seq<Entry>)
    requires es != []
    ensures var back' := back + Kept(mpi, es[0]);
            && After(es + back, Sweep(mpi, |es|)) == After(es[1..] + back', Sweep(mpi, |es| - 1))
            && Out(es + back, Sweep(mpi, |es|)) == Reported(mpi, es) + Out(es[1..] + back', Sweep(mpi, |es| - 1))
  {
    assert Visited(mpi, es + back) == es[1..] + (back + Kept(mpi, es[0]));
    assert Sweep(mpi, |es|)[1..] == Sweep(mpi, |es| - 1) && Sweep(mpi, |es|)[0] == Win(mpi);
    hide Complete, Visited, Kept;
  }

  lemma FilterStep(mpi: Library, es: seq<Entry>, back: seq<Entry>)
    requires es != []
    ensures back + Incomplete(mpi, es) == (back + Kept(mpi, es[0])) + Incomplete(mpi, es[1..])
    ensures Completed(mpi, es) == Reported(mpi, es) + Completed(mpi, es[1..])
  {
    assert Incomplete(mpi, es) == Kept(mpi, es[0]) + Incomplete(mpi, es[1..]);
    hide Incomplete, Kept;
  }

  lemma EmptySweep(mpi: Library, back: seq<Entry>)
    ensures After([] + back, Sweep(mpi, 0)) == back + Incomplete(mpi, []) && Out([] + back, Sweep(mpi, 0)) == Completed(mpi, [])
  {
    assert [] + back == back && back + [] == back && Sweep(mpi, 0) == [];
  }

  lemma {:induction false} PartialSweep(mpi: Library, es: seq<Entry>, back: seq<Entry>)
    ensures After(es + back, Sweep(mpi, |es|)) == back + Incomplete(mpi, es)
    ensures Out(es + back, Sweep(mpi, |es|)) == Completed(mpi, es)
    decreases |es|
  {
    hide Sweep, After, Out, Incomplete, Completed, Reported, Kept;
    if es == [] {
      EmptySweep(mpi, back);
    } else {
      SweepStep(mpi, es, back);
      FilterStep(mpi, es, back);
      PartialSweep(mpi, es[1..], back + Kept(mpi, es[0]));
    }
  }

  lemma {:induction false} FilteredOut(mpi: Library, es: seq<Entry>)
    ensures forall e :: e in Incomplete(mpi, es) <==> e in es && e.active && mpi(e).None?
    ensures |Incomplete(mpi, es)| + |Completed(mpi, es)| == |es|
  {
    if es != [] {
      FilteredOut(mpi, es[1..]);
      assert es == [es[0]] + es[1..];
    }
  }

  /** While MPI's answers do not change, as many winning calls as there are entries signal exactly the
      complete ones and keep exactly the others, both in their original order. */
  lemma FullSweep(mpi: Library, es: seq<Entry>)
    ensures After(es, Sweep(mpi, |es|)) == Incomplete(mpi, es)
    ensures Out(es, Sweep(mpi, |es|)) == Completed(mpi, es)
    ensures forall e :: e in After(es, Sweep(mpi, |es|)) <==> e in es && e.active && mpi(e).None?
    ensures |After(es, Sweep(mpi, |es|))| + |Out(es, Sweep(mpi, |es|))| == |es|
  {
    FilteredOut(mpi, es);
    PartialSweep(mpi, es, []);
    hide Incomplete, Completed, After, Out;
    assert es + [] == es;
    assert [] + Incomplete(mpi, es) == Incomplete(mpi, es);
  }

  // ---------------------------------------------------------------- runs of the continuation manager

  datatype ContCall = Attach(e: Entry, immediate: bool) | Fire(i: nat)

  function Fired(es: seq<Entry>, i: nat): seq<Entry> { if i < |es| then es[..i] + es[i + 1..] else es }

  function ContNext(es: seq<Entry>, call: ContCall): seq<Entry> {
    match call
    case Attach(e, immediate) => if immediate then es else es + [e]
    case Fire(i) => Fired(es, i)
  }

  function ContNow(es: seq<Entry>, call: ContCall): seq<Request> {
    match call
    case Attach(e, immediate) => if immediate then [e.request] else []
    case Fire(i) => if i < |es| then [es[i].request] else []
  }

  function ContAfter(es: seq<Entry>, calls: seq<ContCall>): seq<Entry>
    decreases |calls|
  {
    if calls == [] then es else ContAfter(ContNext(es, calls[0]), calls[1..])
  }

  function ContOut(es: seq<Entry>, calls: seq<ContCall>): seq<Request>
    decreases |calls|
  {
    if calls == [] then [] else ContNow(es, calls[0]) + ContOut(ContNext(es, calls[0]), calls[1..])
  }

  // ---------------------------------------------------------------- one specification for both

  /** What does not depend on the status: operation, device, buffer and context. */
  function Core(r: Request): Request { r.(rank := 0, tag := 0, length := 0) }

  /** Either the whole record, or only its core. */
  function View(full: bool, r: Request): Request { if full then r else Core(r) }

  function Tally(full: bool, rs: seq<Request>): multiset<Request> {
    if rs == [] then multiset{} else multiset{View(full, rs[0])} + Tally(full, rs[1..])
  }

  function Held(full: bool, es: seq<Entry>): multiset<Request> {
    if es == [] then multiset{} else multiset{View(full, es[0].request)} + Held(full, es[1..])
  }

  lemma {:induction false} TallyAppend(full: bool, a: seq<Request>, b: seq<Request>)
    ensures Tally(full, a + b) == Tally(full, a) + Tally(full, b)
  {
    if a == [] {
      assert a + b == b;
    } else {
      assert (a + b)[1..] == a[1..] + b;
      TallyAppend(full, a[1..], b);
    }
  }

  lemma {:induction false} HeldAppend(full: bool, a: seq<Entry>, b: seq<Entry>)
    ensures Held(full, a + b) == Held(full, a) + Held(full, b)
  {
    if a == [] {
      assert a + b == b;
    } else {
      assert (a + b)[1..] == a[1..] + b;
      HeldAppend(full, a[1..], b);
    }
  }

  lemma HeldOne(full: bool, e: Entry)
    ensures Held(full, [e]) == multiset{View(full, e.request)}
  {
    assert [e][1..] == [];
  }

  lemma TallyOne(full: bool, r: Request)
    ensures Tally(full, [r]) == multiset{View(full, r)}
  {
    assert [r][1..] == [];
  }

  /** Taking out one entry, wherever it is. */
  lemma HeldWithout(full: bool, es: seq<Entry>, i: nat)
    requires i < |es|
    ensures Held(full, es) == Held(full, es[..i] + es[i + 1..]) + multiset{View(full, es[i].request)}
  {
    assert es == es[..i] + ([es[i]] + es[i + 1..]);
    hide Held;
    HeldAppend(full, es[..i], [es[i]] + es[i + 1..]);
    HeldAppend(full, [es[i]], es[i + 1..]);
    HeldAppend(full, es[..i], es[i + 1..]);
    HeldOne(full, es[i]);
  }

  /** A bag of pending operations, from which completions are drawn. */
  datatype Bag = Bag(pending: multiset<Request>, done: multiset<Request>)

  function BagOf(full: bool, es: seq<Entry>, out: seq<Request>): Bag { Bag(Held(full, es), Tally(full, out)) }

  predicate Adds(b: Bag, r: Request, b': Bag) { b' == Bag(b.pending + multiset{r}, b.done) }

  predicate Draws(b: Bag, r: Request, b': Bag) {
    r in b.pending && b' == Bag(b.pending - multiset{r}, b.done + multiset{r})
  }

  /** The status only confirms the record: the receive named its source and is filled exactly. */
  predicate Exact(mpi: Library, e: Entry) {
    e.request.op == RECV && mpi(e).Some? ==> mpi(e).value == Status(e.request.rank, e.request.tag, e.request.length)
  }

  /** The request manager reports the posted record exactly when the status confirms it, and its core
      always. */
  lemma ExactReport(mpi: Library, e: Entry)
    ensures Report(mpi, e) == e.request <==> Exact(mpi, e)
    ensures Core(Report(mpi, e)) == Core(e.request)
  {
  }

  lemma AddRefines(full: bool, es: seq<Entry>, out: seq<Request>, e: Entry)
    ensures Adds(BagOf(full, es, out), View(full, e.request), BagOf(full, es + [e], out))
  {
    hide Held;
    HeldAppend(full, es, [e]);
    HeldOne(full, e);
  }

  /** A do_progress of the request manager draws the front entry or changes nothing. */
  lemma VisitRefines(full: bool, mpi: Library, es: seq<Entry>, out: seq<Request>)
    requires full && es != [] ==> Exact(mpi, es[0])
    ensures var b, b' := BagOf(full, es, out), BagOf(full, Visited(mpi, es), out + Reported(mpi, es));
            if es != [] && (!es[0].active || mpi(es[0]).Some?) then Draws(b, View(full, es[0].request), b') else b' == b
  {
    if es == [] {
      assert out + Reported(mpi, es) == out;
    } else if Complete(mpi, es[0]) {
      DrawFront(full, mpi, es, out);
    } else {
      assert out + Reported(mpi, es) == out;
      RotateFront(full, es);
    }
  }

  lemma TakeOut<T>(p: multiset<T>, x: T)
    ensures x in p + multiset{x} && (p + multiset{x}) - multiset{x} == p
  {
  }

  lemma DrawFront(full: bool, mpi: Library, es: seq<Entry>, out: seq<Request>)
    requires es != [] && Complete(mpi, es[0]) && (full ==> Exact(mpi, es[0]))
    ensures Draws(BagOf(full, es, out), View(full, es[0].request), BagOf(full, es[1..], out + [Report(mpi, es[0])]))
  {
    ExactReport(mpi, es[0]);
    assert View(full, Report(mpi, es[0])) == View(full, es[0].request);
    hide Held, Tally, Complete, Exact, Report, View;
    HeldWithout(full, es, 0);
    assert es[..0] + es[1..] == es[1..];
    TallyAppend(full, out, [Report(mpi, es[0])]);
    TallyOne(full, Report(mpi, es[0]));
    TakeOut(Held(full, es[1..]), View(full, es[0].request));
  }

  lemma RotateFront(full: bool, es: seq<Entry>)
    requires es != []
    ensures Held(full, es[1..] + [es[0]]) == Held(full, es)
  {
    hide Held, View;
    HeldWithout(full, es, 0);
    assert es[..0] + es[1..] == es[1..];
    HeldAppend(full, es[1..], [es[0]]);
    HeldOne(full, es[0]);
  }

  /** A callback of the continuation manager is a draw; one that runs inside add_entry draws what was
      just added. */
  lemma FireRefines(full: bool, es: seq<Entry>, out: seq<Request>, i: nat)
    requires i < |es|
    ensures Draws(BagOf(full, es, out), View(full, es[i].request), BagOf(full, Fired(es, i), out + [es[i].request]))
  {
    hide Held, Tally, View;
    TallyAppend(full, out, [es[i].request]);
    TallyOne(full, es[i].request);
    HeldWithout(full, es, i);
    TakeOut(Held(full, es[..i] + es[i + 1..]), View(full, es[i].request));
  }

  // ---------------------------------------------------------------- so they signal the same

  function AddedBy(call: Call): seq<Entry> { if call.Add? then [call.e] else [] }

  function Added(calls: seq<Call>): seq<Entry>
    decreases |calls|
  {
    if calls == [] then [] else AddedBy(calls[0]) + Added(calls[1..])
  }

  function AttachedBy(call: ContCall): seq<Entry> { if call.Attach? then [call.e] else [] }

  function Attached(calls: seq<ContCall>): seq<Entry>
    decreases |calls|
  {
    if calls == [] then [] else AttachedBy(calls[0]) + Attached(calls[1..])
  }

  ghost predicate ExactCall(call: Call) { call.Win? ==> forall e :: Exact(call.mpi, e) }

  ghost predicate AllExact(calls: seq<Call>) { forall i :: 0 <= i < |calls| ==> ExactCall(calls[i]) }

  /** Bookkeeping: a call turns e into v and reports b; the rest adds d, reports c and leaves a. */
  lemma Balance<T>(a: multiset<T>, b: multiset<T>, c: multiset<T>, v: multiset<T>, d: multiset<T>, e: multiset<T>)
    requires a + c == v + d && v + b == e
    ensures a + (b + c) == e + d
  {
    assert a + (b + c) == (a + c) + b;
    assert e + d == (v + d) + b;
  }

  /** A call adds x, reports b of it and keeps the other part. */
  lemma BalanceAdd<T>(a: multiset<T>, b: multiset<T>, c: multiset<T>, v: multiset<T>, d: multiset<T>, e: multiset<T>, x: multiset<T>)
    requires a + c == v + d && v + b == e + x
    ensures a + (b + c) == e + (x + d)
  {
    Balance(a, b, c, v, d, e + x);
    assert e + (x + d) == (e + x) + d;
  }

  lemma PutBack<T>(p: multiset<T>, x: T)
    requires x in p
    ensures (p - multiset{x}) + (multiset{} + multiset{x}) == p
  {
  }

  lemma DrawBalance(b: Bag, r: Request, b': Bag)
    requires Draws(b, r, b') && b.done == multiset{}
    ensures b'.pending + b'.done == b.pending
  {
    PutBack(b.pending, r);
  }

  lemma VisitBalance(full: bool, mpi: Library, es: seq<Entry>)
    requires full && es != [] ==> Exact(mpi, es[0])
    ensures Held(full, Visited(mpi, es)) + Tally(full, Reported(mpi, es)) == Held(full, es)
  {
    var b, b' := BagOf(full, es, []), BagOf(full, Visited(mpi, es), [] + Reported(mpi, es));
    assert [] + Reported(mpi, es) == Reported(mpi, es);
    assert b.done == multiset{};
    hide Held, Tally, Visited, Reported, Draws, View;
    VisitRefines(full, mpi, es, []);
    if es != [] && Complete(mpi, es[0]) {
      DrawBalance(b, View(full, es[0].request), b');
    } else {
      assert b.pending + multiset{} == b.pending;
    }
  }

  lemma FireBalance(full: bool, es: seq<Entry>, i: nat)
    requires i < |es|
    ensures Held(full, Fired(es, i)) + Tally(full, [es[i].request]) == Held(full, es)
  {
    assert [] + [es[i].request] == [es[i].request];
    assert BagOf(full, es, []).done == multiset{};
    hide Held, Tally, Fired, Draws, View;
    FireRefines(full, es, [], i);
    DrawBalance(BagOf(full, es, []), View(full, es[i].request), BagOf(full, Fired(es, i), [es[i].request]));
  }

  lemma AddBalance(full: bool, es: seq<Entry>, e: Entry)
    ensures Held(full, es + [e]) + Tally(full, []) == Held(full, es) + Held(full, [e])
    ensures Held(full, es) + Tally(full, [e.request]) == Held(full, es) + Held(full, [e])
  {
    assert Tally(full, []) == multiset{};
    hide Held, Tally;
    AddRefines(full, es, [], e);
    HeldOne(full, e);
    TallyOne(full, e.request);
    assert Held(full, es + [e]) + multiset{} == Held(full, es + [e]);
  }

  /** One call: what is held after it and what it reports is what was held and what it adds. */
  lemma CallBalance(full: bool, es: seq<Entry>, call: Call)
    requires full ==> ExactCall(call)
    ensures Held(full, Next(es, call)) + Tally(full, Now(es, call)) == Held(full, es) + Held(full, AddedBy(call))
  {
    assert Held(full, []) == multiset{};
    match call {
      case Add(e) => AddBalance(full, es, e);
      case Win(mpi) =>
        VisitBalance(full, mpi, es);
        hide Held, Tally;
        assert Held(full, es) + multiset{} == Held(full, es);
    }
  }

  lemma ContCallBalance(full: bool, es: seq<Entry>, call: ContCall)
    ensures Held(full, ContNext(es, call)) + Tally(full, ContNow(es, call)) == Held(full, es) + Held(full, AttachedBy(call))
  {
    assert Held(full, []) == multiset{} && Tally(full, []) == multiset{};
    hide Held, Tally;
    match call {
      case Attach(e, immediate) => AddBalance(full, es, e);
      case Fire(i) =>
        assert Held(full, es) + multiset{} == Held(full, es);
        if i < |es| {
          FireBalance(full, es, i);
        }
    }
  }

  lemma {:induction false} RequestConserves(full: bool, es: seq<Entry>, calls: seq<Call>)
    requires full ==> AllExact(calls)
    ensures Held(full, After(es, calls)) + Tally(full, Out(es, calls)) == Held(full, es) + Held(full, Added(calls))
    decreases |calls|
  {
    if calls == [] {
    } else {
      var rest, es', now := calls[1..], Next(es, calls[0]), Now(es, calls[0]);
      assert full ==> AllExact(rest) && ExactCall(calls[0]);
      hide Held, Tally, AllExact, Next, Now, AddedBy, ExactCall;
      RequestConserves(full, es', rest);
      CallBalance(full, es, calls[0]);
      HeldAppend(full, AddedBy(calls[0]), Added(rest));
      TallyAppend(full, now, Out(es', rest));
      BalanceAdd(Held(full, After(es', rest)), Tally(full, now), Tally(full, Out(es', rest)),
                 Held(full, es'), Held(full, Added(rest)), Held(full, es), Held(full, AddedBy(calls[0])));
    }
  }

  lemma {:induction false} ContinuationConserves(full: bool, es: seq<Entry>, calls: seq<ContCall>)
    ensures Held(full, ContAfter(es, calls)) + Tally(full, ContOut(es, calls)) == Held(full, es) + Held(full, Attached(calls))
    decreases |calls|
  {
    if calls == [] {
    } else {
      var rest, es', now := calls[1..], ContNext(es, calls[0]), ContNow(es, calls[0]);
      hide Held, Tally, ContNext, ContNow, AttachedBy;
      ContinuationConserves(full, es', rest);
      ContCallBalance(full, es, calls[0]);
      HeldAppend(full, AttachedBy(calls[0]), Attached(rest));
      TallyAppend(full, now, ContOut(es', rest));
      BalanceAdd(Held(full, ContAfter(es', rest)), Tally(full, now), Tally(full, ContOut(es', rest)),
                 Held(full, es'), Held(full, Attached(rest)), Held(full, es), Held(full, AttachedBy(calls[0])));
    }
  }

  /** Give both managers the same operations, in any order, and let each run in its own way until
      nothing is pending: they signal the same operations, with the same device, buffer and context.  If every
      receive names its source and is filled exactly, the whole records agree. */
  lemma SameCompletions(full: bool, calls: seq<Call>, conts: seq<ContCall>)
    requires Held(full, Added(calls)) == Held(full, Attached(conts)) && (full ==> AllExact(calls))
    requires After([], calls) == [] && ContAfter([], conts) == []
    ensures Tally(full, Out([], calls)) == Tally(full, ContOut([], conts))
  {
    assert Held(full, []) == multiset{};
    hide Held, Tally, After, ContAfter, Out, ContOut, Added, Attached;
    RequestConserves(full, [], calls);
    ContinuationConserves(full, [], conts);
    var x, y := Tally(full, Out([], calls)), Tally(full, ContOut([], conts));
    assert multiset{} + x == x && multiset{} + y == y;
  }
}
