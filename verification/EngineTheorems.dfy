/**
 What the invariant means for the callers of the engine, in every state of every run.
 */
module EngineTheorems {
  import opened Basics
  import opened Wrappers
  import opened EngineModel
  import opened EngineInvariant
  import opened EngineRows
  import opened EngineStep
  import opened EngineInduction
  import opened EngineReach
  import opened EngineRest
  import opened EngineLedger

  // ---------------------------------------------------------------- exactly-once completion

  lemma ReachPlaces(c: Config, s: State, v: View)
    requires Reachable(c, s)
    ensures Unique(s, v) && Total(s, v)
  {
    ReachInv(c, s);
    hide Reachable, DataInv, Typed, LockInv, FramesOk, SlotsLive, ItemsOk, Unique, Total;
  }

  /** Every operation ever posted, and nothing else, is in exactly one place: in one thread's
      hand, one deque position, one put slot, one queue position or one delivery. */
  lemma ExactlyOnce(c: Config, s: State, id: nat)
    requires Reachable(c, s)
    ensures id < |s.g.ops| <==> exists p :: Look(s, Ids, p) == Some(id)
    ensures forall p, q :: Look(s, Ids, p) == Some(id) && Look(s, Ids, q) == Some(id) ==> p == q
  {
    hide Reachable;
    ReachPlaces(c, s, Ids);
    assert Exists(s.g, Ids, id) <==> Somewhere(s, Ids, id);
  }

  /** No completion is handed out twice, whether by a poll or by a handler, and none that is
      still queued has been handed out. */
  lemma DeliveredOnce(c: Config, s: State, r: nat, i: nat, r': nat, j: nat)
    requires Reachable(c, s) && i < |Done(s.g, r)|
    ensures j < |Done(s.g, r')| && Done(s.g, r')[j].id == Done(s.g, r)[i].id ==> r' == r && j == i
    ensures j < |Queue(s.g, r')| ==> Queue(s.g, r')[j].id != Done(s.g, r)[i].id
  {
    hide Reachable, Total;
    ReachPlaces(c, s, Ids);
    var id := Done(s.g, r)[i].id;
    assert Look(s, Ids, Don(r, i)) == Some(id);
    if j < |Done(s.g, r')| && Done(s.g, r')[j].id == id {
      assert Look(s, Ids, Don(r', j)) == Some(id);
    }
    if j < |Queue(s.g, r')| {
      assert Look(s, Ids, Cel(r', j)) == Some(Queue(s.g, r')[j].id);
    }
  }

  /** What a user is told: for a send or a put, the posted record; for a receive, the posted
      record with the sender's rank, tag and length; for a put signal, the same with a private
      copy of exactly the bytes that the matched put sent. */
  lemma DeliveredRecord(c: Config, s: State, r: nat, i: nat)
    requires Reachable(c, s) && i < |Done(s.g, r)|
    ensures var x, posted := Done(s.g, r)[i].record, Info(s.g, Done(s.g, r)[i].id).record;
            && Done(s.g, r)[i].id < |s.g.ops|
            && x.op == posted.op && x.dev == posted.dev && x.ctx == posted.ctx
            && (IsSendKind(posted.op) ==> x == posted)
            && (posted.op == RECV ==> x.buffer == posted.buffer)
    ensures var q, x := Done(s.g, r)[i].id, Done(s.g, r)[i].record;
            !IsSendKind(x.op) ==>
              && q in s.g.got && s.g.got[q] < |s.g.ops|
              && var sent := s.g.ops[s.g.got[q]];
                 && IsSendKind(sent.record.op) && Matches(c, sent, Info(s.g, q))
                 && x.rank == Dev(c, sent.record.dev).rank && x.tag == sent.record.tag && x.length == |sent.data|
                 && (x.op == PUT_SIGNAL ==> x.buffer == Private(sent.data))
  {
    hide Inv, Reachable, Matches;
    ReachInv(c, s);
    var x := Done(s.g, r)[i];
    BoxGood(c, s, Don(r, i), Item(x.id, 0, false, Gone(x.record)));
    if x.id in s.g.got {
      GotFact(c, s, x.id);
    }
  }

  predicate GotFacts(c: Config, g: Data, q: nat) {
    && q in g.got && q < |g.ops| && g.got[q] < |g.ops| && !IsSendKind(g.ops[q].record.op)
    && IsSendKind(g.ops[g.got[q]].record.op) && Matches(c, g.ops[g.got[q]], g.ops[q])
  }

  lemma GotFact(c: Config, s: State, q: nat)
    requires Inv(c, s) && q in s.g.got
    ensures GotFacts(c, s.g, q)
  {
    assert GotInv(c, s.g);
  }

  /** A queue holds only completions of operations that named it, each a live record with
      what the user will be told. */
  lemma QueuedWhereAsked(c: Config, s: State, q: nat, i: nat)
    requires Reachable(c, s) && i < |Queue(s.g, q)|
    ensures var x := Queue(s.g, q)[i];
            && x.id < |s.g.ops| && s.g.ops[x.id].comp == q
            && x.ptr in s.g.heap && s.g.heap[x.ptr] == FinalRecord(c, s.g, x.id)
  {
    ReachInv(c, s);
    var x := Queue(s.g, q)[i];
    assert Typed(c, s.g);
    hide Inv, Reachable;
    BoxGood(c, s, Cel(q, i), Item(x.id, x.ptr, false, Counted));
  }

  /** Whose operation it is. */
  function Owner(c: Config, g: Data, id: nat): nat { Dev(c, Info(g, id).record.dev).rank }

  ghost predicate Home(c: Config, g: Data) {
    && (forall r: nat, i: nat :: i < |Done(g, r)| ==> Done(g, r)[i].id < |g.ops| && Owner(c, g, Done(g, r)[i].id) == r)
    && (forall q: nat :: Queue(g, q) != [] ==> Comp(c, q).isQueue)
  }

  lemma SameHome(c: Config, g: Data, g': Data)
    requires Home(c, g) && g.ops <= g'.ops && g'.done == g.done && g'.queues == g.queues
    ensures Home(c, g')
  {
    assert forall q: nat :: Queue(g', q) == Queue(g, q);
    forall r: nat, i: nat | i < |Done(g', r)| ensures Done(g', r)[i].id < |g'.ops| && Owner(c, g', Done(g', r)[i].id) == r {
      assert Done(g', r) == Done(g, r);
    }
  }

  lemma QueueHome(c: Config, g: Data, g': Data, q: nat)
    requires Home(c, g) && g'.ops == g.ops && g'.done == g.done && Comp(c, q).isQueue
    requires forall k: nat :: k != q ==> Queue(g', k) == Queue(g, k)
    ensures Home(c, g')
  {
    hide Queue, Comp;
    forall r: nat, i: nat | i < |Done(g', r)| ensures Done(g', r)[i].id < |g'.ops| && Owner(c, g', Done(g', r)[i].id) == r {
      assert Done(g', r) == Done(g, r);
    }
  }

  lemma GiveHome(c: Config, g: Data, r: nat, x: Delivery)
    requires Home(c, g) && x.id < |g.ops| && Owner(c, g, x.id) == r
    ensures Home(c, Give(g, r, x))
  {
    var g' := Give(g, r, x);
    assert forall q: nat :: Queue(g', q) == Queue(g, q);
    forall k: nat, i: nat | i < |Done(g', k)| ensures Done(g', k)[i].id < |g'.ops| && Owner(c, g', Done(g', k)[i].id) == k {
      if k != r || i < |Done(g, r)| {
        assert Done(g', k)[i] == Done(g, k)[i];
      }
    }
  }

  lemma PostHome(c: Config, g: Data, r: nat, o: OpInfo)
    requires Home(c, g) && PostCall(c, g, r, o).Move?
    ensures Home(c, PostCall(c, g, r, o).g)
  {
    hide Home, ValidPost, Ctr, Pending, Throttled, NewEntry;
    if !Throttled(c, o.record.op) {
      SameHome(c, g, Birth(g, o));
    } else if Pending(g, r) > c.pendingMax {
      SameHome(c, g, PostCall(c, g, r, o).g);
    }
  }

  lemma PollHome(c: Config, s: State, t: nat, q: nat)
    requires Inv(c, s) && Home(c, s.g) && PollCall(c, s.g, RankOf(c, t), q).Move?
    ensures Home(c, PollCall(c, s.g, RankOf(c, t), q).g)
  {
    var g, r := s.g, RankOf(c, t);
    var x := Queue(g, q)[0];
    assert Typed(c, g) && OpsInv(c, g);
    assert x.id < |g.ops| && g.ops[x.id].comp == q && OpOk(c, g.ops[x.id]);
    hide Inv, Home, Typed, OpsInv, Load;
    QueueHome(c, g, PopCell(g, q), q);
    GiveHome(c, PopCell(g, q), r, Delivery(x.id, Load(g, x.ptr)));
  }

  lemma CallHome(c: Config, s: State, t: nat, ch: Choice)
    requires Inv(c, s) && Home(c, s.g) && CallMove(c, s.g, RankOf(c, t), ch).Move?
    ensures Home(c, CallMove(c, s.g, RankOf(c, t), ch).g)
  {
    hide Inv, Home, PostCall, PollCall;
    match ch
    case DoPost(o) => PostHome(c, s.g, RankOf(c, t), o);
    case DoProgress(_, _) =>
    case DoPoll(q) => PollHome(c, s, t, q);
    case Go(_) =>
  }

  lemma GoHome(c: Config, s: State, t: nat, hit: bool)
    requires Inv(c, s) && Home(c, s.g) && Fr(s, t).at != Idle && GoMove(c, s.g, RankOf(c, t), Fr(s, t), hit).Move?
    ensures Home(c, GoMove(c, s.g, RankOf(c, t), Fr(s, t), hit).g)
  {
    var g, r, f := s.g, RankOf(c, t), Fr(s, t);
    hide Inv, Home, Load, Comp, Dev, Queue, Ctr, StartOf, EndOf, Pending, Info;
    if Quiet(f.at) {
      hide GoMove;
      QuietHome(c, g, r, f, hit);
    } else if f.at.Push? {
      SignalFacts(c, s, t);
      PushHome(c, g, r, f);
    } else {
      OtherHome(c, g, r, f, hit);
    }
  }

  lemma PushHome(c: Config, g: Data, r: nat, f: Frame)
    requires Home(c, g) && f.e.id < |g.ops| && Owner(c, g, f.e.id) == r
    ensures Home(c, PushMove(c, g, r, f).g)
  {
    hide Home, Load, Done, Owner;
    if Comp(c, f.e.comp).isQueue {
      QueueHome(c, g, PushCell(g, f.e.comp, f.e.id, Load(g, f.e.ptr)), f.e.comp);
    } else {
      GiveHome(c, g, r, Delivery(f.e.id, Load(g, f.e.ptr)));
    }
  }

  lemma LoadedHome(c: Config, g: Data, r: nat, f: Frame)
    requires Home(c, g)
    ensures Home(c, LoadedMove(g, r, f).g)
  {
    hide Home, Pending, NewEntry;
    SameHome(c, g, LoadedMove(g, r, f).g);
  }

  lemma CountedHome(c: Config, g: Data, r: nat, x: Counters)
    requires Home(c, g)
    ensures Home(c, SetCtr(g, r, x))
  {
    hide Home;
    SameHome(c, g, SetCtr(g, r, x));
  }

  lemma SubHome(c: Config, g: Data, r: nat, f: Frame)
    requires Home(c, g)
    ensures Home(c, SubMove(c, g, r, f).g)
  {
    hide Home, Load, Pending, Throttled;
    if Throttled(c, Load(g, f.e.ptr).op) {
      SameHome(c, g, SubMove(c, g, r, f).g);
    }
  }

  lemma OtherHome(c: Config, g: Data, r: nat, f: Frame, hit: bool)
    requires Home(c, g) && (f.at.Loaded? || f.at.Started? || f.at.Consumed? || f.at.Sub? || f.at.Count?)
    ensures Home(c, GoMove(c, g, r, f, hit).g)
  {
    hide Home, LoadedMove, SubMove, SetCtr, Load, Ctr, StartOf, EndOf;
    match f.at
    case Loaded => LoadedHome(c, g, r, f);
    case Started => CountedHome(c, g, r, StartOf(f.o.record.op, Ctr(g, r)));
    case Consumed => CountedHome(c, g, r, Ctr(g, r).(consume := Ctr(g, r).consume + 1));
    case Sub => SubHome(c, g, r, f);
    case Count => CountedHome(c, g, r, EndOf(Load(g, f.e.ptr).op, Ctr(g, r)));
  }

  lemma QuietHome(c: Config, g: Data, r: nat, f: Frame, hit: bool)
    requires Home(c, g) && Quiet(f.at) && GoMove(c, g, r, f, hit).Move?
    ensures Home(c, GoMove(c, g, r, f, hit).g)
  {
    hide GoMove, Home, Share;
    var a := f.at;
    if a.PutIn? || a.PutTest? || a.PutBack? || a.Repost? || a.RepostIn? || a.RepostOut? {
      PutQuiet(c, g, r, f, hit);
    } else if a.Scan? || a.ScanIn? || a.Popped? || a.Testing? || a.Tested? {
      ScanQuiet(c, g, r, f, hit);
    } else {
      PostQuiet(c, g, r, f, hit);
    }
    SameHome(c, g, GoMove(c, g, r, f, hit).g);
  }

  lemma {:induction false} RunHome(c: Config, ls: seq<Label>)
    requires ValidConfig(c) && Run(c, ls).Some?
    ensures Home(c, Run(c, ls).value.g)
  {
    hide Inv, ValidConfig, Step, CallMove, GoMove, DeliverData;
    if ls != [] {
      hide Home;
      var p, l, s' := Run(c, ls[..|ls| - 1]).value, ls[|ls| - 1], Run(c, ls).value;
      RunHome(c, ls[..|ls| - 1]);
      RunInv(c, ls[..|ls| - 1]);
      match l {
        case Thread(t, ch) =>
          var m := ThreadStepIs(c, p, t, ch, s');
          if Fr(p, t).at == Idle {
            CallHome(c, p, t, ch);
          } else {
            GoHome(c, p, t, ch.hit);
          }
        case Deliver(k, q) =>
          DeliverIs(c, p, k, q, s');
          DeliverSame(p.g, k, q);
          DeliverBooks(p.g, k, q);
          SameHome(c, p.g, s'.g);
      }
    }
  }

  /** A completion reaches the process that posted the operation, or whose device received the put; and only
      completion objects that are queues keep completions. */
  lemma DeliveredHome(c: Config, s: State, r: nat, i: nat)
    requires Reachable(c, s) && i < |Done(s.g, r)|
    ensures Owner(c, s.g, Done(s.g, r)[i].id) == r
    ensures forall q: nat :: Queue(s.g, q) != [] ==> Comp(c, q).isQueue
  {
    var ls :| Run(c, ls) == Some(s);
    RunHome(c, ls);
  }

  // ---------------------------------------------------------------- heap conservation

  /** The live records are exactly those of the entries in deques and put slots, of the queued
      completions and of the entries in the threads' hands, each owned by one of them; so none leaks
      and none is deleted twice. */
  lemma HeapConserved(c: Config, s: State, ptr: nat)
    requires Reachable(c, s)
    ensures ptr in s.g.heap <==> exists p :: Look(s, Ptrs, p) == Some(ptr)
    ensures forall p, q :: Look(s, Ptrs, p) == Some(ptr) && Look(s, Ptrs, q) == Some(ptr) ==> p == q
  {
    hide Reachable;
    ReachPlaces(c, s, Ptrs);
    assert Exists(s.g, Ptrs, ptr) <==> Somewhere(s, Ptrs, ptr);
  }

  /** A record that was deleted stays deleted: an address is never given out twice. */
  lemma DeletedForGood(c: Config, s: State, l: Label, s': State, ptr: nat)
    requires Reachable(c, s) && Step(c, s, l) == Some(s') && ptr < s.g.nextPtr && ptr !in s.g.heap
    ensures ptr < s'.g.nextPtr && ptr !in s'.g.heap
  {
    ReachInv(c, s);
    ReachStep(c, s, l, s');
    ReachInv(c, s');
    match l
    case Deliver(k, q) =>
      DeliverIs(c, s, k, q, s');
      DeliverSame(s.g, k, q);
    case Thread(t, ch) =>
      var m := ThreadStepIs(c, s, t, ch, s');
      HandLive(c, s, t);
      hide Inv, MoveOf, Step, Reachable;
      ThreadHeap(c, s.g, RankOf(c, t), Fr(s, t), ch, ptr);
  }

  /** The record of a thread that is about to fill one in is live. */
  lemma HandLive(c: Config, s: State, t: nat)
    requires Inv(c, s)
    ensures var f := Fr(s, t); (f.at.PutBack? && f.hit) || f.at.Tested? ==> f.e.ptr in s.g.heap
  {
    hide Inv, FrameOk;
    InvPre(c, s, t);
  }

  lemma PostHeap(c: Config, g: Data, r: nat, o: OpInfo, ptr: nat)
    requires PostCall(c, g, r, o).Move? && ptr < g.nextPtr && ptr !in g.heap
    ensures var g' := PostCall(c, g, r, o).g; ptr < g'.nextPtr && ptr !in g'.heap
  {
    hide ValidPost, Ctr, Pending, Throttled;
    if Throttled(c, o.record.op) {
      if Pending(g, r) > c.pendingMax {
      }
    }
  }

  lemma PollHeap(c: Config, g: Data, r: nat, q: nat, ptr: nat)
    requires PollCall(c, g, r, q).Move? && ptr < g.nextPtr && ptr !in g.heap
    ensures var g' := PollCall(c, g, r, q).g; ptr < g'.nextPtr && ptr !in g'.heap
  {
    hide Load, Done, Comp, Queue;
  }

  lemma CallHeap(c: Config, g: Data, r: nat, ch: Choice, ptr: nat)
    requires CallMove(c, g, r, ch).Move? && ptr < g.nextPtr && ptr !in g.heap
    ensures var g' := CallMove(c, g, r, ch).g; ptr < g'.nextPtr && ptr !in g'.heap
  {
    hide PostCall, PollCall;
    match ch
    case DoPost(o) => PostHeap(c, g, r, o, ptr);
    case DoProgress(_, _) =>
    case DoPoll(q) => PollHeap(c, g, r, q, ptr);
    case Go(_) =>
  }

  lemma PutBackHeap(c: Config, g: Data, f: Frame, ptr: nat)
    requires (f.hit ==> f.e.ptr in g.heap) && ptr < g.nextPtr && ptr !in g.heap
    ensures var g' := PutBackMove(c, g, f).g; ptr < g'.nextPtr && ptr !in g'.heap
  {
    hide WithStatus, Load, Rbuf;
    if f.hit {
    }
  }

  lemma TestedHeap(c: Config, g: Data, f: Frame, ptr: nat)
    requires f.e.ptr in g.heap && ptr < g.nextPtr && ptr !in g.heap
    ensures var g' := TestedMove(c, g, f).g; ptr < g'.nextPtr && ptr !in g'.heap
  {
    hide WithStatus;
    if f.hit {
    }
  }

  lemma PushHeap(c: Config, g: Data, r: nat, f: Frame, ptr: nat)
    requires ptr < g.nextPtr && ptr !in g.heap
    ensures var g' := PushMove(c, g, r, f).g; ptr < g'.nextPtr && ptr !in g'.heap
  {
    hide Load, Queue, Done;
    if Comp(c, f.e.comp).isQueue {
    }
  }

  /** These locations allocate, write or delete records. */
  predicate UsesHeap(a: Loc) { a.Loaded? || a.PutBack? || a.Tested? || a.Push? || a.Free? }

  lemma HeapUnusedInProgress(c: Config, g: Data, r: nat, f: Frame, hit: bool)
    requires f.at != Idle && !UsesHeap(f.at) && GoMove(c, g, r, f, hit).Move? && (HoldsPut(f.at) || HoldsMgr(f.at) || f.at.Scan?)
    ensures var m := GoMove(c, g, r, f, hit); m.g.heap == g.heap && m.g.nextPtr == g.nextPtr
  {
    hide Load, Deque, Slot, Ctr, StartOf, EndOf, Dev, Pending, IsSendKind, Throttled;
  }

  lemma HeapUnusedInPost(c: Config, g: Data, r: nat, f: Frame, hit: bool)
    requires f.at != Idle && !UsesHeap(f.at) && GoMove(c, g, r, f, hit).Move? && !HoldsPut(f.at) && !HoldsMgr(f.at) && !f.at.Scan?
    ensures var m := GoMove(c, g, r, f, hit); m.g.heap == g.heap && m.g.nextPtr == g.nextPtr
  {
    hide Load, Deque, Slot, Ctr, StartOf, EndOf, Dev, Pending, IsSendKind, Throttled;
  }

  lemma HeapUsed(c: Config, g: Data, r: nat, f: Frame, hit: bool, ptr: nat)
    requires UsesHeap(f.at) && ptr < g.nextPtr && ptr !in g.heap
    requires (f.at.PutBack? && f.hit) || f.at.Tested? ==> f.e.ptr in g.heap
    ensures var m := GoMove(c, g, r, f, hit); m.Move? ==> ptr < m.g.nextPtr && ptr !in m.g.heap
  {
    hide PutBackMove, TestedMove, PushMove, LoadedMove, FreeMove;
    match f.at
    case PutBack => PutBackHeap(c, g, f, ptr);
    case Tested => TestedHeap(c, g, f, ptr);
    case Push => PushHeap(c, g, r, f, ptr);
    case Loaded => LoadedHeap(g, r, f, ptr);
    case Free => FreeHeap(g, f, ptr);
  }

  lemma LoadedHeap(g: Data, r: nat, f: Frame, ptr: nat)
    requires ptr < g.nextPtr && ptr !in g.heap
    ensures var g' := LoadedMove(g, r, f).g; ptr < g'.nextPtr && ptr !in g'.heap
  {
    hide Pending, NewEntry;
  }

  lemma FreeHeap(g: Data, f: Frame, ptr: nat)
    requires ptr < g.nextPtr && ptr !in g.heap
    ensures var g' := FreeMove(g, f).g; ptr < g'.nextPtr && ptr !in g'.heap
  {
  }

  lemma ThreadHeap(c: Config, g: Data, r: nat, f: Frame, ch: Choice, ptr: nat)
    requires (f.at.PutBack? && f.hit) || f.at.Tested? ==> f.e.ptr in g.heap
    requires MoveOf(c, g, r, f, ch).Move? && ptr < g.nextPtr && ptr !in g.heap
    ensures var g' := MoveOf(c, g, r, f, ch).g; ptr < g'.nextPtr && ptr !in g'.heap
  {
    hide CallMove, GoMove;
    if f.at == Idle {
      CallHeap(c, g, r, ch, ptr);
    } else if UsesHeap(f.at) {
      HeapUsed(c, g, r, f, ch.hit, ptr);
    } else if HoldsPut(f.at) || HoldsMgr(f.at) || f.at.Scan? {
      HeapUnusedInProgress(c, g, r, f, ch.hit);
    } else {
      HeapUnusedInPost(c, g, r, f, ch.hit);
    }
  }

  // ---------------------------------------------------------------- the single put slot

  /** A posted put receive of device `d`: an active MPI request on its receive buffer. */
  predicate PutPosted(g: Data, d: nat, id: nat) {
    id in g.reqs && Info(g, id).record.op == PUT_SIGNAL && Info(g, id).record.dev == d
  }

  lemma PutPostedAt(c: Config, s: State, d: nat, id: nat) returns (p: Place)
    requires Inv(c, s) && PutPosted(s.g, d, id)
    ensures Look(s, Ids, p) == Some(id) && FreshPut(s, p, d)
  {
    assert IdsInv(s.g) && Total(s, Ids);
    assert Exists(s.g, Ids, id) && Somewhere(s, Ids, id);
    p :| Look(s, Ids, p) == Some(id);
    assert ItemOk(c, s.g, ItemAt(s, p).value);
  }

  /** Never are two receives posted on the same buffer; and whenever the put lock is free, one
      is: the one in the slot, as post_put_recv posts it. */
  lemma OnePutReceive(c: Config, s: State, d: nat)
    requires Reachable(c, s) && d < |c.devs|
    ensures forall i, j :: PutPosted(s.g, d, i) && PutPosted(s.g, d, j) ==> i == j
    ensures PutLock(d) !in s.locks ==>
              var e, v := Slot(s.g, d), Dev(c, d);
              && e.active && PutPosted(s.g, d, e.id)
              && Info(s.g, e.id) == OpInfo(Record(PUT_SIGNAL, d, -1, v.maxTag, PutRbuf(d), v.capacity, 0), v.putComp, [])
  {
    ReachInv(c, s);
    forall i, j | PutPosted(s.g, d, i) && PutPosted(s.g, d, j) ensures i == j {
      var p := PutPostedAt(c, s, d, i);
      var q := PutPostedAt(c, s, d, j);
      hide Inv, PutPosted, Reachable;
      OneFreshPut(c, s, p, q, d);
    }
    if PutLock(d) !in s.locks {
      assert SlotsLive(c, s) && Typed(c, s.g);
      assert SlotOk(c, s.g, d, Slot(s.g, d));
      hide Inv;
      BoxGood(c, s, Slt(d), Of(Slot(s.g, d), Fresh));
    }
  }

  /** From the arrival of a put to the copy-out, the receive buffer holds the message that
      arrived, and no other receive is posted on it. */
  lemma PutBufferKept(c: Config, s: State, p: Place, d: nat)
    requires Reachable(c, s) && FreshPut(s, p, d) && ItemAt(s, p).value.id in s.g.got
    ensures var id := ItemAt(s, p).value.id;
            Info(s.g, s.g.got[id]).data <= Rbuf(s.g, d) && forall j :: PutPosted(s.g, d, j) ==> j == id
  {
    hide Inv, Reachable, FreshPut, Rbuf;
    ReachInv(c, s);
    FreshBuffer(c, s, p, d);
    var id := ItemAt(s, p).value.id;
    forall j | PutPosted(s.g, d, j) ensures j == id {
      var q := PutPostedAt(c, s, d, j);
      OneFreshPut(c, s, p, q, d);
    }
  }

  lemma FreshBuffer(c: Config, s: State, p: Place, d: nat)
    requires Inv(c, s) && FreshPut(s, p, d)
    ensures ItemAt(s, p).Some? && RbufHas(s.g, d, ItemAt(s, p).value.id)
  {
    assert ItemsOk(c, s);
    hide Inv, RbufHas;
    assert ItemOk(c, s.g, ItemAt(s, p).value);
  }

  // ---------------------------------------------------------------- traffic separation

  /** Users keep their tags within get_max_tag. */
  ghost predicate TagsKept(c: Config, g: Data) {
    forall k :: 0 <= k < |g.ops| && (g.ops[k].record.op == SEND || g.ops[k].record.op == RECV) ==>
      g.ops[k].record.tag <= MaxUserTag(c, g.ops[k].record.dev)
  }

  /** Then a put receive gets only puts and a user receive only sends, over one communicator,
      and no message is received twice. */
  lemma TrafficSeparated(c: Config, s: State, q: nat)
    requires Reachable(c, s) && TagsKept(c, s.g) && q in s.g.got
    ensures q < |s.g.ops| && s.g.got[q] < |s.g.ops|
    ensures var k := s.g.got[q];
            && (s.g.ops[q].record.op == PUT_SIGNAL <==> s.g.ops[k].record.op == PUT)
            && (s.g.ops[q].record.op == RECV <==> s.g.ops[k].record.op == SEND)
            && Dev(c, s.g.ops[k].record.dev).comm == Dev(c, s.g.ops[q].record.dev).comm
    ensures forall p :: p in s.g.got && s.g.got[p] == s.g.got[q] ==> p == q
  {
    ReachInv(c, s);
    GotFact(c, s, q);
    assert OpsInv(c, s.g) && GotInv(c, s.g) && ValidConfig(c);
    var k := s.g.got[q];
    assert OpOk(c, s.g.ops[q]) && OpOk(c, s.g.ops[k]);
  }

  // ---------------------------------------------------------------- do_progress

  /** do_progress is about to return true exactly when this call signalled a completion. */
  lemma ProgressIsHonest(c: Config, s: State, t: nat)
    requires Reachable(c, s) && Fr(s, t).at == Ret
    ensures Fr(s, t).made <==> Fr(s, t).sig > 0
  {
    ReachInv(c, s);
    InvPre(c, s, t);
    hide Inv, Reachable;
  }

  // ---------------------------------------------------------------- lock discipline

  /** Completions are signalled, counted and deleted with no lock held, so a handler may call
      back into send or do_progress. */
  lemma SignalsUnlocked(c: Config, s: State, t: nat)
    requires Reachable(c, s)
    requires var a := Fr(s, t).at; a.Idle? || a.Sub? || a.Count? || a.Push? || a.Free? || a.Ret?
    ensures forall l :: l in s.locks ==> s.locks[l] != t
  {
    hide Inv, Reachable, LockInv;
    ReachInv(c, s);
    InvLocks(c, s);
    forall l | l in s.locks ensures s.locks[l] != t {
      Owns(c, s, t, l);
    }
  }

  /** In stream mode every isend, irecv and test runs under the stream lock of its own
      operation's device, whatever manager the device shares. */
  lemma MpiUnderStreamLock(c: Config, s: State, t: nat)
    requires Reachable(c, s) && c.useStream
    ensures var f := Fr(s, t);
            (f.at.Posting? || f.at.Testing?) ==>
              var l := StreamLock(Info(s.g, f.e.id).record.dev); l in s.locks && s.locks[l] == t
    ensures var f := Fr(s, t);
            (f.at.RepostIn? ==>
              var l := StreamLock(Info(s.g, f.ne.id).record.dev); l in s.locks && s.locks[l] == t)
    ensures var f := Fr(s, t);
            (f.at.PutTest? ==>
              var l := StreamLock(Info(s.g, Slot(s.g, f.d).id).record.dev); l in s.locks && s.locks[l] == t)
  {
    ReachInv(c, s);
    assert LockInv(c, s);
    hide Inv, Reachable, FrameOk, ItemOk, LockInv, Hands;
    InvPre(c, s, t);
    var f := Fr(s, t);
    if f.at.PutTest? {
      SlotGood(c, s, t);
      Owns(c, s, t, StreamLock(f.d));
    } else {
      StreamDevice(c, s.g, RankOf(c, t), f);
      Owns(c, s, t, StreamLock(f.e.dev));
      Owns(c, s, t, StreamLock(f.d));
    }
  }

  lemma Owns(c: Config, s: State, t: nat, l: Lock)
    requires LockInv(c, s)
    ensures Holds(c, Fr(s, t), l) <==> l in s.locks && s.locks[l] == t
  {
  }

  lemma StreamDevice(c: Config, g: Data, r: nat, f: Frame)
    requires FrameOk(c, g, r, f)
    ensures (f.at.Posting? || f.at.Testing?) ==> Info(g, f.e.id).record.dev == f.e.dev
    ensures f.at.RepostIn? ==> Info(g, f.ne.id).record.dev == f.d
  {
  }

  function LockLevel(l: Lock): nat { if l.StreamLock? then 1 else 0 }

  /** Whatever a thread wants to lock lies strictly above everything it holds: the
      held-while-wanting relation has no cycle. */
  lemma LocksOrdered(c: Config, s: State, t: nat, ch: Choice, l: Lock)
    requires Reachable(c, s) && l in s.locks && s.locks[l] == t
    requires var m := MoveOf(c, s.g, RankOf(c, t), Fr(s, t), ch); m.Move? && m.lock.Take?
    ensures LockLevel(l) < LockLevel(MoveOf(c, s.g, RankOf(c, t), Fr(s, t), ch).lock.l)
  {
    ReachInv(c, s);
    assert LockInv(c, s);
    assert Holds(c, Fr(s, t), l);
    hide Inv, Reachable;
    TakeAbove(c, s.g, RankOf(c, t), Fr(s, t), ch, l);
  }

  lemma TakeAbove(c: Config, g: Data, r: nat, f: Frame, ch: Choice, l: Lock)
    requires Holds(c, f, l) && var m := MoveOf(c, g, r, f, ch); m.Move? && m.lock.Take?
    ensures l.MgrLock? || l.PutLock?
    ensures MoveOf(c, g, r, f, ch).lock.l.StreamLock?
  {
    hide Load, Deque, Slot, Ctr, StartOf, EndOf, CopyOut, Birth, Comp, Dev;
  }
}
