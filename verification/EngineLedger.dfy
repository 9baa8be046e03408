/**
 The numbers the engine keeps: the throttle's pending counter and the
 monitoring counters, over every run.
 */
module EngineLedger {
  import opened Basics
  import opened Wrappers
  import opened EngineModel
  import opened EngineInvariant
  import opened EngineRows
  import opened EnginePlaces
  import opened EngineStep
  import opened EngineInduction
  import opened EngineReach

  // ---------------------------------------------------------------- sums over threads

  /** Three accounts: threads that passed the throttle check and have not incremented; sends
      and puts, or puts only, counted up but not started, less those counted down but not ended; completions
      counted as produced but not handed over, plus those polled but not counted as consumed. */
  datatype Account = Racing | Messages(puts: bool) | Completions

  /** The operations that the Messages account is about. */
  predicate OfKind(puts: bool, k: Op) { if puts then k == PUT else IsSendKind(k) }

  function InPost(f: Frame, puts: bool): int {
    if (f.at.Ready? || f.at.Posting? || f.at.Adding? || f.at.Pushing? || f.at.Started?) && OfKind(puts, f.o.record.op)
    then 1 else 0
  }

  function AtCount(g: Data, f: Frame, puts: bool): int {
    if f.at.Count? && OfKind(puts, Info(g, f.e.id).record.op) then 1 else 0
  }

  function Share(g: Data, f: Frame, a: Account): int {
    match a
    case Racing => if f.at.Loaded? then 1 else 0
    case Messages(puts) => InPost(f, puts) - AtCount(g, f, puts)
    case Completions => if f.at.Push? || f.at.Consumed? then 1 else 0
  }

  /** The shares of process r's threads among the first n. */
  function Shares(c: Config, s: State, r: nat, a: Account, n: nat): int {
    if n == 0 then 0
    else Shares(c, s, r, a, n - 1) + if RankOf(c, n - 1) == r then Share(s.g, Fr(s, n - 1), a) else 0
  }

  function ThreadsOf(c: Config, r: nat, n: nat): nat {
    if n == 0 then 0 else ThreadsOf(c, r, n - 1) + if RankOf(c, n - 1) == r then 1 else 0
  }

  lemma {:induction false} SharesMove(c: Config, s: State, s': State, r: nat, a: Account, t: nat, n: nat)
    requires forall u: nat :: u < n && u != t ==> Share(s'.g, Fr(s', u), a) == Share(s.g, Fr(s, u), a)
    ensures Shares(c, s', r, a, n) == Shares(c, s, r, a, n)
            + if t < n && RankOf(c, t) == r then Share(s'.g, Fr(s', t), a) - Share(s.g, Fr(s, t), a) else 0
  {
    hide Share, RankOf, Fr;
    if n > 0 {
      SharesMove(c, s, s', r, a, t, n - 1);
    }
  }

  /** Not all threads race if one of them does not. */
  lemma {:induction false} RacingBound(c: Config, s: State, r: nat, n: nat)
    ensures 0 <= Shares(c, s, r, Racing, n) <= ThreadsOf(c, r, n)
    ensures forall t: nat :: t < n && RankOf(c, t) == r && !Fr(s, t).at.Loaded? ==>
              Shares(c, s, r, Racing, n) < ThreadsOf(c, r, n)
  {
    if n > 0 {
      RacingBound(c, s, r, n - 1);
    }
  }

  /** The completions in the first n queues that belong to process r. */
  function Queued(c: Config, g: Data, r: nat, n: nat): nat {
    if n == 0 then 0 else Queued(c, g, r, n - 1) + if Comp(c, n - 1).rank == r then |Queue(g, n - 1)| else 0
  }

  lemma {:induction false} QueuedMove(c: Config, g: Data, g': Data, r: nat, q: nat, n: nat)
    requires forall k: nat :: k < n && k != q ==> Queue(g', k) == Queue(g, k)
    ensures Queued(c, g', r, n) == Queued(c, g, r, n)
            + if q < n && Comp(c, q).rank == r then |Queue(g', q)| - |Queue(g, q)| else 0
  {
    hide Comp, Queue;
    if n > 0 {
      QueuedMove(c, g, g', r, q, n - 1);
    }
  }

  // ---------------------------------------------------------------- what the books say

  /** The sends and puts, or puts only, of process r that were admitted and not counted down. */
  ghost function Outstanding(c: Config, g: Data, r: nat, puts: bool): set<nat> {
    set id: nat | id < |g.ops| && Owes(c, g, r, puts, id)
  }

  predicate Owes(c: Config, g: Data, r: nat, puts: bool, id: nat) {
    OfKind(puts, Info(g, id).record.op) && Dev(c, Info(g, id).record.dev).rank == r && id !in g.down
  }

  function Unfinished(x: Counters, puts: bool): int {
    x.putStart - x.putEnd + if puts then 0 else x.sendStart - x.sendEnd
  }

  predicate QueuesOnly(c: Config) { forall q :: 0 <= q < |c.comps| ==> c.comps[q].isQueue }

  ghost predicate Books(c: Config, s: State, r: nat) {
    && (c.pendingMax > 0 ==>
          && Pending(s.g, r) == |Outstanding(c, s.g, r, false)|
          && Pending(s.g, r) + Shares(c, s, r, Racing, |c.threads|) <= c.pendingMax + ThreadsOf(c, r, |c.threads|)
          && Pending(s.g, r) == Unfinished(Ctr(s.g, r), false) + Shares(c, s, r, Messages(false), |c.threads|)
          && |Outstanding(c, s.g, r, true)| == Unfinished(Ctr(s.g, r), true) + Shares(c, s, r, Messages(true), |c.threads|))
    && (QueuesOnly(c) ==>
          Ctr(s.g, r).produce == Ctr(s.g, r).consume + Queued(c, s.g, r, |c.comps|)
                                 + Shares(c, s, r, Completions, |c.threads|))
  }

  // ---------------------------------------------------------------- one move, in the books

  function Net(g: Data, r: nat): int { Ctr(g, r).produce - Ctr(g, r).consume }

  /** The move changes the accounts of process `r` and queue `q` only, and by its own share; `n` is the
      change in outstanding puts. */
  ghost predicate Booked(c: Config, g: Data, r: nat, f: Frame, m: Move, q: nat, n: int) {
    && m.Move?
    && (forall k: nat :: k != r ==> Pending(m.g, k) == Pending(g, k))
    && (forall k: nat :: k != r ==> Ctr(m.g, k) == Ctr(g, k))
    && (c.pendingMax > 0 ==>
          && Pending(m.g, r) - Unfinished(Ctr(m.g, r), false) - Share(m.g, m.f, Messages(false))
             == Pending(g, r) - Unfinished(Ctr(g, r), false) - Share(g, f, Messages(false))
          && Unfinished(Ctr(m.g, r), true) + Share(m.g, m.f, Messages(true))
             == Unfinished(Ctr(g, r), true) + Share(g, f, Messages(true)) + n
          && (Pending(m.g, r) + Share(m.g, m.f, Racing) <= Pending(g, r) + Share(g, f, Racing)
              || (Share(g, f, Racing) == 0 && Pending(m.g, r) + Share(m.g, m.f, Racing) <= c.pendingMax + 1)))
    && (forall k: nat :: k != q ==> Queue(m.g, k) == Queue(g, k))
    && (Queue(m.g, q) == Queue(g, q) || (q < |c.comps| && Comp(c, q).rank == r))
    && (QueuesOnly(c) ==>
          Net(m.g, r) - |Queue(m.g, q)| - Share(m.g, m.f, Completions)
          == Net(g, r) - |Queue(g, q)| - Share(g, f, Completions))
  }

  function PutCount(k: Op): int { if k == PUT then 1 else 0 }

  /** A step that touches neither counters nor queues. */
  lemma QuietBooked(c: Config, g: Data, r: nat, f: Frame, m: Move)
    requires m.Move? && m.g.pending == g.pending && m.g.ctr == g.ctr && m.g.queues == g.queues
    requires forall a :: Share(m.g, m.f, a) == Share(g, f, a)
    ensures Booked(c, g, r, f, m, 0, 0)
  {
    hide Share, Unfinished, Comp, QueuesOnly;
  }

  lemma SetCtrIs(g: Data, r: nat, x: Counters)
    ensures var g' := SetCtr(g, r, x);
            && g'.ops == g.ops && g'.down == g.down && Ctr(g', r) == x
            && (forall k: nat :: k != r ==> Ctr(g', k) == Ctr(g, k))
            && (forall k: nat :: Pending(g', k) == Pending(g, k)) && (forall k: nat :: Queue(g', k) == Queue(g, k))
  {
  }

  lemma AddPendingIs(g: Data, r: nat, n: int, g': Data)
    requires g'.pending == AddPending(g, r, n).pending && g'.ctr == g.ctr && g'.queues == g.queues
    ensures && Pending(g', r) == Pending(g, r) + n
            && (forall k: nat :: k != r ==> Pending(g', k) == Pending(g, k))
            && (forall k: nat :: Ctr(g', k) == Ctr(g, k)) && (forall k: nat :: Queue(g', k) == Queue(g, k))
  {
  }

  lemma BirthPending(g: Data, r: nat, o: OpInfo)
    ensures var g' := Birth(AddPending(g, r, 1), o);
            g'.pending == AddPending(g, r, 1).pending && g'.ctr == g.ctr && g'.queues == g.queues
  {
    hide Pending;
  }

  lemma DownPending(g: Data, r: nat, id: nat)
    ensures var g' := MarkDown(AddPending(g, r, -1), id);
            && g'.pending == AddPending(g, r, -1).pending && g'.ctr == g.ctr && g'.queues == g.queues
            && g'.ops == g.ops
  {
    hide Pending;
  }

  lemma SameBooks(g: Data, g': Data)
    requires g'.pending == g.pending && g'.ctr == g.ctr && g'.queues == g.queues
    ensures (forall k: nat :: Pending(g', k) == Pending(g, k)) && (forall k: nat :: Queue(g', k) == Queue(g, k))
    ensures forall k: nat :: Ctr(g', k) == Ctr(g, k)
  {
  }

  lemma PostBooked(c: Config, g: Data, r: nat, o: OpInfo)
    requires PostCall(c, g, r, o).Move?
    ensures Booked(c, g, r, IDLE, PostCall(c, g, r, o), 0, 0)
  {
    var x := Ctr(g, r).(retry := Ctr(g, r).retry + 1);
    SetCtrIs(g, r, x);
    SameBooks(g, Birth(g, o));
    hide ValidPost, Info, Comp, QueuesOnly, NewEntry, SetCtr, Ctr, Pending, Queue, Birth;
    if Throttled(c, o.record.op) {
      if Pending(g, r) > c.pendingMax {
      }
    }
  }

  lemma PollBooked(c: Config, g: Data, r: nat, q: nat)
    requires PollCall(c, g, r, q).Move?
    ensures Booked(c, g, r, IDLE, PollCall(c, g, r, q), q, 0)
  {
    hide Info, Load, Done, QueuesOnly, Unfinished;
  }

  lemma LoadedBooked(c: Config, g: Data, r: nat, f: Frame)
    requires f.at == Loaded && Throttled(c, f.o.record.op)
    ensures Booked(c, g, r, f, LoadedMove(g, r, f), 0, PutCount(f.o.record.op))
  {
    hide Info, QueuesOnly, NewEntry, Comp, AddPending, Birth, Pending, Ctr, Queue, Unfinished;
    BirthPending(g, r, f.o);
    AddPendingIs(g, r, 1, Birth(AddPending(g, r, 1), f.o));
    assert Ctr(LoadedMove(g, r, f).g, r) == Ctr(g, r);
  }

  lemma StartedBooked(c: Config, g: Data, r: nat, f: Frame)
    requires f.at == Started && f.o.record.op != PUT_SIGNAL
    ensures Booked(c, g, r, f, StartedMove(g, r, f), 0, 0)
  {
    SetCtrIs(g, r, StartOf(f.o.record.op, Ctr(g, r)));
    hide Info, QueuesOnly, Comp, SetCtr, Ctr, Pending, Queue;
  }

  lemma ConsumedBooked(c: Config, g: Data, r: nat, f: Frame)
    requires f.at == Consumed
    ensures Booked(c, g, r, f, ConsumedMove(g, r), 0, 0)
  {
    SetCtrIs(g, r, Ctr(g, r).(consume := Ctr(g, r).consume + 1));
    hide Info, QueuesOnly, Comp, SetCtr, Ctr, Pending, Queue;
  }

  lemma SubBooked(c: Config, g: Data, r: nat, f: Frame)
    requires f.at == Sub && Load(g, f.e.ptr).op == Info(g, f.e.id).record.op
    ensures Booked(c, g, r, f, SubMove(c, g, r, f), 0, if c.pendingMax > 0 then -PutCount(Load(g, f.e.ptr).op) else 0)
  {
    hide QueuesOnly, Comp, Load, AddPending, MarkDown, Pending, Ctr, Queue, Unfinished;
    if Throttled(c, Load(g, f.e.ptr).op) {
      DownPending(g, r, f.e.id);
      AddPendingIs(g, r, -1, MarkDown(AddPending(g, r, -1), f.e.id));
      assert Ctr(SubMove(c, g, r, f).g, r) == Ctr(g, r);
    }
  }

  lemma CountBooked(c: Config, g: Data, r: nat, f: Frame)
    requires f.at == Count && Load(g, f.e.ptr).op == Info(g, f.e.id).record.op
    ensures Booked(c, g, r, f, CountMove(g, r, f), 0, 0)
  {
    SetCtrIs(g, r, EndOf(Load(g, f.e.ptr).op, Ctr(g, r)));
    hide QueuesOnly, Comp, Load, SetCtr, Ctr, Pending, Queue;
  }

  lemma PushBooked(c: Config, g: Data, r: nat, f: Frame)
    requires f.at == Push && f.e.comp < |c.comps| && Comp(c, f.e.comp).rank == r
    ensures Booked(c, g, r, f, PushMove(c, g, r, f), f.e.comp, 0)
  {
    hide Info, Load, Done, Unfinished;
    if Comp(c, f.e.comp).isQueue {
    }
  }

  // ---------------------------------------------------------------- the other locations

  predicate Quiet(a: Loc) {
    !(a.Idle? || a.Loaded? || a.Started? || a.Consumed? || a.Sub? || a.Count? || a.Push?)
  }

  /** Same books, same completions handed out, and at most a put receive more in the log. */
  ghost predicate QuietData(c: Config, g: Data, g': Data) {
    && g'.pending == g.pending && g'.ctr == g.ctr && g'.queues == g.queues && g'.done == g.done && g'.down == g.down
    && (g'.ops == g.ops || exists d :: g'.ops == g.ops + [SlotOp(c, d)])
  }

  lemma PutQuiet(c: Config, g: Data, r: nat, f: Frame, hit: bool)
    requires var a := f.at; a.PutIn? || a.PutTest? || a.PutBack? || a.Repost? || a.RepostIn? || a.RepostOut?
    requires GoMove(c, g, r, f, hit).Move?
    ensures var m := GoMove(c, g, r, f, hit); QuietData(c, g, m.g) && forall a :: Share(m.g, m.f, a) == Share(g, f, a)
  {
    hide SlotOp, NewEntry, Load, WithStatus, Slot, Rbuf, Info;
    match f.at
    case PutBack =>
      if f.hit {
        assert PutBackMove(c, g, f).g.ops == g.ops + [SlotOp(c, f.d)];
      }
    case _ =>
  }

  lemma PostQuiet(c: Config, g: Data, r: nat, f: Frame, hit: bool)
    requires var a := f.at; a.Ready? || a.Posting? || a.Adding? || a.Pushing? || a.Free? || a.Ret?
    requires GoMove(c, g, r, f, hit).Move?
    ensures var m := GoMove(c, g, r, f, hit); QuietData(c, g, m.g) && forall a :: Share(m.g, m.f, a) == Share(g, f, a)
  {
    hide SlotOp, Load, Deque, Info, Dev;
    match f.at
    case Posting => hide IsSendKind;
    case _ =>
  }

  lemma ScanQuietData(c: Config, g: Data, r: nat, f: Frame, hit: bool)
    requires var a := f.at; a.Scan? || a.ScanIn? || a.Popped? || a.Testing? || a.Tested?
    requires GoMove(c, g, r, f, hit).Move?
    ensures var g' := GoMove(c, g, r, f, hit).g;
            && g'.pending == g.pending && g'.ctr == g.ctr && g'.queues == g.queues && g'.done == g.done && g'.down == g.down
            && g'.ops == g.ops
  {
    hide SlotOp, Load, WithStatus, Deque, Dev, IsSendKind;
    match f.at
    case Tested =>
      if f.hit {
      }
    case ScanIn =>
      if Deque(g, Dev(c, f.d).mgr) == [] {
      }
    case Testing =>
      if hit {
      }
    case _ =>
  }

  /** No share before the move, and none after it. */
  lemma ScanQuietShare(c: Config, g: Data, r: nat, f: Frame, hit: bool, a: Account)
    requires f.at.Scan? || f.at.ScanIn? || f.at.Popped? || f.at.Testing? || f.at.Tested?
    requires GoMove(c, g, r, f, hit).Move?
    ensures var m := GoMove(c, g, r, f, hit); Share(m.g, m.f, a) == 0 == Share(g, f, a)
  {
    hide PushBack, PopFront, Finish, SetRecord, Load, WithStatus, Deque, Dev, IsSendKind, Info;
    match f.at
    case Tested =>
      if f.hit {
      }
    case _ =>
  }

  lemma ScanQuiet(c: Config, g: Data, r: nat, f: Frame, hit: bool)
    requires var a := f.at; a.Scan? || a.ScanIn? || a.Popped? || a.Testing? || a.Tested?
    requires GoMove(c, g, r, f, hit).Move?
    ensures var m := GoMove(c, g, r, f, hit); QuietData(c, g, m.g) && forall a :: Share(m.g, m.f, a) == Share(g, f, a)
  {
    hide GoMove, Share;
    ScanQuietData(c, g, r, f, hit);
    var m := GoMove(c, g, r, f, hit);
    forall a ensures Share(m.g, m.f, a) == Share(g, f, a) {
      ScanQuietShare(c, g, r, f, hit, a);
    }
  }

  // ---------------------------------------------------------------- who still owes a completion

  lemma OweSame(c: Config, g: Data, g': Data, r: nat, puts: bool)
    requires g'.down == g.down
    requires g'.ops == g.ops || exists o :: g'.ops == g.ops + [o] && !IsSendKind(o.record.op)
    ensures Outstanding(c, g', r, puts) == Outstanding(c, g, r, puts)
  {
    forall id: nat ensures id in Outstanding(c, g', r, puts) <==> id in Outstanding(c, g, r, puts) {
    }
  }

  lemma OweNew(c: Config, g: Data, g': Data, o: OpInfo, r: nat, puts: bool)
    requires g'.down == g.down && g'.ops == g.ops + [o] && |g.ops| !in g.down
    ensures |Outstanding(c, g', r, puts)| == |Outstanding(c, g, r, puts)|
            + if Dev(c, o.record.dev).rank == r && OfKind(puts, o.record.op) then 1 else 0
  {
    var more := Dev(c, o.record.dev).rank == r && OfKind(puts, o.record.op);
    forall id: nat
      ensures id in Outstanding(c, g', r, puts) <==> id in Outstanding(c, g, r, puts) || (id == |g.ops| && more)
    {
      if id < |g.ops| {
        assert Info(g', id) == Info(g, id);
      }
    }
    if more {
      assert Outstanding(c, g', r, puts) == Outstanding(c, g, r, puts) + {|g.ops|};
    } else {
      assert Outstanding(c, g', r, puts) == Outstanding(c, g, r, puts);
    }
  }

  lemma OweDown(c: Config, g: Data, g': Data, id: nat, r: nat, puts: bool)
    requires g'.ops == g.ops && g'.down == g.down + {id} && id < |g.ops| && id !in g.down
    ensures |Outstanding(c, g', r, puts)| == |Outstanding(c, g, r, puts)|
            - if Dev(c, Info(g, id).record.dev).rank == r && OfKind(puts, Info(g, id).record.op) then 1 else 0
  {
    if Dev(c, Info(g, id).record.dev).rank == r && OfKind(puts, Info(g, id).record.op) {
      assert id in Outstanding(c, g, r, puts);
      assert Outstanding(c, g', r, puts) == Outstanding(c, g, r, puts) - {id};
    } else {
      assert Outstanding(c, g', r, puts) == Outstanding(c, g, r, puts);
    }
  }

  /** The pending counters follow the outstanding operations, and process r has n puts more. */
  ghost predicate Owed(c: Config, g: Data, g': Data, r: nat, n: int) {
    && (forall k: nat :: Pending(g', k) - |Outstanding(c, g', k, false)| == Pending(g, k) - |Outstanding(c, g, k, false)|)
    && (forall k: nat :: |Outstanding(c, g', k, true)| == |Outstanding(c, g, k, true)| + if k == r then n else 0)
  }

  lemma QuietOwed(c: Config, g: Data, g': Data, r: nat)
    requires g'.pending == g.pending && g'.down == g.down
    requires g'.ops == g.ops || exists o :: g'.ops == g.ops + [o] && !IsSendKind(o.record.op)
    ensures Owed(c, g, g', r, 0)
  {
    forall k: nat, puts: bool ensures Outstanding(c, g', k, puts) == Outstanding(c, g, k, puts) {
      hide Outstanding, IsSendKind;
      OweSame(c, g, g', k, puts);
    }
    hide Outstanding;
  }

  lemma LoadedOwed(c: Config, g: Data, r: nat, o: OpInfo)
    requires IdsInv(g) && IsSendKind(o.record.op) && Dev(c, o.record.dev).rank == r
    ensures Owed(c, g, Birth(AddPending(g, r, 1), o), r, PutCount(o.record.op))
  {
    var g' := Birth(AddPending(g, r, 1), o);
    assert g'.ops == g.ops + [o] && g'.down == g.down && |g.ops| !in g.down;
    hide AddPending, Birth, Pending, Outstanding, IdsInv, Dev, Ctr, Queue;
    BirthPending(g, r, o);
    AddPendingIs(g, r, 1, g');
    forall k: nat
      ensures Pending(g', k) - |Outstanding(c, g', k, false)| == Pending(g, k) - |Outstanding(c, g, k, false)|
      ensures |Outstanding(c, g', k, true)| == |Outstanding(c, g, k, true)| + if k == r then PutCount(o.record.op) else 0
    {
      OweNew(c, g, g', o, k, false);
      OweNew(c, g, g', o, k, true);
    }
  }

  lemma SubOwed(c: Config, g: Data, r: nat, id: nat)
    requires id < |g.ops| && id !in g.down && IsSendKind(Info(g, id).record.op)
    requires Dev(c, Info(g, id).record.dev).rank == r
    ensures Owed(c, g, MarkDown(AddPending(g, r, -1), id), r, -PutCount(Info(g, id).record.op))
  {
    var g' := MarkDown(AddPending(g, r, -1), id);
    assert g'.ops == g.ops && g'.down == g.down + {id};
    hide AddPending, MarkDown, Pending, Outstanding, Dev, Ctr, Queue, Info;
    DownPending(g, r, id);
    AddPendingIs(g, r, -1, g');
    var n := -PutCount(Info(g, id).record.op);
    forall k: nat
      ensures Pending(g', k) - |Outstanding(c, g', k, false)| == Pending(g, k) - |Outstanding(c, g, k, false)|
      ensures |Outstanding(c, g', k, true)| == |Outstanding(c, g, k, true)| + if k == r then n else 0
    {
      OweDown(c, g, g', id, k, false);
      OweDown(c, g, g', id, k, true);
    }
  }

  // ---------------------------------------------------------------- every step keeps the books

  ghost predicate Entered(c: Config, g: Data, r: nat, f: Frame, m: Move, q: nat, n: int) {
    Booked(c, g, r, f, m, q, n) && (c.pendingMax > 0 ==> Owed(c, g, m.g, r, n))
  }

  lemma IdleBooked(c: Config, g: Data, r: nat, f: Frame, m: Move, q: nat, n: int)
    requires f.at == Idle && Booked(c, g, r, IDLE, m, q, n)
    ensures Booked(c, g, r, f, m, q, n)
  {
    hide Share, Unfinished, QueuesOnly, Ctr, Pending, Queue, Comp, Net;
    IdleShare(g, f);
    IdleShare(g, IDLE);
  }

  lemma IdleShare(g: Data, f: Frame)
    requires f.at == Idle
    ensures Share(g, f, Racing) == 0 && Share(g, f, Messages(true)) == Share(g, f, Messages(false)) == 0 && Share(g, f, Completions) == 0
  {
  }

  lemma PostOwed(c: Config, g: Data, r: nat, o: OpInfo)
    requires PostCall(c, g, r, o).Move? && c.pendingMax > 0
    ensures Owed(c, g, PostCall(c, g, r, o).g, r, 0)
  {
    hide ValidPost, Ctr, Owed, Pending;
    if Throttled(c, o.record.op) {
      if Pending(g, r) > c.pendingMax {
      }
      QuietOwed(c, g, PostCall(c, g, r, o).g, r);
    } else {
      var g' := PostCall(c, g, r, o).g;
      assert g'.ops == g.ops + [o] && !IsSendKind(o.record.op);
      QuietOwed(c, g, g', r);
    }
  }

  lemma CallEntered(c: Config, g: Data, r: nat, f: Frame, ch: Choice) returns (q: nat)
    requires f.at == Idle && CallMove(c, g, r, ch).Move?
    ensures Entered(c, g, r, f, CallMove(c, g, r, ch), q, 0)
  {
    hide PostCall, Booked, Owed;
    var m := CallMove(c, g, r, ch);
    q := 0;
    match ch {
      case DoPost(o) =>
        PostBooked(c, g, r, o);
        if c.pendingMax > 0 {
          PostOwed(c, g, r, o);
        }
      case DoProgress(d, lock) =>
        QuietBooked(c, g, r, IDLE, m);
        QuietOwed(c, g, m.g, r);
      case DoPoll(k) =>
        q := k;
        hide Load, Queue, Done, Comp;
        PollBooked(c, g, r, k);
        QuietOwed(c, g, m.g, r);
      case Go(_) =>
    }
    hide CallMove;
    IdleBooked(c, g, r, f, m, q, 0);
  }

  lemma QuietEntered(c: Config, g: Data, r: nat, f: Frame, hit: bool)
    requires Quiet(f.at) && GoMove(c, g, r, f, hit).Move?
    ensures Entered(c, g, r, f, GoMove(c, g, r, f, hit), 0, 0)
  {
    hide GoMove, Booked, Owed, Share;
    var a, m := f.at, GoMove(c, g, r, f, hit);
    if a.PutIn? || a.PutTest? || a.PutBack? || a.Repost? || a.RepostIn? || a.RepostOut? {
      PutQuiet(c, g, r, f, hit);
    } else if a.Scan? || a.ScanIn? || a.Popped? || a.Testing? || a.Tested? {
      ScanQuiet(c, g, r, f, hit);
    } else {
      PostQuiet(c, g, r, f, hit);
    }
    QuietBooked(c, g, r, f, m);
    QuietOwed(c, g, m.g, r);
  }

  /** What a thread in signal_comp knows of its operation. */
  lemma SignalFacts(c: Config, s: State, t: nat)
    requires Inv(c, s)
    ensures var f := Fr(s, t);
            f.at.Sub? || f.at.Count? || f.at.Push? ==>
              && f.e.id < |s.g.ops| && Load(s.g, f.e.ptr).op == Info(s.g, f.e.id).record.op
              && Dev(c, Info(s.g, f.e.id).record.dev).rank == RankOf(c, t)
              && f.e.comp < |c.comps| && Comp(c, f.e.comp).rank == RankOf(c, t)
              && (f.at.Sub? ==> f.e.id !in s.g.down)
  {
    assert OpsInv(c, s.g);
    hide Inv;
    InvPre(c, s, t);
    var f := Fr(s, t);
    if f.at.Sub? || f.at.Count? || f.at.Push? {
      assert OpOk(c, s.g.ops[f.e.id]);
      FinalOp(c, s.g, f.e.id);
      hide FinalRecord, OpOk, OpsInv;
    }
  }

  lemma FinalOp(c: Config, g: Data, id: nat)
    ensures FinalRecord(c, g, id).op == Info(g, id).record.op
  {
  }

  lemma GoEntered(c: Config, s: State, t: nat, hit: bool) returns (q: nat, n: int)
    requires Inv(c, s) && Fr(s, t).at != Idle && GoMove(c, s.g, RankOf(c, t), Fr(s, t), hit).Move?
    ensures Entered(c, s.g, RankOf(c, t), Fr(s, t), GoMove(c, s.g, RankOf(c, t), Fr(s, t), hit), q, n)
  {
    var g, r, f := s.g, RankOf(c, t), Fr(s, t);
    InvPre(c, s, t);
    SignalFacts(c, s, t);
    assert IdsInv(g);
    q, n := 0, 0;
    hide Inv, IdsInv, Hands, Booked, Owed, Load, Comp, Dev, Info;
    hide LoadedMove, StartedMove, ConsumedMove, SubMove, CountMove, PushMove;
    if Quiet(f.at) {
      hide FrameOk, GoMove;
      QuietEntered(c, g, r, f, hit);
    } else if f.at.Loaded? {
      n := PutCount(f.o.record.op);
      LoadedBooked(c, g, r, f);
      LoadedOwes(c, g, r, f);
    } else if f.at.Started? {
      StartedBooked(c, g, r, f);
      StartedOwes(c, g, r, f);
    } else if f.at.Consumed? {
      ConsumedBooked(c, g, r, f);
      ConsumedOwes(c, g, r);
    } else if f.at.Sub? {
      n := if c.pendingMax > 0 then -PutCount(Load(g, f.e.ptr).op) else 0;
      SubBooked(c, g, r, f);
      SubOwes(c, g, r, f);
    } else if f.at.Count? {
      CountBooked(c, g, r, f);
      CountOwes(c, g, r, f);
    } else {
      q := f.e.comp;
      PushBooked(c, g, r, f);
      PushOwes(c, g, r, f);
    }
  }

  lemma LoadedOwes(c: Config, g: Data, r: nat, f: Frame)
    requires IdsInv(g) && ValidPost(c, r, f.o) && Throttled(c, f.o.record.op)
    ensures Owed(c, g, LoadedMove(g, r, f).g, r, PutCount(f.o.record.op))
  {
    hide Owed, AddPending, Birth, IdsInv;
    LoadedOwed(c, g, r, f.o);
  }

  lemma StartedOwes(c: Config, g: Data, r: nat, f: Frame)
    ensures Owed(c, g, StartedMove(g, r, f).g, r, 0)
  {
    hide Owed, Ctr, StartOf;
    QuietOwed(c, g, StartedMove(g, r, f).g, r);
  }

  lemma ConsumedOwes(c: Config, g: Data, r: nat)
    ensures Owed(c, g, ConsumedMove(g, r).g, r, 0)
  {
    hide Owed, Ctr;
    QuietOwed(c, g, ConsumedMove(g, r).g, r);
  }

  lemma SubOwes(c: Config, g: Data, r: nat, f: Frame)
    requires f.e.id < |g.ops| && f.e.id !in g.down && Load(g, f.e.ptr).op == Info(g, f.e.id).record.op
    requires Dev(c, Info(g, f.e.id).record.dev).rank == r
    ensures c.pendingMax > 0 ==> Owed(c, g, SubMove(c, g, r, f).g, r, -PutCount(Load(g, f.e.ptr).op))
  {
    hide Owed, AddPending, MarkDown, Load, Info;
    if Throttled(c, Load(g, f.e.ptr).op) {
      SubOwed(c, g, r, f.e.id);
    } else {
      QuietOwed(c, g, g, r);
    }
  }

  lemma CountOwes(c: Config, g: Data, r: nat, f: Frame)
    ensures Owed(c, g, CountMove(g, r, f).g, r, 0)
  {
    hide Owed, Ctr, EndOf, Load;
    QuietOwed(c, g, CountMove(g, r, f).g, r);
  }

  lemma PushOwes(c: Config, g: Data, r: nat, f: Frame)
    ensures Owed(c, g, PushMove(c, g, r, f).g, r, 0)
  {
    hide Owed, Queue, Done, Load;
    if Comp(c, f.e.comp).isQueue {
    }
    QuietOwed(c, g, PushMove(c, g, r, f).g, r);
  }

  /** The other threads' shares do not change. */
  lemma OthersShare(c: Config, s: State, t: nat, m: Move, s': State, a: Account)
    requires Inv(c, s) && Moved(s, t, m, s') && s.g.ops <= m.g.ops
    ensures forall u: nat :: u != t ==> Share(s'.g, Fr(s', u), a) == Share(s.g, Fr(s, u), a)
  {
    forall u: nat | u != t ensures Share(s'.g, Fr(s', u), a) == Share(s.g, Fr(s, u), a) {
      SignalFacts(c, s, u);
      hide Inv, Comp, Load, Dev;
    }
  }

  lemma ThreadBooks(c: Config, s: State, t: nat, m: Move, s': State, q: nat, d: int, k: nat)
    requires t < |c.threads| && Moved(s, t, m, s') && m.Move? && s'.g == m.g && Fr(s', t) == m.f
    requires forall a, u: nat :: u != t ==> Share(s'.g, Fr(s', u), a) == Share(s.g, Fr(s, u), a)
    requires Entered(c, s.g, RankOf(c, t), Fr(s, t), m, q, d) && Books(c, s, k)
    ensures Books(c, s', k)
  {
    var n := |c.threads|;
    hide Moved, Share, Unfinished, QueuesOnly, Ctr, Pending, Queue, Comp, Fr, RankOf, Outstanding;
    SharesMove(c, s, s', k, Racing, t, n);
    SharesMove(c, s, s', k, Messages(false), t, n);
    SharesMove(c, s, s', k, Messages(true), t, n);
    SharesMove(c, s, s', k, Completions, t, n);
    QueuedMove(c, s.g, s'.g, k, q, |c.comps|);
    if RankOf(c, t) == k && Share(s.g, Fr(s, t), Racing) == 0 {
      RacingRoom(c, s, t, k);
    }
  }

  lemma RacingRoom(c: Config, s: State, t: nat, k: nat)
    requires t < |c.threads| && RankOf(c, t) == k && Share(s.g, Fr(s, t), Racing) == 0
    ensures Shares(c, s, k, Racing, |c.threads|) < ThreadsOf(c, k, |c.threads|)
  {
    RacingBound(c, s, k, |c.threads|);
  }

  lemma ThreadKeepsBooks(c: Config, s: State, t: nat, ch: Choice, s': State, k: nat)
    requires Inv(c, s) && Step(c, s, Thread(t, ch)) == Some(s') && Books(c, s, k)
    ensures Books(c, s', k)
  {
    var m := ThreadStepIs(c, s, t, ch, s');
    assert m.Move? && s'.g == m.g && Fr(s', t) == m.f;
    hide Inv, Moved, Step, CallMove, GoMove, Books, Entered;
    var q, n := 0, 0;
    if Fr(s, t).at == Idle {
      q := CallEntered(c, s.g, RankOf(c, t), Fr(s, t), ch);
      SlotWon(c, s, t, m, s', ch);
      CallOutcome(c, s, t, m, s', ch);
    } else {
      q, n := GoEntered(c, s, t, ch.hit);
      GoOutcome(c, s, t, m, s', ch.hit);
    }
    OpsGrow(c, s, t, m, s');
    hide Outcome, MoveOf, Fr;
    forall a, u: nat | u != t ensures Share(s'.g, Fr(s', u), a) == Share(s.g, Fr(s, u), a) {
      OthersShare(c, s, t, m, s', a);
    }
    ThreadBooks(c, s, t, m, s', q, n, k);
  }

  lemma OpsGrow(c: Config, s: State, t: nat, m: Move, s': State)
    requires Outcome(c, s, t, m, s')
    ensures s.g.ops <= m.g.ops
  {
    hide Placed, Typed, SlotEffect, FrameOk;
  }

  lemma SameShares(c: Config, s: State, s': State, k: nat, a: Account, n: nat)
    requires s'.g.ops == s.g.ops && forall u: nat :: Fr(s', u) == Fr(s, u)
    ensures Shares(c, s', k, a, n) == Shares(c, s, k, a, n)
  {
    hide Fr, RankOf, IsSendKind;
    if n > 0 {
      SameShares(c, s, s', k, a, n - 1);
    }
  }

  lemma DeliverKeepsBooks(c: Config, s: State, k: nat, q: nat, s': State, r: nat)
    requires Step(c, s, Deliver(k, q)) == Some(s') && Books(c, s, r)
    ensures Books(c, s', r)
  {
    hide Step, DeliverData, Fr, CanDeliver, Books;
    DeliverIs(c, s, k, q, s');
    DeliverSame(s.g, k, q);
    DeliverBooks(s.g, k, q);
    SameKeepsBooks(c, s, s', r);
  }

  lemma SameKeepsBooks(c: Config, s: State, s': State, r: nat)
    requires forall u: nat :: Fr(s', u) == Fr(s, u)
    requires s'.g.ops == s.g.ops && s'.g.down == s.g.down
    requires s'.g.pending == s.g.pending && s'.g.ctr == s.g.ctr && s'.g.queues == s.g.queues && Books(c, s, r)
    ensures Books(c, s', r)
  {
    hide Fr, Shares, Queued, Outstanding, Ctr, Pending, Queue, QueuesOnly, Unfinished;
    SameBooks(s.g, s'.g);
    SameShares(c, s, s', r, Racing, |c.threads|);
    SameShares(c, s, s', r, Messages(false), |c.threads|);
    SameShares(c, s, s', r, Messages(true), |c.threads|);
    SameShares(c, s, s', r, Completions, |c.threads|);
    QueuedMove(c, s.g, s'.g, r, 0, |c.comps|);
    OweSame(c, s.g, s'.g, r, false);
    OweSame(c, s.g, s'.g, r, true);
    assert Ctr(s'.g, r) == Ctr(s.g, r);
  }

  lemma DeliverBooks(g: Data, k: nat, q: nat)
    ensures var g' := DeliverData(g, k, q); g'.pending == g.pending && g'.ctr == g.ctr && g'.queues == g.queues
  {
    hide Rbuf, Info;
    if Info(g, q).record.op == PUT_SIGNAL {
      if |Info(g, k).data| <= |Rbuf(g, Info(g, q).record.dev)| {
      }
    }
  }

  lemma {:induction false} StartShares(c: Config, r: nat, a: Account, n: nat)
    ensures Shares(c, Init(c), r, a, n) == 0
  {
    if n > 0 {
      StartShares(c, r, a, n - 1);
    }
  }

  lemma {:induction false} StartQueued(c: Config, r: nat, n: nat)
    ensures Queued(c, InitData(c), r, n) == 0
  {
    if n > 0 {
      StartQueued(c, r, n - 1);
    }
  }

  lemma InitZero(c: Config, r: nat)
    ensures var g := InitData(c);
            && Pending(g, r) == 0 && (forall puts :: Outstanding(c, g, r, puts) == {} && Unfinished(Ctr(g, r), puts) == 0)
            && Ctr(g, r).produce == 0 && Ctr(g, r).consume == 0
  {
  }

  lemma InitBooks(c: Config, r: nat)
    ensures Books(c, Init(c), r)
  {
    hide Shares, Queued, Outstanding, Ctr, Pending, QueuesOnly, Unfinished, InitData;
    StartShares(c, r, Racing, |c.threads|);
    StartShares(c, r, Messages(false), |c.threads|);
    StartShares(c, r, Messages(true), |c.threads|);
    StartShares(c, r, Completions, |c.threads|);
    StartQueued(c, r, |c.comps|);
    InitZero(c, r);
  }

  lemma {:induction false} RunBooks(c: Config, ls: seq<Label>, r: nat)
    requires ValidConfig(c) && Run(c, ls).Some?
    ensures Books(c, Run(c, ls).value, r)
  {
    hide Inv, ValidConfig, Step, Books;
    if ls == [] {
      InitBooks(c, r);
    } else {
      var p, l, s' := Run(c, ls[..|ls| - 1]).value, ls[|ls| - 1], Run(c, ls).value;
      RunBooks(c, ls[..|ls| - 1], r);
      RunInv(c, ls[..|ls| - 1]);
      match l
      case Thread(t, ch) => ThreadKeepsBooks(c, p, t, ch, s', r);
      case Deliver(k, q) => DeliverKeepsBooks(c, p, k, q, s', r);
    }
  }

  // ---------------------------------------------------------------- what that means

  lemma ReachBooks(c: Config, s: State, r: nat)
    requires Reachable(c, s)
    ensures Books(c, s, r)
  {
    hide Books;
    var ls :| Run(c, ls) == Some(s);
    RunBooks(c, ls, r);
  }

  /** With the throttle on, the pending counter of a process is at all times the number of its
      admitted sends and puts that were not counted down; so it is never negative, and it never exceeds
      the limit by more than the number of the process's threads. */
  lemma PendingBound(c: Config, s: State, r: nat)
    requires Reachable(c, s) && c.pendingMax > 0
    ensures Pending(s.g, r) == |Outstanding(c, s.g, r, false)|
    ensures 0 <= Pending(s.g, r) <= c.pendingMax + ThreadsOf(c, r, |c.threads|)
  {
    ReachBooks(c, s, r);
    RacingBound(c, s, r, |c.threads|);
    hide Reachable, Outstanding, Shares, Queued;
  }

  lemma {:induction false} NoShares(c: Config, s: State, r: nat, a: Account, n: nat)
    requires forall t: nat :: t < n ==> Fr(s, t).at == Idle
    ensures Shares(c, s, r, a, n) == 0
  {
    if n > 0 {
      NoShares(c, s, r, a, n - 1);
    }
  }

  /** While no thread is inside a call, the monitoring counters agree with the state: sends and
      puts started but not ended are the pending ones, puts by themselves too, and, when every completion object is a queue,
      completions produced but not consumed are the queued ones. */
  lemma CountersAgree(c: Config, s: State, r: nat)
    requires Reachable(c, s) && forall t: nat :: t < |c.threads| ==> Fr(s, t).at == Idle
    ensures c.pendingMax > 0 ==>
              var x := Ctr(s.g, r);
              && (x.sendStart - x.sendEnd) + (x.putStart - x.putEnd) == Pending(s.g, r) == |Outstanding(c, s.g, r, false)|
              && x.putStart - x.putEnd == |Outstanding(c, s.g, r, true)|
    ensures QueuesOnly(c) ==> Ctr(s.g, r).produce - Ctr(s.g, r).consume == Queued(c, s.g, r, |c.comps|)
  {
    ReachBooks(c, s, r);
    NoShares(c, s, r, Messages(false), |c.threads|);
    NoShares(c, s, r, Messages(true), |c.threads|);
    NoShares(c, s, r, Completions, |c.threads|);
    hide Reachable, Outstanding, Shares, Queued, Ctr, Pending, QueuesOnly;
  }
}
