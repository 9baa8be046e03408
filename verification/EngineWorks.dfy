/**
 The engine does its work: a call that finds the locks it needs free and the library's
 answers favourable does what it is for.
 */
module EngineWorks {
  import opened Basics
  import opened Wrappers
  import opened EngineModel
  import opened EngineInvariant
  import opened EngineRows
  import opened EngineStep
  import opened EngineInduction
  import opened EngineReach
  import opened EngineLedger

  // ---------------------------------------------------------------- turns of one thread

  /** The state after thread t took n steps inside its call, with every hint true, every try-lock won and
      every test successful. */
  function Goes(c: Config, s: State, t: nat, n: nat): Option<State> {
    if n == 0 then Some(s)
    else
      var p := Goes(c, s, t, n - 1);
      if p.None? then None else Step(c, p.value, Thread(t, Go(true)))
  }

  ghost predicate On(c: Config, s0: State, t: nat, n: nat, s: State) {
    Goes(c, s0, t, n) == Some(s) && Reachable(c, s) && t < |c.threads|
  }

  lemma Turn(c: Config, s0: State, t: nat, n: nat, s: State) returns (s': State)
    requires On(c, s0, t, n, s) && Fr(s, t).at != Idle
    requires var m := GoMove(c, s.g, RankOf(c, t), Fr(s, t), true); m.Move? && !(m.lock.Take? && m.lock.l in s.locks)
    ensures var m := GoMove(c, s.g, RankOf(c, t), Fr(s, t), true);
            && On(c, s0, t, n + 1, s') && s'.g == m.g && Fr(s', t) == m.f
            && match m.lock
               case NoLock => s'.locks == s.locks
               case Take(l) => s'.locks == s.locks[l := t]
               case Drop(l) => s'.locks == s.locks - {l}
  {
    hide GoMove, Reachable, Step;
    s' := Advance(c, s, t, Go(true));
  }

  lemma OnIs(c: Config, s0: State, t: nat, n: nat, s: State)
    requires On(c, s0, t, n, s)
    ensures Reachable(c, s)
  {
    hide Reachable;
  }

  /** What the way to a completion does not touch. */
  predicate SameSoFar(g: Data, g': Data) { g'.queues == g.queues && g'.done == g.done && g'.ops == g.ops && g'.ctr == g.ctr }

  // ---------------------------------------------------------------- mpi::signal_comp

  /** The thread is at location `a` of signal_comp with operation `id`, and nothing was handed over yet. */
  ghost predicate Signals(c: Config, g: Data, s: State, t: nat, a: Loc, id: nat, put: bool) {
    var f := Fr(s, t);
    && f.at == a && f.e.id == id && f.hit && f.fromPut == put && id < |s.g.ops| && f.e.comp == s.g.ops[id].comp
    && s.g.queues == g.queues && s.g.done == g.done
    && (if a == Push then EndCounted(Ctr(g, RankOf(c, t)), Ctr(s.g, RankOf(c, t)), s.g.ops[id].record.op) else s.g.ctr == g.ctr)
  }

  function One(b: bool): int { if b then 1 else 0 }

  /** The completion of one operation of kind k was counted: its own end counter and the produced
      completions, and nothing else. */
  predicate EndCounted(x: Counters, y: Counters, k: Op) {
    && y.sendEnd == x.sendEnd + One(k == SEND) && y.recvEnd == x.recvEnd + One(k == RECV)
    && y.putEnd == x.putEnd + One(k == PUT) && y.putSignal == x.putSignal + One(k == PUT_SIGNAL)
    && y.produce == x.produce + 1 && y.consume == x.consume && y.retry == x.retry
    && y.sendStart == x.sendStart && y.putStart == x.putStart && y.recvStart == x.recvStart
  }

  /** Operation `id` is the newest in the queue that it named, or the newest handed to the user of process r
      if it named a handler, and its completion was counted. */
  predicate HandedOver(c: Config, g: Data, g': Data, r: nat, id: nat) {
    && id < |g'.ops| && EndCounted(Ctr(g, r), Ctr(g', r), g'.ops[id].record.op)
    && var q := g'.ops[id].comp;
       if Comp(c, q).isQueue then
         |Queue(g', q)| == |Queue(g, q)| + 1 && Queue(g, q) <= Queue(g', q) && Queue(g', q)[|Queue(g, q)|].id == id
       else |Done(g', r)| == |Done(g, r)| + 1 && Done(g, r) <= Done(g', r) && Done(g', r)[|Done(g, r)|].id == id
  }

  lemma SubTurn(c: Config, g: Data, s0: State, t: nat, n: nat, s: State, id: nat, put: bool) returns (s': State)
    requires On(c, s0, t, n, s) && Signals(c, g, s, t, Sub, id, put)
    ensures On(c, s0, t, n + 1, s') && Signals(c, g, s', t, Count, id, put) && Fr(s', t).d == Fr(s, t).d
    ensures s'.locks == s.locks
  {
    hide On, Load, Pending, Throttled;
    if Throttled(c, Load(s.g, Fr(s, t).e.ptr).op) {
    }
    s' := Turn(c, s0, t, n, s);
  }

  lemma CountIs(g: Data, r: nat, f: Frame)
    ensures var m := CountMove(g, r, f);
            && m.Move? && m.lock == NoLock && m.f == f.(at := Push) && m.g.queues == g.queues && m.g.done == g.done
            && m.g.ops == g.ops && EndCounted(Ctr(g, r), Ctr(m.g, r), Load(g, f.e.ptr).op)
  {
    hide Load;
  }

  lemma CountTurn(c: Config, g: Data, s0: State, t: nat, n: nat, s: State, id: nat, put: bool) returns (s': State)
    requires On(c, s0, t, n, s) && Signals(c, g, s, t, Count, id, put)
    ensures On(c, s0, t, n + 1, s') && Signals(c, g, s', t, Push, id, put) && Fr(s', t).d == Fr(s, t).d
    ensures s'.locks == s.locks
  {
    hide On, Load, CountMove, EndCounted, Reachable;
    OnIs(c, s0, t, n, s);
    CountedKind(c, s, t);
    CountIs(s.g, RankOf(c, t), Fr(s, t));
    assert Ctr(s.g, RankOf(c, t)) == Ctr(g, RankOf(c, t));
    s' := Turn(c, s0, t, n, s);
  }

  lemma CountedKind(c: Config, s: State, t: nat)
    requires Reachable(c, s) && Fr(s, t).at == Count && Fr(s, t).e.id < |s.g.ops|
    ensures Load(s.g, Fr(s, t).e.ptr).op == s.g.ops[Fr(s, t).e.id].record.op
  {
    hide Reachable, Inv;
    ReachInv(c, s);
    SignalFacts(c, s, t);
  }

  lemma PushDelivers(c: Config, g: Data, g1: Data, r: nat, f: Frame)
    requires g1.queues == g.queues && g1.done == g.done && f.e.id < |g1.ops| && f.e.comp == g1.ops[f.e.id].comp
    requires EndCounted(Ctr(g, r), Ctr(g1, r), g1.ops[f.e.id].record.op)
    ensures var m := PushMove(c, g1, r, f);
            && m.Move? && m.lock == NoLock && m.f == f.(at := Free, sig := f.sig + 1)
            && HandedOver(c, g, m.g, r, f.e.id)
  {
    hide Load, EndCounted;
    if Comp(c, f.e.comp).isQueue {
    }
  }

  lemma PushTurn(c: Config, g: Data, s0: State, t: nat, n: nat, s: State, id: nat, put: bool) returns (s': State)
    requires On(c, s0, t, n, s) && Signals(c, g, s, t, Push, id, put)
    ensures On(c, s0, t, n + 1, s') && s'.locks == s.locks && HandedOver(c, g, s'.g, RankOf(c, t), id)
    ensures var f := Fr(s', t); f.at == Free && f.hit && f.fromPut == put && f.d == Fr(s, t).d
  {
    hide On, HandedOver, PushMove;
    PushDelivers(c, g, s.g, RankOf(c, t), Fr(s, t));
    s' := Turn(c, s0, t, n, s);
  }

  lemma FreeTurn(c: Config, g: Data, s0: State, t: nat, n: nat, s: State, id: nat) returns (s': State)
    requires On(c, s0, t, n, s) && Fr(s, t).at == Free && Fr(s, t).hit && HandedOver(c, g, s.g, RankOf(c, t), id)
    ensures On(c, s0, t, n + 1, s') && s'.locks == s.locks && HandedOver(c, g, s'.g, RankOf(c, t), id)
    ensures var f := Fr(s', t); f.at == (if Fr(s, t).fromPut then Scan else Ret) && f.made && f.d == Fr(s, t).d
  {
    hide On;
    s' := Turn(c, s0, t, n, s);
    hide EndCounted;
    assert s'.g.queues == s.g.queues && s'.g.done == s.g.done && s'.g.ops == s.g.ops && s'.g.ctr == s.g.ctr;
  }

  /** signal_comp hands the operation over, and the progress is recorded. */
  lemma SignalDelivers(c: Config, g: Data, s0: State, t: nat, n: nat, s: State, id: nat, put: bool) returns (s': State)
    requires On(c, s0, t, n, s) && Signals(c, g, s, t, Sub, id, put)
    ensures On(c, s0, t, n + 4, s') && s'.locks == s.locks && HandedOver(c, g, s'.g, RankOf(c, t), id)
    ensures Fr(s', t).at == (if put then Scan else Ret) && Fr(s', t).made && Fr(s', t).d == Fr(s, t).d
  {
    hide On, Signals, HandedOver, Fr;
    s' := SubTurn(c, g, s0, t, n, s, id, put);
    s' := CountTurn(c, g, s0, t, n + 1, s', id, put);
    s' := PushTurn(c, g, s0, t, n + 2, s', id, put);
    s' := FreeTurn(c, g, s0, t, n + 3, s', id);
  }

  // ---------------------------------------------------------------- do_progress, manager part

  /** A thread that begins do_progress without looking at the put slot. */
  lemma BeginScan(c: Config, s: State, t: nat, d: nat) returns (s': State)
    requires Reachable(c, s) && t < |c.threads| && Fr(s, t).at == Idle && d < |c.devs| && Dev(c, d).rank == RankOf(c, t)
    ensures Step(c, s, Thread(t, DoProgress(d, false))) == Some(s') && On(c, s', t, 0, s')
    ensures s'.g == s.g && s'.locks == s.locks && Fr(s', t) == IDLE.(at := Scan, d := d)
  {
    hide Reachable, Step;
    s' := Advance(c, s, t, DoProgress(d, false));
  }

  lemma PopTurns(c: Config, s: State, t: nat, d: nat) returns (s': State)
    requires On(c, s, t, 0, s) && Fr(s, t) == IDLE.(at := Scan, d := d)
    requires var m := Dev(c, d).mgr; Deque(s.g, m) != [] && MgrLock(m) !in s.locks
    ensures var m := Dev(c, d).mgr;
            && On(c, s, t, 2, s') && s'.g == PopFront(s.g, m) && s'.locks == s.locks[MgrLock(m) := t]
            && Fr(s', t) == IDLE.(at := Popped, d := d, e := Deque(s.g, m)[0])
  {
    hide On, Dev, Deque, PopFront;
    s' := Turn(c, s, t, 0, s);
    s' := Turn(c, s, t, 1, s');
  }

  /** A thread at Tested that found operation `id` complete. */
  ghost predicate Hit(c: Config, g: Data, s: State, t: nat, id: nat, d: nat) {
    var f := Fr(s, t);
    f.at == Tested && f.hit && f.e.id == id && f.d == d && id < |s.g.ops| && f.e.comp == s.g.ops[id].comp && SameSoFar(g, s.g)
  }

  /** The test succeeds for a null request, a send, or a receive that a message reached. */
  lemma TestTurns(c: Config, g: Data, s0: State, t: nat, s: State, d: nat) returns (n: nat, s': State)
    requires On(c, s0, t, 2, s) && Fr(s, t).at == Popped && Fr(s, t).d == d && SameSoFar(g, s.g) && EntryOk(s.g, Fr(s, t).e)
    requires var e := Fr(s, t).e;
             && (c.useStream ==> StreamLock(e.dev) !in s.locks)
             && (!e.active || IsSendKind(Load(s.g, e.ptr).op) || e.id in s.g.got)
    ensures n <= 4 && On(c, s0, t, n, s') && Hit(c, g, s', t, Fr(s, t).e.id, d)
  {
    hide On, Load, Dev, IsSendKind;
    if Fr(s, t).e.active {
      s' := Turn(c, s0, t, 2, s);
      s' := Turn(c, s0, t, 3, s');
      n := 4;
    } else {
      s' := Turn(c, s0, t, 2, s);
      n := 3;
    }
  }

  lemma HitTurn(c: Config, g: Data, s0: State, t: nat, n: nat, s: State, id: nat, d: nat) returns (s': State)
    requires On(c, s0, t, n, s) && Hit(c, g, s, t, id, d)
    ensures On(c, s0, t, n + 1, s') && Signals(c, g, s', t, Sub, id, false)
  {
    hide On, Load, Dev, WithStatus;
    if Load(s.g, Fr(s, t).e.ptr).op == RECV {
    }
    s' := Turn(c, s0, t, n, s);
  }

  /** The front entry agrees with the log of operations. */
  lemma FrontFacts(c: Config, s: State, m: nat)
    requires Inv(c, s) && Deque(s.g, m) != []
    ensures var e := Deque(s.g, m)[0]; EntryOk(s.g, e) && Load(s.g, e.ptr).op == s.g.ops[e.id].record.op
  {
    FrontGood(c, s, m);
    hide Inv;
  }

  /** A do_progress that finds the manager's lock and the entry's stream lock free, and the front entry
      complete, signals that entry and is about to return true. */
  lemma ProgressDelivers(c: Config, s: State, t: nat, d: nat) returns (s1: State, n: nat, s': State)
    requires Reachable(c, s) && t < |c.threads| && Fr(s, t).at == Idle && d < |c.devs| && Dev(c, d).rank == RankOf(c, t)
    requires var m := Dev(c, d).mgr;
             && Deque(s.g, m) != [] && MgrLock(m) !in s.locks
             && (c.useStream ==> StreamLock(Deque(s.g, m)[0].dev) !in s.locks)
    requires var e := Deque(s.g, Dev(c, d).mgr)[0];
             !e.active || IsSendKind(Info(s.g, e.id).record.op) || e.id in s.g.got
    ensures Step(c, s, Thread(t, DoProgress(d, false))) == Some(s1) && n <= 10 && Goes(c, s1, t, n) == Some(s')
    ensures Fr(s', t).at == Ret && Fr(s', t).made
    ensures HandedOver(c, s.g, s'.g, RankOf(c, t), Deque(s.g, Dev(c, d).mgr)[0].id)
  {
    ReachInv(c, s);
    hide Inv, Reachable, Step, HandedOver, IsSendKind, Load, Dev, Hit, Signals;
    var m := Dev(c, d).mgr;
    var e := Deque(s.g, m)[0];
    FrontFacts(c, s, m);
    s1 := BeginScan(c, s, t, d);
    var s2 := PopTurns(c, s1, t, d);
    PopFacts(s.g, m);
    n, s' := TestTurns(c, s.g, s1, t, s2, d);
    s' := HitTurn(c, s.g, s1, t, n, s', e.id, d);
    s' := SignalDelivers(c, s.g, s1, t, n + 1, s', e.id, false);
    n := n + 5;
  }

  lemma PopFacts(g: Data, m: nat)
    requires Deque(g, m) != []
    ensures var g' := PopFront(g, m); SameSoFar(g, g') && g'.got == g.got && forall p: nat :: Load(g', p) == Load(g, p)
  {
  }

  // ---------------------------------------------------------------- do_progress, put part

  /** A thread that begins do_progress and wins the put slot. */
  lemma BeginPut(c: Config, s: State, t: nat, d: nat) returns (s': State)
    requires Reachable(c, s) && t < |c.threads| && Fr(s, t).at == Idle && d < |c.devs| && Dev(c, d).rank == RankOf(c, t)
    requires PutLock(d) !in s.locks
    ensures Step(c, s, Thread(t, DoProgress(d, true))) == Some(s') && On(c, s', t, 0, s')
    ensures s'.g == s.g && s'.locks == s.locks[PutLock(d) := t] && Fr(s', t) == IDLE.(at := PutIn, d := d)
  {
    hide Reachable, Step;
    s' := Advance(c, s, t, DoProgress(d, true));
  }

  predicate StreamFree(c: Config, s: State, d: nat) { c.useStream ==> StreamLock(d) !in s.locks }

  /** The test takes the completed entry out of the slot. */
  lemma TakeTurns(c: Config, s: State, t: nat, d: nat) returns (s': State)
    requires On(c, s, t, 0, s) && Fr(s, t) == IDLE.(at := PutIn, d := d) && StreamFree(c, s, d)
    requires Slot(s.g, d).active && Slot(s.g, d).id in s.g.got
    ensures On(c, s, t, 2, s') && SameSoFar(s.g, s'.g) && StreamFree(c, s', d)
    ensures var f := Fr(s', t); f.at == PutBack && f.hit && f.d == d && f.e == Slot(s.g, d).(active := false)
  {
    hide On, Slot, SetSlot, Finish;
    s' := Turn(c, s, t, 0, s);
    s' := Turn(c, s, t, 1, s');
    TakeQuiet(s.g, d, Slot(s.g, d).(active := false));
  }

  lemma TakeQuiet(g: Data, d: nat, e: Entry)
    ensures SameSoFar(g, SetSlot(Finish(g, e.id), d, e))
  {
  }

  /** The thread is reposting, with the completed operation `id` in hand. */
  ghost predicate Reposts(c: Config, g: Data, s: State, t: nat, a: Loc, id: nat, d: nat) {
    var f := Fr(s, t);
    && f.at == a && f.hit && f.e.id == id && f.d == d && id < |s.g.ops| && f.e.comp == s.g.ops[id].comp
    && s.g.queues == g.queues && s.g.done == g.done && s.g.ctr == g.ctr && StreamFree(c, s, d)
  }

  lemma CopyTurn(c: Config, g: Data, s0: State, t: nat, s: State, d: nat) returns (s': State)
    requires On(c, s0, t, 2, s) && SameSoFar(g, s.g) && StreamFree(c, s, d) && EntryOk(s.g, Fr(s, t).e)
    requires var f := Fr(s, t); f.at == PutBack && f.hit && f.d == d
    ensures On(c, s0, t, 3, s') && Reposts(c, g, s', t, Repost, Fr(s, t).e.id, d)
  {
    hide On, WithStatus, Rbuf, Load, SlotOp;
    s' := Turn(c, s0, t, 2, s);
  }

  lemma RepostTurns(c: Config, g: Data, s0: State, t: nat, s: State, id: nat, d: nat) returns (s': State)
    requires On(c, s0, t, 3, s) && Reposts(c, g, s, t, Repost, id, d)
    ensures On(c, s0, t, 6, s') && Signals(c, g, s', t, Sub, id, true) && Fr(s', t).d == d
  {
    hide On;
    s' := Turn(c, s0, t, 3, s);
    s' := Turn(c, s0, t, 4, s');
    s' := Turn(c, s0, t, 5, s');
  }

  lemma SlotFacts(c: Config, s: State, d: nat)
    requires Inv(c, s) && d < |c.devs| && PutLock(d) !in s.locks
    ensures Slot(s.g, d).active && EntryOk(s.g, Slot(s.g, d))
  {
    assert SlotsLive(c, s) && Typed(c, s.g);
    hide Inv;
    assert SlotOk(c, s.g, d, Slot(s.g, d));
  }

  /** The last step of do_progress when the manager part does nothing. */
  lemma LeaveScan(c: Config, s0: State, t: nat, n: nat, s: State) returns (s': State)
    requires On(c, s0, t, n, s) && Fr(s, t).at == Scan
    ensures Step(c, s, Thread(t, Go(false))) == Some(s') && s'.g == s.g && Fr(s', t) == Fr(s, t).(at := Ret)
  {
    hide Reachable, Step, Goes;
    s' := Advance(c, s, t, Go(false));
  }

  /** A do_progress that finds the put lock and the device's stream lock free, and a put arrived in the slot,
      signals it and returns true even if the manager has nothing. */
  lemma PutDelivers(c: Config, s: State, t: nat, d: nat) returns (s1: State, s2: State, s': State)
    requires Reachable(c, s) && t < |c.threads| && Fr(s, t).at == Idle && d < |c.devs| && Dev(c, d).rank == RankOf(c, t)
    requires PutLock(d) !in s.locks && (c.useStream ==> StreamLock(d) !in s.locks) && Slot(s.g, d).id in s.g.got
    ensures Step(c, s, Thread(t, DoProgress(d, true))) == Some(s1) && Goes(c, s1, t, 10) == Some(s2)
    ensures Step(c, s2, Thread(t, Go(false))) == Some(s') && Fr(s', t).at == Ret && Fr(s', t).made
    ensures HandedOver(c, s.g, s'.g, RankOf(c, t), Slot(s.g, d).id)
  {
    ReachInv(c, s);
    hide Inv, Reachable, Step, HandedOver, Dev, Signals, Reposts, Slot;
    SlotFacts(c, s, d);
    var id := Slot(s.g, d).id;
    s1 := BeginPut(c, s, t, d);
    s2 := TakeTurns(c, s1, t, d);
    s2 := CopyTurn(c, s.g, s1, t, s2, d);
    s2 := RepostTurns(c, s.g, s1, t, s2, id, d);
    s2 := SignalDelivers(c, s.g, s1, t, 6, s2, id, true);
    s' := LeaveScan(c, s1, t, 10, s2);
  }

  // ---------------------------------------------------------------- send, recv, put

  /** What a caller must respect: its own device and completion object, the data's length, and for puts the
      device's put tag. */
  predicate FairPost(c: Config, r: nat, o: OpInfo) {
    && (o.record.op == SEND || o.record.op == RECV || o.record.op == PUT)
    && o.record.dev < |c.devs| && Dev(c, o.record.dev).rank == r && o.comp < |c.comps| && Comp(c, o.comp).rank == r
    && (o.record.op == PUT ==> o.record.tag == Dev(c, o.record.dev).maxTag)
    && (o.record.op == RECV ==> o.data == []) && (o.record.op != RECV ==> |o.data| == o.record.length)
  }

  /** With the throttle on, a send or put is refused exactly while the counter is above the limit; a refused post
      leaves nothing behind but the retry count. */
  lemma RefusedIff(c: Config, s: State, t: nat, o: OpInfo) returns (s': State)
    requires Reachable(c, s) && t < |c.threads| && Fr(s, t).at == Idle && FairPost(c, RankOf(c, t), o)
    ensures Step(c, s, Thread(t, DoPost(o))) == Some(s') && s'.locks == s.locks
    ensures var r := RankOf(c, t);
            if c.pendingMax > 0 && o.record.op != RECV && Pending(s.g, r) > c.pendingMax then
              && Fr(s', t) == IDLE && s'.g.(ctr := s.g.ctr) == s.g
              && Ctr(s'.g, r) == Ctr(s.g, r).(retry := Ctr(s.g, r).retry + 1)
              && forall k: nat :: k != r ==> Ctr(s'.g, k) == Ctr(s.g, k)
            else
              && Fr(s', t).o == o && s'.g.ctr == s.g.ctr
              && Fr(s', t).at == if c.pendingMax > 0 && o.record.op != RECV then Loaded else Ready
  {
    hide Reachable, Step, Birth, NewEntry, Dev, Comp;
    if Throttled(c, o.record.op) {
      if Pending(s.g, RankOf(c, t)) > c.pendingMax {
      }
    }
    s' := Advance(c, s, t, DoPost(o));
    BirthCtr(s.g, o);
  }

  lemma BirthCtr(g: Data, o: OpInfo)
    ensures Birth(g, o).ctr == g.ctr
  {
  }

  /** The thread is at location `a` of its post, with operation number `id`, which is new. */
  ghost predicate Posts(c: Config, s0: State, s: State, t: nat, a: Loc, o: OpInfo) {
    var f, id := Fr(s, t), |s0.g.ops|;
    && f.at == a && f.o == o && f.e.id == id && f.e.dev == o.record.dev && f.e.comp == o.comp
    && s.g.ops == s0.g.ops + [o] && s.g.deques == s0.g.deques && s.g.ctr == s0.g.ctr && s.locks == s0.locks
  }

  lemma AcceptTurn(c: Config, s: State, t: nat, s1: State, o: OpInfo) returns (n: nat, s': State)
    requires On(c, s1, t, 0, s1) && s1.locks == s.locks
    requires Fr(s1, t) == IDLE.(at := Loaded, o := o) && s1.g == s.g
    ensures n == 1 && On(c, s1, t, n, s') && Posts(c, s, s', t, Ready, o)
  {
    hide On, Pending;
    s' := Turn(c, s1, t, 0, s1);
    n := 1;
  }

  /** What isend or irecv leaves. */
  predicate Issued(g: Data, id: nat, k: Op) { if k == RECV then id in g.reqs else id in g.wire }

  lemma IssueTurns(c: Config, s0: State, t: nat, s1: State, n: nat, s: State, o: OpInfo) returns (s': State)
    requires On(c, s1, t, n, s) && Posts(c, s0, s, t, Ready, o) && StreamFree(c, s, o.record.dev)
    requires FairPost(c, RankOf(c, t), o)
    ensures On(c, s1, t, n + 2, s') && Posts(c, s0, s', t, Adding, o) && Issued(s'.g, |s0.g.ops|, o.record.op)
    ensures Fr(s', t).e.active <==> o.record.op == RECV
  {
    hide On, Load, Dev, Comp, Reachable;
    s' := Turn(c, s1, t, n, s);
    OnIs(c, s1, t, n + 1, s');
    IssueKind(c, s', t);
    s' := Turn(c, s1, t, n + 1, s');
    assert s'.locks == s0.locks;
  }

  lemma IssueKind(c: Config, s: State, t: nat)
    requires Reachable(c, s) && Fr(s, t).at == Posting
    ensures Fr(s, t).e.id < |s.g.ops| && Load(s.g, Fr(s, t).e.ptr) == s.g.ops[Fr(s, t).e.id].record
  {
    hide Reachable, Inv;
    ReachInv(c, s);
    HandGood(c, s, t, false, Of(Fr(s, t).e, Unposted));
  }

  lemma AddTurns(c: Config, s0: State, t: nat, s1: State, n: nat, s: State, o: OpInfo) returns (s': State)
    requires On(c, s1, t, n, s) && Posts(c, s0, s, t, Adding, o) && MgrLock(Dev(c, o.record.dev).mgr) !in s.locks
    requires Issued(s.g, |s0.g.ops|, o.record.op)
    ensures On(c, s1, t, n + 2, s') && Fr(s', t).at == Started && Fr(s', t).o == o && s'.g.ops == s0.g.ops + [o]
    ensures s'.g.ctr == s0.g.ctr && s'.locks == s0.locks && Issued(s'.g, |s0.g.ops|, o.record.op)
    ensures var m := Dev(c, o.record.dev).mgr; Deque(s'.g, m) == Deque(s0.g, m) + [Fr(s, t).e]
  {
    hide On, Dev;
    s' := Turn(c, s1, t, n, s);
    s' := Turn(c, s1, t, n + 1, s');
    assert s'.locks == s0.locks;
  }

  /** The start of one operation of kind k was counted, and nothing else. */
  predicate StartCounted(x: Counters, y: Counters, k: Op) {
    y == x.(sendStart := x.sendStart + One(k == SEND), putStart := x.putStart + One(k == PUT), recvStart := x.recvStart + One(k == RECV))
  }

  lemma StartTurn(c: Config, t: nat, s1: State, n: nat, s: State) returns (s': State)
    requires On(c, s1, t, n, s) && Fr(s, t).at == Started && Fr(s, t).o.record.op != PUT_SIGNAL
    ensures On(c, s1, t, n + 1, s') && Fr(s', t) == IDLE && s'.locks == s.locks && s'.g.(ctr := s.g.ctr) == s.g
    ensures var r := RankOf(c, t); StartCounted(Ctr(s.g, r), Ctr(s'.g, r), Fr(s, t).o.record.op)
  {
    hide On;
    s' := Turn(c, s1, t, n, s);
  }

  lemma BeginPost(c: Config, s: State, t: nat, o: OpInfo) returns (s1: State, n: nat, s': State)
    requires Reachable(c, s) && t < |c.threads| && Fr(s, t).at == Idle && FairPost(c, RankOf(c, t), o)
    requires c.pendingMax > 0 && o.record.op != RECV ==> Pending(s.g, RankOf(c, t)) <= c.pendingMax
    ensures Step(c, s, Thread(t, DoPost(o))) == Some(s1) && n <= 1 && On(c, s1, t, n, s') && Posts(c, s, s', t, Ready, o)
  {
    hide Reachable, Step, Dev, Comp, Pending;
    if Throttled(c, o.record.op) {
    }
    s1 := Advance(c, s, t, DoPost(o));
    assert On(c, s1, t, 0, s1);
    if Throttled(c, o.record.op) {
      hide On;
      n, s' := AcceptTurn(c, s, t, s1, o);
    } else {
      n, s' := 0, s1;
    }
  }

  /** A post that is not refused and finds the stream lock and the manager's lock free returns true with its operation
      logged, issued to MPI, last in the manager's deque, and counted as started. */
  lemma PostWorks(c: Config, s: State, t: nat, o: OpInfo) returns (s1: State, n: nat, s': State)
    requires Reachable(c, s) && t < |c.threads| && Fr(s, t).at == Idle && FairPost(c, RankOf(c, t), o)
    requires c.pendingMax > 0 && o.record.op != RECV ==> Pending(s.g, RankOf(c, t)) <= c.pendingMax
    requires MgrLock(Dev(c, o.record.dev).mgr) !in s.locks && (c.useStream ==> StreamLock(o.record.dev) !in s.locks)
    ensures Step(c, s, Thread(t, DoPost(o))) == Some(s1) && n <= 6 && Goes(c, s1, t, n) == Some(s') && Fr(s', t) == IDLE
    ensures s'.g.ops == s.g.ops + [o] && s'.locks == s.locks
    ensures if o.record.op == RECV then |s.g.ops| in s'.g.reqs else |s.g.ops| in s'.g.wire
    ensures var m := Dev(c, o.record.dev).mgr;
            && |Deque(s'.g, m)| == |Deque(s.g, m)| + 1 && Deque(s.g, m) <= Deque(s'.g, m)
            && var e := Deque(s'.g, m)[|Deque(s.g, m)|]; e.id == |s.g.ops| && e.dev == o.record.dev && e.comp == o.comp
    ensures var r := RankOf(c, t); StartCounted(Ctr(s.g, r), Ctr(s'.g, r), o.record.op)
  {
    hide Reachable, Step, Dev, Comp, Pending, Deque, Goes, FairPost;
    NotASignal(c, RankOf(c, t), o);
    var s3;
    s1, n, s3 := PostToStart(c, s, t, o);
    hide StartCounted;
    s' := StartTurn(c, t, s1, n, s3);
    n := n + 1;
    DequeSame(s'.g, s3.g, Dev(c, o.record.dev).mgr);
    CtrSame(s3.g, s.g, RankOf(c, t));
  }

  predicate LastIn(es: seq<Entry>, es': seq<Entry>, id: nat, o: OpInfo) {
    && |es'| == |es| + 1 && es <= es'
    && var e := es'[|es|]; e.id == id && e.dev == o.record.dev && e.comp == o.comp
  }

  lemma PostToStart(c: Config, s: State, t: nat, o: OpInfo) returns (s1: State, n: nat, s': State)
    requires Reachable(c, s) && t < |c.threads| && Fr(s, t).at == Idle && FairPost(c, RankOf(c, t), o)
    requires c.pendingMax > 0 && o.record.op != RECV ==> Pending(s.g, RankOf(c, t)) <= c.pendingMax
    requires MgrLock(Dev(c, o.record.dev).mgr) !in s.locks && (c.useStream ==> StreamLock(o.record.dev) !in s.locks)
    ensures Step(c, s, Thread(t, DoPost(o))) == Some(s1) && n <= 5 && On(c, s1, t, n, s') && Fr(s', t).at == Started
    ensures Fr(s', t).o == o && s'.g.ops == s.g.ops + [o] && s'.locks == s.locks && s'.g.ctr == s.g.ctr
    ensures Issued(s'.g, |s.g.ops|, o.record.op)
    ensures var m := Dev(c, o.record.dev).mgr; LastIn(Deque(s.g, m), Deque(s'.g, m), |s.g.ops|, o)
  {
    hide Reachable, Step, Dev, Comp, Pending, Deque, On, FairPost, Issued, Goes, Posts, Fr, LastIn;
    s1, n, s' := BeginPost(c, s, t, o);
    PostsFacts(c, s, s', t, Ready, o);
    var s2 := IssueTurns(c, s, t, s1, n, s', o);
    PostsFacts(c, s, s2, t, Adding, o);
    s' := AddTurns(c, s, t, s1, n + 2, s2, o);
    var m := Dev(c, o.record.dev).mgr;
    Appended(Deque(s.g, m), Fr(s2, t).e, |s.g.ops|, o);
    n := n + 4;
  }

  lemma PostsFacts(c: Config, s0: State, s: State, t: nat, a: Loc, o: OpInfo)
    requires Posts(c, s0, s, t, a, o)
    ensures s.locks == s0.locks && Fr(s, t).e.id == |s0.g.ops| && Fr(s, t).e.dev == o.record.dev && Fr(s, t).e.comp == o.comp
  {
  }

  lemma Appended(es: seq<Entry>, e: Entry, id: nat, o: OpInfo)
    requires e.id == id && e.dev == o.record.dev && e.comp == o.comp
    ensures LastIn(es, es + [e], id, o)
  {
  }

  lemma NotASignal(c: Config, r: nat, o: OpInfo)
    requires FairPost(c, r, o)
    ensures o.record.op != PUT_SIGNAL
  {
  }

  lemma DequeSame(g: Data, g': Data, m: nat)
    requires g.deques == g'.deques
    ensures Deque(g, m) == Deque(g', m)
  {
  }

  lemma CtrSame(g: Data, g': Data, r: nat)
    requires g.ctr == g'.ctr
    ensures Ctr(g, r) == Ctr(g', r)
  {
  }

  // ---------------------------------------------------------------- poll_cq

  /** A poll of a queue of its own process that is not empty takes the oldest completion out, hands its record
      over, deletes it and counts it. */
  lemma PollWorks(c: Config, s: State, t: nat, q: nat) returns (s1: State, s': State)
    requires Reachable(c, s) && t < |c.threads| && Fr(s, t).at == Idle && q < |c.comps|
    requires Comp(c, q).isQueue && Comp(c, q).rank == RankOf(c, t) && Queue(s.g, q) != []
    ensures Step(c, s, Thread(t, DoPoll(q))) == Some(s1) && Step(c, s1, Thread(t, Go(true))) == Some(s')
    ensures var r, x := RankOf(c, t), Queue(s.g, q)[0];
            && Fr(s', t) == IDLE && Queue(s'.g, q) == Queue(s.g, q)[1..]
            && x.ptr in s.g.heap && Done(s'.g, r) == Done(s.g, r) + [Delivery(x.id, s.g.heap[x.ptr])]
            && x.ptr !in s'.g.heap && Ctr(s'.g, r) == Ctr(s.g, r).(consume := Ctr(s.g, r).consume + 1)
  {
    hide Reachable, Step, PollCall, Queue, Done, Ctr;
    PollLive(c, s, q);
    PollIs(c, s.g, RankOf(c, t), q);
    s1 := Advance(c, s, t, DoPoll(q));
    ConsumeIs(s1.g, RankOf(c, t), q);
    s' := Advance(c, s1, t, Go(true));
  }

  lemma PollIs(c: Config, g: Data, r: nat, q: nat)
    requires q < |c.comps| && Comp(c, q).isQueue && Comp(c, q).rank == r && Queue(g, q) != [] && Queue(g, q)[0].ptr in g.heap
    ensures var m, x := PollCall(c, g, r, q), Queue(g, q)[0];
            && m.Move? && m.lock == NoLock && m.f == IDLE.(at := Consumed) && Queue(m.g, q) == Queue(g, q)[1..]
            && Done(m.g, r) == Done(g, r) + [Delivery(x.id, g.heap[x.ptr])] && x.ptr !in m.g.heap && Ctr(m.g, r) == Ctr(g, r)
  {
  }

  lemma ConsumeIs(g: Data, r: nat, q: nat)
    ensures var g' := ConsumedMove(g, r).g;
            && Queue(g', q) == Queue(g, q) && Done(g', r) == Done(g, r) && g'.heap == g.heap
            && Ctr(g', r) == Ctr(g, r).(consume := Ctr(g, r).consume + 1)
  {
  }

  lemma PollLive(c: Config, s: State, q: nat)
    requires Reachable(c, s) && Queue(s.g, q) != []
    ensures Queue(s.g, q)[0].ptr in s.g.heap
  {
    ReachInv(c, s);
    hide Inv, Reachable;
    var x := Queue(s.g, q)[0];
    BoxGood(c, s, Cel(q, 0), Item(x.id, x.ptr, false, Counted));
  }
}
