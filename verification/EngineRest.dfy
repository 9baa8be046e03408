/**
 Deadlock freedom: whatever the threads are doing, letting them run brings every
 call to its end.
 */
module EngineRest {
  import opened Wrappers
  import opened EngineModel
  import opened EngineInvariant
  import opened EngineInduction
  import opened EngineReach

  // ---------------------------------------------------------------- only real threads run

  ghost predicate OthersIdle(c: Config, s: State) { forall t: nat :: t >= |c.threads| ==> Fr(s, t).at == Idle }

  lemma {:induction false} RunOthers(c: Config, ls: seq<Label>)
    requires Run(c, ls).Some?
    ensures OthersIdle(c, Run(c, ls).value)
  {
    hide Step;
    if ls != [] {
      RunOthers(c, ls[..|ls| - 1]);
      var p, s', l := Run(c, ls[..|ls| - 1]).value, Run(c, ls).value, ls[|ls| - 1];
      assert Step(c, p, l) == Some(s');
      match l
      case Thread(t, ch) => var _ := ThreadStepIs(c, p, t, ch, s');
      case Deliver(k, q) => DeliverIs(c, p, k, q, s');
    }
  }

  lemma ReachOthers(c: Config, s: State)
    requires Reachable(c, s)
    ensures OthersIdle(c, s)
  {
    hide OthersIdle;
    var ls :| Run(c, ls) == Some(s);
    RunOthers(c, ls);
  }

  // ---------------------------------------------------------------- every call is finite

  /** How many steps a thread at a location can still take before it is idle. */
  function Left(a: Loc): nat {
    match a
    case Idle => 0
    case Loaded => 6
    case Ready => 5
    case Posting => 4
    case Adding => 3
    case Pushing => 2
    case Started => 1
    case Consumed => 1
    case PutIn => 20
    case PutTest => 19
    case PutBack => 18
    case Repost => 17
    case RepostIn => 16
    case RepostOut => 15
    case Scan => 10
    case ScanIn => 9
    case Popped => 8
    case Testing => 7
    case Tested => 6
    case Sub => 5
    case Count => 4
    case Push => 3
    case Free => 2
    case Ret => 1
  }

  /** The same, for a completion signalled by the put part, which the manager part follows. */
  function Remaining(f: Frame): nat {
    if f.fromPut && (f.at.Sub? || f.at.Count? || f.at.Push? || f.at.Free?) then Left(f.at) + 9 else Left(f.at)
  }

  lemma PutIsFinite(c: Config, g: Data, r: nat, f: Frame, hit: bool)
    requires HoldsPut(f.at) && GoMove(c, g, r, f, hit).Move?
    ensures Remaining(GoMove(c, g, r, f, hit).f) < Remaining(f) <= 20
  {
    hide Load, Deque, Slot, Ctr, StartOf, EndOf, CopyOut, Birth, Comp, Dev, Finish, PushBack, PopFront, SetSlot;
    hide PushCell, Give, SetRecord, WithStatus, Delete, AddPending, MarkDown, SetCtr, Issue, SlotOp, Throttled, IsSendKind, NewEntry;
    match f.at
    case PutBack =>
      if f.hit {
      }
    case _ =>
  }

  lemma ScanIsFinite(c: Config, g: Data, r: nat, f: Frame, hit: bool)
    requires (HoldsMgr(f.at) || f.at.Scan?) && GoMove(c, g, r, f, hit).Move?
    ensures Remaining(GoMove(c, g, r, f, hit).f) < Remaining(f) <= 20
  {
    hide Load, Deque, Slot, Ctr, StartOf, EndOf, CopyOut, Birth, Comp, Dev, Finish, PushBack, PopFront, SetSlot;
    hide PushCell, Give, SetRecord, WithStatus, Delete, AddPending, MarkDown, SetCtr, Issue, SlotOp, Throttled, IsSendKind, NewEntry;
    match f.at
    case Tested =>
      if f.hit {
      }
    case _ =>
  }

  lemma SignalIsFinite(c: Config, g: Data, r: nat, f: Frame, hit: bool)
    requires (f.at.Sub? || f.at.Count? || f.at.Push? || f.at.Free? || f.at.Ret?) && GoMove(c, g, r, f, hit).Move?
    ensures Remaining(GoMove(c, g, r, f, hit).f) < Remaining(f) <= 20
  {
    hide Load, Deque, Slot, Ctr, StartOf, EndOf, CopyOut, Birth, Comp, Dev, Finish, PushBack, PopFront, SetSlot;
    hide PushCell, Give, SetRecord, WithStatus, Delete, AddPending, MarkDown, SetCtr, Issue, SlotOp, Throttled, IsSendKind, NewEntry;
    match f.at
    case Free =>
      if f.fromPut {
      }
    case _ =>
  }

  lemma PostIsFinite(c: Config, g: Data, r: nat, f: Frame, hit: bool)
    requires (f.at.Loaded? || f.at.Ready? || f.at.Posting? || f.at.Adding? || f.at.Pushing? || f.at.Started? || f.at.Consumed?) && GoMove(c, g, r, f, hit).Move?
    ensures Remaining(GoMove(c, g, r, f, hit).f) < Remaining(f) <= 20
  {
    hide Load, Deque, Slot, Ctr, StartOf, EndOf, CopyOut, Birth, Comp, Dev, Finish, PushBack, PopFront, SetSlot;
    hide PushCell, Give, SetRecord, WithStatus, Delete, AddPending, MarkDown, SetCtr, Issue, SlotOp, Throttled, IsSendKind, NewEntry;
  }

  /** No step inside a call goes back: a call takes at most twenty steps. */
  lemma CallIsFinite(c: Config, g: Data, r: nat, f: Frame, hit: bool)
    requires GoMove(c, g, r, f, hit).Move?
    ensures Remaining(GoMove(c, g, r, f, hit).f) < Remaining(f) <= 20
  {
    if f.at.Idle? {
    } else {
      hide GoMove, Remaining;
      if HoldsPut(f.at) {
        PutIsFinite(c, g, r, f, hit);
      } else if HoldsMgr(f.at) || f.at.Scan? {
        ScanIsFinite(c, g, r, f, hit);
      } else if f.at.Sub? || f.at.Count? || f.at.Push? || f.at.Free? || f.at.Ret? {
        SignalIsFinite(c, g, r, f, hit);
      } else {
        PostIsFinite(c, g, r, f, hit);
      }
    }
  }

  // ---------------------------------------------------------------- some thread can always go on

  /** What a thread waits for, if it takes no hint and no test succeeds. */
  function Wanted(c: Config, f: Frame): LockAction {
    match f.at
    case Ready => EnterStream(c, f.e.dev)
    case Adding => Take(MgrLock(Dev(c, f.e.dev).mgr))
    case PutIn => EnterStream(c, f.d)
    case Repost => EnterStream(c, f.d)
    case Popped => EnterStream(c, f.e.dev)
    case _ => NoLock
  }

  lemma GoEnabled(c: Config, s: State, t: nat)
    requires t < |c.threads| && Fr(s, t).at != Idle
    requires var l := Wanted(c, Fr(s, t)); l.Take? ==> l.l !in s.locks
    ensures Step(c, s, Thread(t, Go(false))).Some?
  {
    hide Load, Deque, Slot, Ctr, StartOf, EndOf, CopyOut, Birth, Comp, Dev, Finish, PushBack, PopFront, SetSlot;
    hide PushCell, Give, SetRecord, WithStatus, Delete, AddPending, MarkDown, SetCtr, Issue;
  }

  lemma OwnerOf(c: Config, s: State, l: Lock) returns (t: nat)
    requires LockInv(c, s) && OthersIdle(c, s) && l in s.locks
    ensures t < |c.threads| && Fr(s, t).at != Idle && Holds(c, Fr(s, t), l)
  {
    t := s.locks[l];
    assert Holds(c, Fr(s, t), l);
  }

  /** Follow the chain of waiting: a manager lock's owner may wait for a stream lock, and a
      stream lock's owner waits for nothing. */
  lemma SomeoneGoes(c: Config, s: State, t: nat) returns (u: nat)
    requires LockInv(c, s) && OthersIdle(c, s) && t < |c.threads| && Fr(s, t).at != Idle
    ensures u < |c.threads| && Fr(s, u).at != Idle && Step(c, s, Thread(u, Go(false))).Some?
  {
    hide Step, LockInv, OthersIdle;
    u := t;
    var l := Wanted(c, Fr(s, u));
    if l.Take? && l.l in s.locks {
      u := OwnerOf(c, s, l.l);
      var k := Wanted(c, Fr(s, u));
      if k.Take? && k.l in s.locks {
        u := OwnerOf(c, s, k.l);
      }
    }
    GoEnabled(c, s, u);
  }

  // ---------------------------------------------------------------- so every call ends

  function Work(s: State, n: nat): nat {
    if n == 0 then 0 else Work(s, n - 1) + Remaining(Fr(s, n - 1))
  }

  lemma {:induction false} WorkDrops(s: State, s': State, t: nat, n: nat)
    requires Remaining(Fr(s', t)) < Remaining(Fr(s, t)) && forall u: nat :: u != t ==> Fr(s', u) == Fr(s, u)
    ensures Work(s', n) <= Work(s, n) && (t < n ==> Work(s', n) < Work(s, n))
  {
    hide Remaining, Fr;
    if n > 0 {
      WorkDrops(s, s', t, n - 1);
    }
  }

  lemma GoStep(c: Config, s: State, t: nat, hit: bool, s': State)
    requires Step(c, s, Thread(t, Go(hit))) == Some(s')
    ensures t < |c.threads| && Remaining(Fr(s', t)) < Remaining(Fr(s, t)) && forall u: nat :: u != t ==> Fr(s', u) == Fr(s, u)
  {
    hide GoMove, Remaining;
    var m := ThreadStepIs(c, s, t, Go(hit), s');
    CallIsFinite(c, s.g, RankOf(c, t), Fr(s, t), hit);
  }

  /** One step of a call in progress: which thread takes it, and the outcome of its hint, try-lock or
      test. */
  datatype Turn = Turn(t: nat, hit: bool)

  /** The state after the calls in progress went on in this way, with no new call and no delivery. */
  ghost function Continue(c: Config, s: State, gs: seq<Turn>): Option<State>
    decreases |gs|
  {
    if gs == [] then Some(s)
    else
      var n := Step(c, s, Thread(gs[0].t, Go(gs[0].hit)));
      if n.Some? then Continue(c, n.value, gs[1..]) else None
  }

  ghost predicate AllIdle(s: State) { forall t: nat :: Fr(s, t).at == Idle }

  ghost predicate NoneGoes(c: Config, s: State) { forall t: nat, hit :: Step(c, s, Thread(t, Go(hit))).None? }

  lemma {:induction false} WorkBounded(s: State, n: nat)
    ensures Work(s, n) <= 20 * n
  {
    if n > 0 {
      WorkBounded(s, n - 1);
    }
  }

  /** A state in which no call can go on has no call in progress. */
  lemma StuckIsIdle(c: Config, s: State)
    requires Reachable(c, s) && NoneGoes(c, s)
    ensures AllIdle(s)
  {
    hide Inv, Step, Reachable, LockInv;
    ReachInv(c, s);
    ReachOthers(c, s);
    InvLocks(c, s);
    forall t: nat ensures Fr(s, t).at == Idle {
      if t < |c.threads| && Fr(s, t).at != Idle {
        var u := SomeoneGoes(c, s, t);
      }
    }
  }

  lemma InvLocks(c: Config, s: State)
    requires Inv(c, s)
    ensures LockInv(c, s)
  {
    hide LockInv, DataInv, Typed, FramesOk, SlotsLive, ItemsOk, Unique, Total;
  }

  /** However the calls in progress go on, whatever hints, try-locks and tests return: they take at most
      twenty steps per thread in all, and when none can take another, all have returned. */
  lemma {:induction false} CallsFinish(c: Config, s: State, gs: seq<Turn>)
    requires Reachable(c, s) && Continue(c, s, gs).Some?
    ensures |gs| + Work(Continue(c, s, gs).value, |c.threads|) <= Work(s, |c.threads|) <= 20 * |c.threads|
    ensures Reachable(c, Continue(c, s, gs).value)
    ensures NoneGoes(c, Continue(c, s, gs).value) ==> AllIdle(Continue(c, s, gs).value)
    decreases |gs|
  {
    hide Step, Reachable, NoneGoes, Work;
    WorkBounded(s, |c.threads|);
    if gs == [] {
      if NoneGoes(c, s) {
        StuckIsIdle(c, s);
      }
    } else {
      var n := Step(c, s, Thread(gs[0].t, Go(gs[0].hit))).value;
      GoStep(c, s, gs[0].t, gs[0].hit, n);
      WorkDrops(s, n, gs[0].t, |c.threads|);
      ReachStep(c, s, Thread(gs[0].t, Go(gs[0].hit)), n);
      CallsFinish(c, n, gs[1..]);
    }
  }
}
