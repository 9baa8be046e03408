/**
 Messages: every send and put past its isend is under way or was received once, every put
 that fits can reach the put slot it is addressed to, and only queues hold completions.
 */
module EngineWire {
  import opened Basics
  import opened Wrappers
  import opened EngineModel
  import opened EngineInvariant
  import opened EngineRows
  import opened EngineStep
  import opened EngineInduction
  import opened EngineReach

  // ---------------------------------------------------------------- conservation of messages

  /** A thread that has the operation in hand and has not called isend or irecv for it. */
  predicate Launching(f: Frame, id: nat) { (f.at.Ready? || f.at.Posting?) && f.e.id == id }

  ghost predicate BeforeIsend(s: State, id: nat) { exists t: nat :: Launching(Fr(s, t), id) }

  ghost predicate ReceivedOnce(g: Data, id: nat) { exists q :: q in g.got && g.got[q] == id }

  ghost predicate OnItsWay(s: State, id: nat) { BeforeIsend(s, id) || id in s.g.wire || ReceivedOnce(s.g, id) }

  ghost predicate AllOnTheirWay(s: State) {
    forall id: nat :: id < |s.g.ops| && IsSendKind(s.g.ops[id].record.op) ==> OnItsWay(s, id)
  }

  /** What a move does to messages: none leaves the wire, a new operation of send kind is in the thread's hand,
      and one in hand stays there until it is on the wire. */
  ghost predicate Carries(g: Data, f: Frame, m: Move) {
    && m.Move? && g.wire <= m.g.wire && m.g.got == g.got
    && (m.g.ops == g.ops || (|m.g.ops| == |g.ops| + 1 && g.ops <= m.g.ops
                             && (IsSendKind(m.g.ops[|g.ops|].record.op) ==> Launching(m.f, |g.ops|))))
    && (f.at.Ready? ==> Launching(m.f, f.e.id))
    && (f.at.Posting? && IsSendKind(Load(g, f.e.ptr).op) ==> f.e.id in m.g.wire)
  }

  lemma NewCarries(c: Config, g: Data, r: nat, f: Frame, o: OpInfo)
    requires f.at == Idle && PostCall(c, g, r, o).Move?
    ensures Carries(g, f, PostCall(c, g, r, o))
  {
    hide ValidPost, Ctr, Pending, Throttled, Load, IsSendKind;
    if Throttled(c, o.record.op) {
      if Pending(g, r) > c.pendingMax {
      }
    }
  }

  lemma CallCarries(c: Config, g: Data, r: nat, f: Frame, ch: Choice)
    requires f.at == Idle && CallMove(c, g, r, ch).Move?
    ensures Carries(g, f, CallMove(c, g, r, ch))
  {
    hide PostCall, Queue, Done, Comp, Dev, Load, IsSendKind;
    match ch
    case DoPost(o) => NewCarries(c, g, r, f, o);
    case DoProgress(_, _) =>
    case DoPoll(_) =>
    case Go(_) =>
  }

  lemma LoadedCarries(g: Data, r: nat, f: Frame)
    requires f.at.Loaded?
    ensures Carries(g, f, LoadedMove(g, r, f))
  {
    hide Load, Pending, IsSendKind;
  }

  lemma IssueCarries(c: Config, g: Data, f: Frame, hit: bool)
    requires f.at.Posting?
    ensures Carries(g, f, PostingMove(c, g, f, hit))
  {
    hide Load;
    if IsSendKind(Load(g, f.e.ptr).op) {
    }
  }

  lemma PostCarries(c: Config, g: Data, r: nat, f: Frame, hit: bool)
    requires f.at.Loaded? || f.at.Ready? || f.at.Posting? || f.at.Adding? || f.at.Pushing? || f.at.Started? || f.at.Consumed?
    ensures Carries(g, f, GoMove(c, g, r, f, hit))
  {
    hide Load, Dev, Deque, Ctr, StartOf, Pending, LoadedMove, PostingMove, IsSendKind;
    match f.at
    case Loaded => LoadedCarries(g, r, f);
    case Posting => IssueCarries(c, g, f, hit);
    case _ =>
  }

  lemma PutBackCarries(c: Config, g: Data, f: Frame)
    requires f.at.PutBack?
    ensures Carries(g, f, PutBackMove(c, g, f))
  {
    hide Load, Rbuf, WithStatus;
    if f.hit {
    }
  }

  lemma PutTestCarries(c: Config, g: Data, f: Frame, hit: bool)
    requires f.at.PutTest? && PutTestMove(c, g, f, hit).Move?
    ensures Carries(g, f, PutTestMove(c, g, f, hit))
  {
    hide Load, Slot, IsSendKind;
    if hit {
    }
  }

  lemma RepostCarries(c: Config, g: Data, f: Frame)
    requires f.at.RepostIn? || f.at.RepostOut?
    ensures f.at.RepostIn? ==> Carries(g, f, RepostInMove(c, g, f))
    ensures f.at.RepostOut? ==> Carries(g, f, RepostOutMove(g, f))
  {
    hide Load, IsSendKind;
  }

  lemma PutCarries(c: Config, g: Data, r: nat, f: Frame, hit: bool)
    requires HoldsPut(f.at) && GoMove(c, g, r, f, hit).Move?
    ensures Carries(g, f, GoMove(c, g, r, f, hit))
  {
    hide Load, Slot, PutBackMove, PutTestMove, RepostInMove, RepostOutMove, IsSendKind;
    match f.at
    case PutBack => PutBackCarries(c, g, f);
    case PutTest => PutTestCarries(c, g, f, hit);
    case RepostIn => RepostCarries(c, g, f);
    case RepostOut => RepostCarries(c, g, f);
    case _ =>
  }

  lemma TestedCarries(c: Config, g: Data, f: Frame)
    requires f.at.Tested?
    ensures Carries(g, f, TestedMove(c, g, f))
  {
    hide Load, Dev, Deque, WithStatus, IsSendKind;
    if f.hit {
      if Load(g, f.e.ptr).op == RECV {
      }
    }
  }

  lemma TestingCarries(c: Config, g: Data, f: Frame, hit: bool)
    requires f.at.Testing? && TestingMove(c, g, f, hit).Move?
    ensures Carries(g, f, TestingMove(c, g, f, hit))
  {
    hide Load, IsSendKind;
    if hit {
    }
  }

  lemma ScanCarries(c: Config, g: Data, r: nat, f: Frame, hit: bool)
    requires (f.at.Scan? || HoldsMgr(f.at)) && GoMove(c, g, r, f, hit).Move?
    ensures Carries(g, f, GoMove(c, g, r, f, hit))
  {
    hide Load, Dev, Deque, IsSendKind, TestedMove, TestingMove;
    match f.at
    case ScanIn =>
      if Deque(g, Dev(c, f.d).mgr) == [] {
      }
    case Tested => TestedCarries(c, g, f);
    case Testing => TestingCarries(c, g, f, hit);
    case _ =>
  }

  lemma SignalCarries(c: Config, g: Data, r: nat, f: Frame, hit: bool)
    requires f.at.Sub? || f.at.Count? || f.at.Push? || f.at.Free? || f.at.Ret?
    ensures Carries(g, f, GoMove(c, g, r, f, hit))
  {
    hide Load, Ctr, EndOf, Pending, Queue, Done, Throttled, IsSendKind;
    match f.at
    case Sub =>
      if Throttled(c, Load(g, f.e.ptr).op) {
      }
    case Push =>
      if Comp(c, f.e.comp).isQueue {
      }
    case _ =>
  }

  lemma MoveCarries(c: Config, g: Data, r: nat, f: Frame, ch: Choice)
    requires MoveOf(c, g, r, f, ch).Move?
    ensures Carries(g, f, MoveOf(c, g, r, f, ch))
  {
    hide CallMove, GoMove, Carries;
    if f.at == Idle {
      CallCarries(c, g, r, f, ch);
    } else if HoldsPut(f.at) {
      PutCarries(c, g, r, f, ch.hit);
    } else if f.at.Scan? || HoldsMgr(f.at) {
      ScanCarries(c, g, r, f, ch.hit);
    } else if f.at.Sub? || f.at.Count? || f.at.Push? || f.at.Free? || f.at.Ret? {
      SignalCarries(c, g, r, f, ch.hit);
    } else {
      PostCarries(c, g, r, f, ch.hit);
    }
  }

  /** What a thread is about to issue is the operation it stands for. */
  lemma HandRecord(c: Config, s: State, t: nat)
    requires Inv(c, s) && Fr(s, t).at.Posting?
    ensures var f := Fr(s, t); f.e.id < |s.g.ops| && Load(s.g, f.e.ptr) == s.g.ops[f.e.id].record
  {
    HandGood(c, s, t, false, Of(Fr(s, t).e, Unposted));
    hide Inv;
  }

  lemma ThreadWay(c: Config, s: State, t: nat, m: Move, s': State, id: nat)
    requires Carries(s.g, Fr(s, t), m) && s'.g == m.g && Fr(s', t) == m.f && (forall u: nat :: u != t ==> Fr(s', u) == Fr(s, u))
    requires var f := Fr(s, t); f.at.Posting? ==> f.e.id < |s.g.ops| && Load(s.g, f.e.ptr) == s.g.ops[f.e.id].record
    requires AllOnTheirWay(s) && id < |s'.g.ops| && IsSendKind(s'.g.ops[id].record.op)
    ensures OnItsWay(s', id)
  {
    hide IsSendKind, Load, Fr;
    if id == |s.g.ops| {
      assert Launching(Fr(s', t), id);
    } else {
      assert OnItsWay(s, id);
      if BeforeIsend(s, id) {
        var u: nat :| Launching(Fr(s, u), id);
        assert u != t ==> Launching(Fr(s', u), id);
        assert u == t && Fr(s, t).at.Ready? ==> Launching(Fr(s', t), id);
      }
    }
  }

  lemma DeliverWay(c: Config, s: State, k: nat, q: nat, s': State)
    requires AllOnTheirWay(s) && Step(c, s, Deliver(k, q)) == Some(s')
    ensures AllOnTheirWay(s')
  {
    DeliverIs(c, s, k, q, s');
    DeliverSame(s.g, k, q);
    assert q !in s.g.got;
    hide Step, CanDeliver, DeliverData, Fr, IsSendKind;
    forall id: nat | id < |s'.g.ops| && IsSendKind(s'.g.ops[id].record.op) ensures OnItsWay(s', id) {
      assert OnItsWay(s, id);
      if BeforeIsend(s, id) {
        var u: nat :| Launching(Fr(s, u), id);
        assert Launching(Fr(s', u), id);
      } else if ReceivedOnce(s.g, id) {
        var p :| p in s.g.got && s.g.got[p] == id;
        assert s'.g.got[p] == id;
      } else if id == k {
        assert s'.g.got[q] == id;
      }
    }
  }

  lemma {:induction false} RunWay(c: Config, ls: seq<Label>)
    requires ValidConfig(c) && Run(c, ls).Some?
    ensures AllOnTheirWay(Run(c, ls).value)
  {
    hide Inv, ValidConfig, Step, MoveOf, Carries;
    if ls == [] {
      hide OnItsWay;
    } else {
      var p, l, s' := Run(c, ls[..|ls| - 1]).value, ls[|ls| - 1], Run(c, ls).value;
      RunWay(c, ls[..|ls| - 1]);
      RunInv(c, ls[..|ls| - 1]);
      match l {
        case Thread(t, ch) =>
          var m := ThreadStepIs(c, p, t, ch, s');
          MoveCarries(c, p.g, RankOf(c, t), Fr(p, t), ch);
          if Fr(p, t).at.Posting? {
            HandRecord(c, p, t);
          }
          forall id: nat | id < |s'.g.ops| && IsSendKind(s'.g.ops[id].record.op) ensures OnItsWay(s', id) {
            ThreadWay(c, p, t, m, s', id);
          }
        case Deliver(k, q) => DeliverWay(c, p, k, q, s');
      }
    }
  }

  /** Messages are conserved: at all times every send and put is in exactly one of three conditions.  Either one
      thread has it in hand before its isend, or it is on the wire, or exactly one receive got it; so whatever
      is in a deque, tested, queued or handed out was really sent. */
  lemma MessagesConserved(c: Config, s: State, id: nat)
    requires Reachable(c, s) && id < |s.g.ops| && IsSendKind(s.g.ops[id].record.op)
    ensures (exists t: nat :: (Fr(s, t).at.Ready? || Fr(s, t).at.Posting?) && Fr(s, t).e.id == id)
            || id in s.g.wire || exists q :: q in s.g.got && s.g.got[q] == id
    ensures id in s.g.wire ==> forall q :: q in s.g.got ==> s.g.got[q] != id
    ensures forall p, q :: p in s.g.got && q in s.g.got && s.g.got[p] == id && s.g.got[q] == id ==> p == q
    ensures forall t: nat :: (Fr(s, t).at.Ready? || Fr(s, t).at.Posting?) && Fr(s, t).e.id == id ==>
              id !in s.g.wire && forall q :: q in s.g.got ==> s.g.got[q] != id
  {
    ReachInv(c, s);
    assert GotInv(c, s.g);
    hide Inv;
    var ls :| Run(c, ls) == Some(s);
    RunWay(c, ls);
    hide Reachable, Matches;
    assert OnItsWay(s, id);
    if BeforeIsend(s, id) {
      var t: nat :| Launching(Fr(s, t), id);
    }
    forall t: nat | Launching(Fr(s, t), id) ensures Untouched(s.g, id) {
      HandGood(c, s, t, false, Of(Fr(s, t).e, Unposted));
    }
  }

  /** In particular an operation that has left the posting thread's hands was sent. */
  lemma SentWhenAdded(c: Config, s: State, p: Place, id: nat)
    requires Reachable(c, s) && id < |s.g.ops| && IsSendKind(s.g.ops[id].record.op)
    requires Look(s, Ids, p) == Some(id) && !p.Hand?
    ensures id in s.g.wire || exists q :: q in s.g.got && s.g.got[q] == id
  {
    MessagesConserved(c, s, id);
    ReachInv(c, s);
    assert Unique(s, Ids);
    hide Inv, Reachable;
    forall t: nat | Fr(s, t).at.Ready? || Fr(s, t).at.Posting? ensures Fr(s, t).e.id != id {
      assert Look(s, Ids, Hand(t, false)) == Some(Fr(s, t).e.id);
    }
  }

  // ---------------------------------------------------------------- what the put slot receives

  /** A message of any process on d's communicator, addressed to d's process and small enough for the
      device's buffer. */
  predicate AddressedTo(c: Config, g: Data, k: nat, d: nat) {
    && k in g.wire && Dev(c, Info(g, k).record.dev).comm == Dev(c, d).comm
    && Info(g, k).record.rank == Dev(c, d).rank && |Info(g, k).data| <= Dev(c, d).capacity
  }

  /** While the put lock is free and nothing has arrived in the slot, MPI may deliver to it exactly the
      messages on the tag above get_max_tag: every put from anywhere, and no message on a tag that
      users may use. */
  lemma PutSlotReceives(c: Config, s: State, d: nat, k: nat)
    requires Reachable(c, s) && d < |c.devs| && PutLock(d) !in s.locks && Slot(s.g, d).id !in s.g.got
    requires AddressedTo(c, s.g, k, d)
    ensures CanDeliver(c, s.g, k, Slot(s.g, d).id) <==> Info(s.g, k).record.tag == MaxUserTag(c, d) + 1
    ensures Info(s.g, k).record.op == PUT ==> CanDeliver(c, s.g, k, Slot(s.g, d).id)
  {
    ReachInv(c, s);
    assert SlotsLive(c, s) && Typed(c, s.g) && OpsInv(c, s.g) && GotInv(c, s.g) && ValidConfig(c);
    assert SlotOk(c, s.g, d, Slot(s.g, d));
    assert k < |s.g.ops| && OpOk(c, s.g.ops[k]);
    hide Inv, Reachable, Typed, OpsInv, GotInv;
    BoxGood(c, s, Slt(d), Of(Slot(s.g, d), Fresh));
  }

  /** A posted receive that no message reached may get any message that agrees with it in communicator,
      process, source and tag, and fits. */
  lemma RecvReceives(c: Config, s: State, m: nat, i: nat, k: nat)
    requires Reachable(c, s) && i < |Deque(s.g, m)| && k in s.g.wire
    requires var q := Info(s.g, Deque(s.g, m)[i].id).record;
             var x := Info(s.g, k);
             && q.op == RECV && Deque(s.g, m)[i].id !in s.g.got
             && Dev(c, x.record.dev).comm == Dev(c, q.dev).comm && x.record.rank == Dev(c, q.dev).rank
             && (q.rank == -1 || q.rank == Dev(c, x.record.dev).rank) && x.record.tag == q.tag && |x.data| <= q.length
    ensures CanDeliver(c, s.g, k, Deque(s.g, m)[i].id)
  {
    ReachInv(c, s);
    hide Inv, Reachable;
    BoxGood(c, s, Deq(m, i), Of(Deque(s.g, m)[i], Fresh));
  }
}
