/**
 Deliveries keep the invariant, the initial state satisfies it, and therefore so
 does every state of every run.
 */
module EngineReach {
  import opened Basics
  import opened Wrappers
  import opened EngineModel
  import opened EngineInvariant
  import opened EngineRows
  import opened EngineData
  import opened EnginePlaces
  import opened EngineStep
  import opened EngineInduction

  // ---------------------------------------------------------------- one posted put receive per device

  predicate FreshPut(s: State, p: Place, d: nat) {
    var y := ItemAt(s, p);
    && y.Some? && y.value.stage == Fresh
    && Info(s.g, y.value.id).record.op == PUT_SIGNAL && Info(s.g, y.value.id).record.dev == d
  }

  lemma FreshHand(c: Config, g: Data, r: nat, f: Frame, other: bool, d: nat)
    requires FrameOk(c, g, r, f) && HandItem(f, other).Some? && HandItem(f, other).value.stage == Fresh
    requires var o := Info(g, HandItem(f, other).value.id).record; o.op == PUT_SIGNAL && o.dev == d
    ensures f.d == d && HoldsPut(f.at) && Took(f) && !Slot(g, d).active
    ensures f.at == if other then RepostOut else PutBack
  {
  }

  lemma FreshBox(c: Config, g: Data, p: Place, d: nat)
    requires Typed(c, g) && !p.Hand? && DataItem(g, p).Some? && DataItem(g, p).value.stage == Fresh
    requires var o := Info(g, DataItem(g, p).value.id).record; o.op == PUT_SIGNAL && o.dev == d
    ensures p == Slt(d) && Slot(g, d).active
  {
    match p
    case Hand(_, _) =>
    case Deq(m, i) =>
    case Slt(e) =>
      if e < |c.devs| {
        assert SlotOk(c, g, e, Slot(g, e));
      }
    case Cel(_, _) =>
    case Don(_, _) =>
  }

  /** At most one posted or just completed put receive exists per device. */
  lemma OneFreshPut(c: Config, s: State, p: Place, q: Place, d: nat)
    requires Inv(c, s) && FreshPut(s, p, d) && FreshPut(s, q, d)
    ensures p == q
  {
    if p.Hand? {
      assert FrameOk(c, s.g, RankOf(c, p.t), Fr(s, p.t));
      FreshHand(c, s.g, RankOf(c, p.t), Fr(s, p.t), p.other, d);
    } else {
      FreshBox(c, s.g, p, d);
    }
    if q.Hand? {
      assert FrameOk(c, s.g, RankOf(c, q.t), Fr(s, q.t));
      FreshHand(c, s.g, RankOf(c, q.t), Fr(s, q.t), q.other, d);
    } else {
      FreshBox(c, s.g, q, d);
    }
    if p.Hand? && q.Hand? {
      hide FrameOk, Typed, DataInv, ItemsOk, Unique, Total, HandItem;
      Exclusive(c, s, p.t, q.t, PutLock(d));
    }
  }

  // ---------------------------------------------------------------- a delivery

  lemma DeliverIs(c: Config, s: State, k: nat, q: nat, s': State)
    requires Step(c, s, Deliver(k, q)) == Some(s')
    ensures CanDeliver(c, s.g, k, q) && s'.g == DeliverData(s.g, k, q)
    ensures s'.locks == s.locks && forall u: nat :: Fr(s', u) == Fr(s, u)
  {
    hide CanDeliver, DeliverData;
  }

  /** A delivery changes only the wire, the matching and one receive buffer. */
  lemma DeliverSame(g: Data, k: nat, q: nat)
    ensures var g' := DeliverData(g, k, q);
            && SameBoxes(g, g') && g'.ops == g.ops && g'.heap == g.heap && g'.reqs == g.reqs && g'.down == g.down
            && g'.nextPtr == g.nextPtr && g'.got == g.got[q := k] && g'.wire == g.wire - {k}
  {
    hide Rbuf, Info;
    if Info(g, q).record.op == PUT_SIGNAL {
      if |Info(g, k).data| <= |Rbuf(g, Info(g, q).record.dev)| {
      }
    }
  }

  lemma DeliverGot(c: Config, g: Data, g': Data, k: nat, q: nat)
    requires GotInv(c, g) && CanDeliver(c, g, k, q) && k < |g.ops| && q < |g.ops|
    requires g'.ops == g.ops && g'.got == g.got[q := k] && g'.wire == g.wire - {k}
    ensures GotInv(c, g')
  {
    hide Matches;
  }

  lemma DeliverRbuf(c: Config, g: Data, k: nat, q: nat)
    requires RbufInv(c, g)
    ensures RbufInv(c, DeliverData(g, k, q))
  {
    hide Info;
    if Info(g, q).record.op == PUT_SIGNAL {
      if |Info(g, k).data| <= |Rbuf(g, Info(g, q).record.dev)| {
      }
    }
  }

  lemma DeliverKeepsData(c: Config, g: Data, k: nat, q: nat)
    requires DataInv(c, g) && CanDeliver(c, g, k, q)
    ensures DataInv(c, DeliverData(g, k, q))
  {
    assert k < |g.ops| && q < |g.ops|;
    hide RbufInv, OpOk, DeliverData, GotInv, CanDeliver;
    DeliverSame(g, k, q);
    DeliverRbuf(c, g, k, q);
    DeliverGot(c, g, DeliverData(g, k, q), k, q);
  }

  /** The message lands in the receive buffer of the put receive that it matched. */
  lemma DeliverLands(c: Config, g: Data, k: nat, q: nat)
    requires DataInv(c, g) && CanDeliver(c, g, k, q) && Info(g, q).record.op == PUT_SIGNAL
    ensures RbufHas(DeliverData(g, k, q), Info(g, q).record.dev, q)
  {
    var m, d := Info(g, k).data, Info(g, q).record.dev;
    assert q < |g.ops|;
    assert OpOk(c, g.ops[q]);
    assert |m| <= Dev(c, d).capacity == |Rbuf(g, d)|;
    assert m <= m + Rbuf(g, d)[|m|..];
  }

  lemma DeliverElsewhere(g: Data, k: nat, q: nat, d: nat)
    requires d != Info(g, q).record.dev || Info(g, q).record.op != PUT_SIGNAL
    ensures Rbuf(DeliverData(g, k, q), d) == Rbuf(g, d)
  {
    if Info(g, q).record.op == PUT_SIGNAL {
      if |Info(g, k).data| <= |Rbuf(g, Info(g, q).record.dev)| {
      }
    }
  }

  lemma DeliverRecord(c: Config, g: Data, g': Data, k: nat, q: nat, id: nat)
    requires g'.ops == g.ops && g'.got == g.got[q := k] && q !in g.got && Received(g, id)
    ensures FinalRecord(c, g', id) == FinalRecord(c, g, id) && Received(g', id)
  {
  }

  /** An item stays good, unless it reads the buffer of another receive. */
  lemma DeliverItem(c: Config, g: Data, g': Data, k: nat, q: nat, y: Item)
    requires CanDeliver(c, g, k, q) && ItemOk(c, g, y)
    requires && g'.ops == g.ops && g'.heap == g.heap && g'.reqs == g.reqs && g'.down == g.down
             && g'.got == g.got[q := k] && g'.wire == g.wire - {k}
    requires y.stage == Fresh && g.ops[y.id].record.op == PUT_SIGNAL ==> RbufHas(g', g.ops[y.id].record.dev, y.id)
    ensures ItemOk(c, g', y)
  {
    if !y.stage.Husk? && Received(g, y.id) {
      DeliverRecord(c, g, g', k, q, y.id);
    }
    hide RbufHas, Matches, FinalRecord, Received;
    match y.stage
    case Unposted =>
    case Fresh =>
    case Final =>
    case Counted =>
    case Husk =>
    case Gone(_) =>
  }

  lemma DeliverFresh(c: Config, g: Data, k: nat, q: nat, y: Item)
    requires DataInv(c, g) && CanDeliver(c, g, k, q) && ItemOk(c, g, y)
    requires y.stage == Fresh && g.ops[y.id].record.op == PUT_SIGNAL
    requires y.id in g.got ==> g.ops[y.id].record.dev != Info(g, q).record.dev || Info(g, q).record.op != PUT_SIGNAL
    ensures RbufHas(DeliverData(g, k, q), g.ops[y.id].record.dev, y.id)
  {
    DeliverSame(g, k, q);
    if y.id == q {
      DeliverLands(c, g, k, q);
    } else if y.id in g.got {
      DeliverElsewhere(g, k, q, g.ops[y.id].record.dev);
      hide DeliverData, DataInv, CanDeliver;
    } else {
      hide DeliverData, DataInv, CanDeliver;
    }
  }

  lemma DeliverItems(c: Config, s: State, k: nat, q: nat, s': State)
    requires Inv(c, s) && CanDeliver(c, s.g, k, q) && s'.g == DeliverData(s.g, k, q)
    requires forall u: nat :: Fr(s', u) == Fr(s, u)
    requires forall p :: ItemAt(s', p) == ItemAt(s, p)
    ensures ItemsOk(c, s')
  {
    assert q < |s.g.ops| && Exists(s.g, Ids, q);
    assert Somewhere(s, Ids, q);
    var o :| Look(s, Ids, o) == Some(q);
    assert ItemOk(c, s.g, ItemAt(s, o).value);
    assert ItemAt(s, o).value.id == q && ItemAt(s, o).value.active;
    assert ItemAt(s, o).value.stage == Fresh;
    forall p | ItemAt(s', p).Some? ensures ItemOk(c, s'.g, ItemAt(s', p).value) {
      var y := ItemAt(s, p).value;
      assert ItemAt(s, p).Some? && ItemOk(c, s.g, y) && DataInv(c, s.g);
      if y.stage == Fresh && Info(s.g, y.id).record.op == PUT_SIGNAL && y.id in s.g.got
         && Info(s.g, y.id).record.dev == Info(s.g, q).record.dev && Info(s.g, q).record.op == PUT_SIGNAL {
        hide ItemOk, Inv, DeliverData, DataInv;
        OneFreshPut(c, s, p, o, Info(s.g, q).record.dev);
      }
      assert !y.stage.Husk? ==> y.id < |s.g.ops|;
      hide ItemOk, Inv, DeliverData, DataInv, CanDeliver;
      if y.stage == Fresh && s.g.ops[y.id].record.op == PUT_SIGNAL {
        DeliverFresh(c, s.g, k, q, y);
      }
      DeliverSame(s.g, k, q);
      DeliverItem(c, s.g, s'.g, k, q, y);
    }
  }

  lemma DeliverPlaces(s: State, k: nat, q: nat, s': State)
    requires s'.g == DeliverData(s.g, k, q) && forall u: nat :: Fr(s', u) == Fr(s, u)
    ensures forall p :: ItemAt(s', p) == ItemAt(s, p)
    ensures forall v, n: nat :: Exists(s'.g, v, n) <==> Exists(s.g, v, n)
  {
    DeliverSame(s.g, k, q);
    hide DeliverData, HandItem;
    forall p ensures ItemAt(s', p) == ItemAt(s, p) {
      match p
      case Hand(_, _) =>
      case Deq(_, _) =>
      case Slt(_) =>
      case Cel(_, _) =>
      case Don(_, _) =>
    }
  }

  lemma SamePlaces(s: State, s': State, v: View)
    requires forall p :: ItemAt(s', p) == ItemAt(s, p)
    requires forall n: nat :: Exists(s'.g, v, n) <==> Exists(s.g, v, n)
    requires Unique(s, v) && Total(s, v)
    ensures Unique(s', v) && Total(s', v)
  {
    hide ItemAt, Exists;
    assert forall p :: Look(s', v, p) == Look(s, v, p);
    forall n: nat ensures Exists(s'.g, v, n) <==> Somewhere(s', v, n) {
      assert Exists(s.g, v, n) <==> Somewhere(s, v, n);
      if Somewhere(s, v, n) {
        var p :| Look(s, v, p) == Some(n);
        assert Look(s', v, p) == Some(n);
      }
      if Somewhere(s', v, n) {
        var p :| Look(s', v, p) == Some(n);
        assert Look(s, v, p) == Some(n);
      }
    }
  }

  lemma DeliverFrames(c: Config, s: State, k: nat, q: nat, s': State)
    requires LockInv(c, s) && FramesOk(c, s) && SlotsLive(c, s) && Typed(c, s.g)
    requires s'.g == DeliverData(s.g, k, q) && s'.locks == s.locks && forall u: nat :: Fr(s', u) == Fr(s, u)
    ensures LockInv(c, s') && FramesOk(c, s') && SlotsLive(c, s') && Typed(c, s'.g)
  {
    DeliverSame(s.g, k, q);
    hide DeliverData, FrameOk, Holds;
    GrowTyped(c, s.g, s'.g);
    hide Typed;
    assert forall d: nat :: Slot(s'.g, d) == Slot(s.g, d);
    forall u: nat ensures FrameOk(c, s'.g, RankOf(c, u), Fr(s', u)) {
      FrameStable(c, s.g, s'.g, RankOf(c, u), Fr(s, u));
    }
  }

  lemma DeliverInv(c: Config, s: State, k: nat, q: nat, s': State)
    requires Inv(c, s) && Step(c, s, Deliver(k, q)) == Some(s')
    ensures Inv(c, s')
  {
    DeliverIs(c, s, k, q, s');
    hide Step, DeliverData;
    DeliverPlaces(s, k, q, s');
    hide CanDeliver, ItemAt, Exists;
    DeliverItems(c, s, k, q, s');
    DeliverFrames(c, s, k, q, s');
    DeliverKeepsData(c, s.g, k, q);
    hide ItemsOk, DataInv, Typed, FramesOk, SlotsLive, LockInv, Unique, Total;
    SamePlaces(s, s', Ids);
    SamePlaces(s, s', Ptrs);
  }

  // ---------------------------------------------------------------- the initial state, and every run

  lemma InitBoxes(c: Config, p: Place)
    ensures ItemAt(Init(c), p) ==
            if p.Slt? && p.d < |c.devs| then Some(Item(p.d, p.d, true, Fresh)) else None
  {
    match p
    case Hand(_, _) =>
    case Deq(_, _) =>
    case Slt(_) =>
    case Cel(_, _) =>
    case Don(_, _) =>
  }

  lemma InitPlaces(c: Config, v: View)
    ensures Unique(Init(c), v) && Total(Init(c), v)
  {
    var s := Init(c);
    forall p ensures Look(s, v, p) == if p.Slt? && p.d < |c.devs| then Some(p.d) else None {
      InitBoxes(c, p);
    }
    hide Look;
    forall n: nat ensures Exists(s.g, v, n) <==> Somewhere(s, v, n) {
      if n < |c.devs| {
        assert Look(s, v, Slt(n)) == Some(n);
      }
    }
  }

  lemma InitTyped(c: Config)
    ensures Typed(c, InitData(c))
  {
    hide SlotOp;
  }

  lemma InitShared(c: Config)
    requires ValidConfig(c)
    ensures DataInv(c, InitData(c)) && Typed(c, InitData(c))
  {
    hide Typed;
    InitTyped(c);
  }

  lemma InitItems(c: Config)
    ensures ItemsOk(c, Init(c))
  {
    var s := Init(c);
    forall p | ItemAt(s, p).Some? ensures ItemOk(c, s.g, ItemAt(s, p).value) {
      InitBoxes(c, p);
      hide ItemAt;
    }
  }

  lemma InitInv(c: Config)
    requires ValidConfig(c)
    ensures Inv(c, Init(c))
  {
    hide Unique, Total, ItemsOk, DataInv, Typed;
    InitShared(c);
    InitPlaces(c, Ids);
    InitPlaces(c, Ptrs);
    InitItems(c);
  }

  lemma {:induction false} RunInv(c: Config, ls: seq<Label>)
    requires ValidConfig(c) && Run(c, ls).Some?
    ensures Inv(c, Run(c, ls).value)
  {
    hide Inv, ValidConfig, Step;
    if ls == [] {
      InitInv(c);
    } else {
      var p, l := Run(c, ls[..|ls| - 1]), ls[|ls| - 1];
      RunInv(c, ls[..|ls| - 1]);
      match l
      case Thread(t, ch) => ThreadInv(c, p.value, t, ch, Run(c, ls).value);
      case Deliver(k, q) => DeliverInv(c, p.value, k, q, Run(c, ls).value);
    }
  }

  /** The states that some run leads to. */
  ghost predicate Reachable(c: Config, s: State) { ValidConfig(c) && exists ls :: Run(c, ls) == Some(s) }

  lemma ReachInv(c: Config, s: State)
    requires Reachable(c, s)
    ensures Inv(c, s)
  {
    var ls :| Run(c, ls) == Some(s);
    RunInv(c, ls);
  }

  lemma ReachInit(c: Config)
    requires ValidConfig(c)
    ensures Reachable(c, Init(c))
  {
    assert Run(c, []) == Some(Init(c));
  }

  lemma ReachStep(c: Config, s: State, l: Label, s': State)
    requires Reachable(c, s) && Step(c, s, l) == Some(s')
    ensures Reachable(c, s')
  {
    hide Step, ValidConfig;
    var ls :| Run(c, ls) == Some(s);
    var ms := ls + [l];
    assert ms[..|ms| - 1] == ls && ms[|ms| - 1] == l;
    assert Run(c, ms) == Some(s');
  }

  /** The next step of thread t, in a state where the lock it wants is free. */
  lemma Advance(c: Config, s: State, t: nat, ch: Choice) returns (s': State)
    requires Reachable(c, s) && t < |c.threads|
    requires var m := MoveOf(c, s.g, RankOf(c, t), Fr(s, t), ch); m.Move? && !(m.lock.Take? && m.lock.l in s.locks)
    ensures var m := MoveOf(c, s.g, RankOf(c, t), Fr(s, t), ch);
            && Step(c, s, Thread(t, ch)) == Some(s') && Reachable(c, s')
            && s'.g == m.g && Fr(s', t) == m.f && (forall u: nat :: u != t ==> Fr(s', u) == Fr(s, u))
            && match m.lock
               case NoLock => s'.locks == s.locks
               case Take(l) => s'.locks == s.locks[l := t]
               case Drop(l) => s'.locks == s.locks - {l}
  {
    hide MoveOf, Reachable;
    s' := Step(c, s, Thread(t, ch)).value;
    ReachStep(c, s, Thread(t, ch), s');
  }
}
