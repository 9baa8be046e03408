/**
 What each kind of move does to the places, and why every operation and record stays in exactly one.
 */
module EngineStep {
  import opened Basics
  import opened Wrappers
  import opened EngineModel
  import opened EngineInvariant
  import opened EngineRows
  import opened EngineData
  import opened EnginePlaces

  // ---------------------------------------------------------------- what the invariant says of one thread

  lemma InvPre(c: Config, s: State, t: nat)
    requires Inv(c, s)
    ensures Pre(c, s.g, RankOf(c, t), Fr(s, t))
  {
    var f := Fr(s, t);
    assert ItemAt(s, Hand(t, false)) == HandItem(f, false) && ItemAt(s, Hand(t, true)) == HandItem(f, true);
    if HandItem(f, false).Some? && HandItem(f, true).Some? {
      assert Look(s, Ids, Hand(t, false)) == Some(f.e.id) && Look(s, Ids, Hand(t, true)) == Some(f.ne.id);
      assert Look(s, Ptrs, Hand(t, false)) == Some(f.e.ptr) && Look(s, Ptrs, Hand(t, true)) == Some(f.ne.ptr);
    }
    hide ItemOk, FrameOk;
  }

  lemma MakeLocal(c: Config, s: State, t: nat, m: Move, s': State, z: nat, x: nat, w: Place)
    requires Inv(c, s) && Moved(s, t, m, s') && Footprint(s.g, m.g, z, x) && Hands(c, m.g, m.f)
    requires (z == |s.g.ops| || Look(s, Ids, w) == Some(z)) && (x == s.g.nextPtr || Look(s, Ptrs, w) == Some(x))
    ensures Local(c, s, t, m, s', z, x, w)
  {
    hide Footprint, Hands, Moved, DataInv, Look, ItemsOk, Unique, Total;
  }

  // ---------------------------------------------------------------- boxes

  predicate SameBoxes(g: Data, g': Data) {
    g'.deques == g.deques && g'.slots == g.slots && g'.queues == g.queues && g'.done == g.done
  }

  lemma BoxesStay(s: State, t: nat, m: Move)
    requires m.Move? && SameBoxes(s.g, m.g)
    ensures Boxes(s, m, Hand(t, false), Hand(t, false))
  {
    forall p: Place | !p.Hand? ensures DataItem(m.g, p) == DataItem(s.g, Before(Hand(t, false), p)) {
      match p
      case Hand(_, _) =>
      case Deq(_, _) =>
      case Slt(_) =>
      case Cel(_, _) =>
      case Don(_, _) =>
    }
  }

  lemma PushBackBox(g: Data, m: nat, e: Entry, p: Place)
    ensures DataItem(PushBack(g, m, e), p) == if p == Deq(m, |Deque(g, m)|) then Some(Of(e, Fresh)) else DataItem(g, p)
  {
    match p
    case Hand(_, _) =>
    case Deq(_, _) =>
    case Slt(_) =>
    case Cel(_, _) =>
    case Don(_, _) =>
  }

  lemma PopFrontBox(g: Data, m: nat, p: Place)
    requires Deque(g, m) != []
    ensures DataItem(PopFront(g, m), p) == DataItem(g, Before(Deq(m, 0), p))
  {
    match p
    case Hand(_, _) =>
    case Deq(_, _) =>
    case Slt(_) =>
    case Cel(_, _) =>
    case Don(_, _) =>
  }

  lemma SetSlotBox(g: Data, d: nat, e: Entry, p: Place)
    ensures DataItem(SetSlot(g, d, e), p) ==
            if p == Slt(d) then (if e.active then Some(Of(e, Fresh)) else None) else DataItem(g, p)
  {
    match p
    case Hand(_, _) =>
    case Deq(_, _) =>
    case Slt(_) =>
    case Cel(_, _) =>
    case Don(_, _) =>
  }

  lemma PushCellBox(g: Data, q: nat, id: nat, r: Record, p: Place)
    ensures DataItem(PushCell(g, q, id, r), p) ==
            if p == Cel(q, |Queue(g, q)|) then Some(Item(id, g.nextPtr, false, Counted)) else DataItem(g, p)
  {
    match p
    case Hand(_, _) =>
    case Deq(_, _) =>
    case Slt(_) =>
    case Cel(_, _) =>
    case Don(_, _) =>
  }

  lemma GiveBox(g: Data, r: nat, x: Delivery, p: Place)
    ensures DataItem(Give(g, r, x), p) ==
            if p == Don(r, |Done(g, r)|) then Some(Item(x.id, 0, false, Gone(x.record))) else DataItem(g, p)
  {
    match p
    case Hand(_, _) =>
    case Deq(_, _) =>
    case Slt(_) =>
    case Cel(_, _) =>
    case Don(_, _) =>
  }

  lemma PopCellBox(g: Data, q: nat, p: Place)
    requires Queue(g, q) != []
    ensures DataItem(PopCell(g, q), p) == DataItem(g, Before(Cel(q, 0), p))
  {
    match p
    case Hand(_, _) =>
    case Deq(_, _) =>
    case Slt(_) =>
    case Cel(_, _) =>
    case Don(_, _) =>
  }

  // ---------------------------------------------------------------- moves that rearrange nothing

  predicate SameTokens(f: Frame, f': Frame, v: View) {
    && TokenOf(v, HandItem(f', false)) == TokenOf(v, HandItem(f, false))
    && TokenOf(v, HandItem(f', true)) == TokenOf(v, HandItem(f, true))
  }

  predicate StayMove(g: Data, f: Frame, m: Move) {
    m.Move? && SameBoxes(g, m.g) && SamePop(g, m.g) && SameTokens(f, m.f, Ids) && SameTokens(f, m.f, Ptrs)
  }

  lemma StayPost(c: Config, g: Data, r: nat, f: Frame, hit: bool)
    requires f.at.Ready? || f.at.Posting? || f.at.Adding? || f.at.Started? || f.at.Consumed?
    ensures StayMove(g, f, GoMove(c, g, r, f, hit))
  {
  }

  lemma StayPut(c: Config, g: Data, r: nat, f: Frame, hit: bool)
    requires f.at.PutIn? || (f.at.PutTest? && !hit) || (f.at.PutBack? && !f.hit) || f.at.Repost? || f.at.RepostIn?
    ensures StayMove(g, f, GoMove(c, g, r, f, hit))
  {
    hide Slot, Load, SlotOp, NewEntry;
  }

  lemma StayScan(c: Config, g: Data, r: nat, f: Frame, hit: bool)
    requires f.at.Scan? || (f.at.ScanIn? && Deque(g, Dev(c, f.d).mgr) == []) || f.at.Popped? || f.at.Testing?
    requires GoMove(c, g, r, f, hit).Move?
    ensures StayMove(g, f, GoMove(c, g, r, f, hit))
  {
    hide Load, Deque, Dev, IsSendKind;
    match f.at
    case Testing =>
      if hit {
      }
    case _ =>
  }

  lemma StaySignal(c: Config, g: Data, r: nat, f: Frame, hit: bool)
    requires f.at.Sub? || f.at.Count? || f.at.Ret?
    ensures StayMove(g, f, GoMove(c, g, r, f, hit))
  {
    hide EndOf, Load, Pending, Ctr;
    if f.at.Sub? {
      if Throttled(c, Load(g, f.e.ptr).op) {
      }
    }
  }

  lemma StayTested(c: Config, g: Data, r: nat, f: Frame)
    requires f.at.Tested? && f.hit && f.e.ptr in g.heap
    ensures StayMove(g, f, TestedMove(c, g, f))
  {
    hide WithStatus;
    if Load(g, f.e.ptr).op == RECV {
      assert TestedMove(c, g, f).g.heap.Keys == g.heap.Keys;
    }
  }

  lemma StayKeeps(c: Config, s: State, t: nat, m: Move, s': State, z: nat, x: nat, w: Place)
    requires Local(c, s, t, m, s', z, x, w) && (w == Hand(t, false) || w == Hand(t, true)) && StayMove(s.g, Fr(s, t), m)
    requires Typed(c, s.g)
    ensures Placed(c, s') && Typed(c, s'.g)
  {
    BoxesStay(s, t, m);
    LocalParts(c, s, t, m, s', z, x, w);
    assert s.g.ops <= m.g.ops && s'.g == m.g by {
      hide DataInv, Hands, ItemsOk, Unique, Total;
    }
    GrowTyped(c, s.g, m.g);
    hide Local, Boxes, DataItem, HandItem, Typed;
    KeepStay(c, s, t, m, s', z, x);
  }

  // ---------------------------------------------------------------- moves that rearrange something

  lemma InvParts(c: Config, s: State, t: nat, m: Move, s': State)
    requires Inv(c, s) && Moved(s, t, m, s')
    ensures Typed(c, s.g) && HeapInv(s.g) && GotInv(c, s.g) && IdsInv(s.g) && RbufInv(c, s.g) && s'.g == m.g
  {
    hide Typed, HeapInv, GotInv, IdsInv, RbufInv, OpsInv, LockInv, FramesOk, SlotsLive, ItemsOk, Unique, Total;
  }

  lemma HandGood(c: Config, s: State, t: nat, other: bool, y: Item)
    requires Inv(c, s) && HandItem(Fr(s, t), other) == Some(y)
    ensures ItemOk(c, s.g, y)
  {
    hide Typed, DataInv, LockInv, FramesOk, SlotsLive, Unique, Total, ItemOk, HandItem;
    assert ItemAt(s, Hand(t, other)) == Some(y);
  }

  lemma BoxGood(c: Config, s: State, p: Place, y: Item)
    requires Inv(c, s) && !p.Hand? && DataItem(s.g, p) == Some(y)
    ensures ItemOk(c, s.g, y)
  {
    hide Typed, DataInv, LockInv, FramesOk, SlotsLive, Unique, Total, ItemOk, DataItem;
    assert ItemAt(s, p) == Some(y);
  }

  /** The operation and pointer in a hand are where Look says. */
  lemma HandTokens(s: State, t: nat, y: Item, other: bool)
    requires HandItem(Fr(s, t), other) == Some(y)
    ensures !y.stage.Husk? ==> Look(s, Ids, Hand(t, other)) == Some(y.id)
    ensures !y.stage.Gone? ==> Look(s, Ptrs, Hand(t, other)) == Some(y.ptr)
  {
  }

  lemma BoxTokens(s: State, p: Place, y: Item)
    requires !p.Hand? && DataItem(s.g, p) == Some(y) && !y.stage.Husk?
    ensures Look(s, Ids, p) == Some(y.id) && (!y.stage.Gone? ==> Look(s, Ptrs, p) == Some(y.ptr))
  {
  }

  /** ItemOk reads only these parts of the data. */
  predicate SameCore(g: Data, g': Data) {
    && g'.ops == g.ops && g'.got == g.got && g'.heap == g.heap && g'.reqs == g.reqs && g'.wire == g.wire
    && g'.down == g.down && g'.rbuf == g.rbuf
  }

  lemma CoreItem(c: Config, g: Data, g': Data, y: Item)
    requires SameCore(g, g') && ItemOk(c, g, y)
    ensures ItemOk(c, g', y)
  {
  }

  /** add_entry, or putting an incomplete entry back. */
  lemma PushBackKeeps(c: Config, s: State, t: nat, m: Move, s': State, k: nat)
    requires m.Move? && Inv(c, s) && Moved(s, t, m, s') && Hands(c, m.g, m.f)
    requires var f := Fr(s, t);
             && HandItem(f, false) == Some(Of(f.e, Fresh)) && HandItem(f, true).None?
             && m.g == PushBack(s.g, k, f.e) && HandItem(m.f, false).None? && HandItem(m.f, true).None?
             && DeqOk(c, s.g, k, f.e)
    ensures Placed(c, s') && Typed(c, s'.g)
  {
    hide Inv, Moved, Hands;
    InvParts(c, s, t, m, s');
    var f, b := Fr(s, t), Deq(k, |Deque(s.g, k)|);
    var y := Of(f.e, Fresh);
    HandTokens(s, t, y, false);
    HandGood(c, s, t, false, y);
    CoreItem(c, s.g, m.g, y);
    PushBackTyped(c, s.g, k, f.e);
    forall p: Place ensures DataItem(m.g, p) == if p == b then Some(y) else DataItem(s.g, p) {
      PushBackBox(s.g, k, f.e, p);
    }
    assert DataItem(s.g, b).None?;
    assert Footprint(s.g, m.g, f.e.id, f.e.ptr);
    assert SamePop(s.g, m.g);
    MakeLocal(c, s, t, m, s', f.e.id, f.e.ptr, Hand(t, false));
    hide Inv, Local, ItemOk, PushBack, HandItem, DataItem, Footprint, Hands, Moved, Typed;
    assert Boxes(s, m, Hand(t, false), b);
    assert Look(s, Ids, Hand(t, true)).None? && Look(s, Ptrs, Hand(t, true)).None?;
    KeepOut(c, s, t, m, s', f.e.id, f.e.ptr, false, b);
  }

  /** Popping the front of a deque. */
  lemma PopFrontKeeps(c: Config, s: State, t: nat, m: Move, s': State, k: nat)
    requires m.Move? && Inv(c, s) && Moved(s, t, m, s') && Hands(c, m.g, m.f) && Deque(s.g, k) != []
    requires var f := Fr(s, t);
             && HandItem(f, false).None? && HandItem(f, true).None? && m.g == PopFront(s.g, k)
             && HandItem(m.f, false) == Some(Of(Deque(s.g, k)[0], Fresh)) && HandItem(m.f, true).None?
    ensures Placed(c, s') && Typed(c, s'.g)
  {
    hide Inv, Moved, Hands;
    InvParts(c, s, t, m, s');
    var a, y := Deq(k, 0), Of(Deque(s.g, k)[0], Fresh);
    assert DataItem(s.g, a) == Some(y);
    BoxTokens(s, a, y);
    PopFrontTyped(c, s.g, k);
    forall p: Place ensures DataItem(m.g, p) == DataItem(s.g, Before(a, p)) {
      PopFrontBox(s.g, k, p);
    }
    var z, x := |s.g.ops|, s.g.nextPtr;
    assert Footprint(s.g, m.g, z, x);
    assert SamePop(s.g, m.g);
    MakeLocal(c, s, t, m, s', z, x, a);
    assert Look(s, Ids, Hand(t, true)).None? && Look(s, Ptrs, Hand(t, true)).None?;
    hide Inv, Local, ItemOk, PopFront, HandItem, DataItem, Footprint, Hands, Moved, Typed;
    assert Boxes(s, m, a, Hand(t, false));
    KeepIn(c, s, t, m, s', z, x, a);
  }

  /** A new operation in the thread's hand. */
  lemma BirthKeeps(c: Config, s: State, t: nat, m: Move, s': State, g1: Data, o: OpInfo)
    requires m.Move? && Inv(c, s) && Moved(s, t, m, s') && Hands(c, m.g, m.f)
    requires m.g == Birth(g1, o) && SameCore(s.g, g1) && SameBoxes(s.g, g1) && g1.nextPtr == s.g.nextPtr
    requires HandItem(Fr(s, t), false).None? && HandItem(Fr(s, t), true).None?
    requires HandItem(m.f, false) == Some(Of(NewEntry(s.g, o), Unposted)) && HandItem(m.f, true).None?
    ensures Placed(c, s') && Typed(c, s'.g)
  {
    hide Inv, Moved, Hands;
    InvParts(c, s, t, m, s');
    var z, x := |s.g.ops|, s.g.nextPtr;
    BirthItem(c, s.g, o, z, x);
    assert Footprint(s.g, m.g, z, x);
    GrowTyped(c, s.g, m.g);
    BoxesStay(s, t, m);
    assert |m.g.ops| == z + 1 && OneMore(s.g, m.g);
    assert Look(s, Ids, Hand(t, true)).None? && Look(s, Ptrs, Hand(t, true)).None?;
    MakeLocal(c, s, t, m, s', z, x, Hand(t, false));
    hide Inv, Local, ItemOk, Birth, HandItem, DataItem, Footprint, Hands, Moved, Typed;
    KeepGrow(c, s, t, m, s', z, x, false);
  }

  /** The copy-out, with the next put receive in the other hand. */
  lemma CopyOutKeeps(c: Config, s: State, t: nat, m: Move, s': State)
    requires Inv(c, s) && Moved(s, t, m, s') && Hands(c, m.g, m.f)
    requires var f := Fr(s, t); f.at == PutBack && f.hit && m == PutBackMove(c, s.g, f)
    ensures Placed(c, s') && Typed(c, s'.g)
  {
    hide Inv, Moved, Hands;
    InvParts(c, s, t, m, s');
    var f := Fr(s, t);
    var o := SlotOp(c, f.d);
    HandTokens(s, t, Of(f.e, Fresh), false);
    HandGood(c, s, t, false, Of(f.e, Fresh));
    InHeap(c, s.g, Of(f.e, Fresh));
    hide ItemOk, WithStatus, Load;
    CopyOutData(c, s.g, f.d, f.e);
    assert SameBoxes(s.g, m.g);
    GrowTyped(c, s.g, m.g);
    BoxesStay(s, t, m);
    assert |m.g.ops| == |s.g.ops| + 1 && OneMore(s.g, m.g);
    assert HandItem(m.f, true) == Some(Of(NewEntry(s.g, o), Unposted)) && HandItem(f, true).None?;
    assert HandItem(m.f, false) == Some(Of(f.e, Final));
    MakeLocal(c, s, t, m, s', f.e.id, f.e.ptr, Hand(t, false));
    hide Inv, Local, Birth, HandItem, DataItem, Footprint, Hands, Moved, Typed, CopyOut;
    KeepGrow(c, s, t, m, s', f.e.id, f.e.ptr, true);
  }

  /** Changing a slot and an operation's request, as data. */
  lemma SlotData(c: Config, g: Data, g1: Data, d: nat, e: Entry)
    requires Typed(c, g) && SlotOk(c, g, d, e) && d < |c.devs|
    requires g1 == g || g1 == Finish(g, e.id)
    ensures Typed(c, SetSlot(g1, d, e)) && SamePop(g, SetSlot(g1, d, e)) && Footprint(g, SetSlot(g1, d, e), e.id, e.ptr)
  {
    GrowTyped(c, g, g1);
    assert SlotOk(c, g1, d, e);
    SetSlotTyped(c, g1, d, e);
    hide Typed, SlotOk;
  }

  lemma SlotBoxes(g: Data, g1: Data, d: nat, e: Entry)
    requires g1 == g || g1 == Finish(g, e.id)
    ensures forall p: Place :: DataItem(SetSlot(g1, d, e), p) ==
              if p == Slt(d) then (if e.active then Some(Of(e, Fresh)) else None) else DataItem(g, p)
  {
    forall p: Place
      ensures DataItem(SetSlot(g1, d, e), p) ==
              if p == Slt(d) then (if e.active then Some(Of(e, Fresh)) else None) else DataItem(g, p)
    {
      SetSlotBox(g1, d, e, p);
      assert DataItem(g1, p) == DataItem(g, p) by {
        hide SetSlot;
      }
      hide SetSlot, DataItem;
    }
  }

  lemma TakeHands(f: Frame, f': Frame)
    requires f.at == PutTest && f'.at == PutBack && f'.hit
    ensures HandItem(f, false).None? && HandItem(f, true).None?
    ensures HandItem(f', false) == Some(Of(f'.e, Fresh)) && HandItem(f', true).None?
  {
  }

  lemma TakeIs(c: Config, g: Data, f: Frame)
    requires f.at == PutTest && PutTestMove(c, g, f, true).Move?
    ensures var m, e := PutTestMove(c, g, f, true), Slot(g, f.d).(active := false);
            m.g == SetSlot(Finish(g, e.id), f.d, e) && m.f.e == e && m.f.at == PutBack && m.f.hit
  {
    hide SetSlot, Finish, Slot;
  }

  /** A successful test of the put receive takes the entry out of the slot. */
  lemma TakeSlotKeeps(c: Config, s: State, t: nat, m: Move, s': State)
    requires m.Move? && Inv(c, s) && Moved(s, t, m, s') && Hands(c, m.g, m.f)
    requires Slot(s.g, Fr(s, t).d).active && SlotOk(c, s.g, Fr(s, t).d, Slot(s.g, Fr(s, t).d)) && Fr(s, t).d < |c.devs|
    requires var f := Fr(s, t); f.at == PutTest && m == PutTestMove(c, s.g, f, true)
    ensures Placed(c, s') && Typed(c, s'.g)
  {
    hide Inv, Hands, PutTestMove, HandItem, ItemOk, Typed, FrameOk, Footprint;
    TakeIs(c, s.g, Fr(s, t));
    assert s'.g == m.g;
    hide Moved;
    InvParts(c, s, t, m, s');
    var f := Fr(s, t);
    var e := Slot(s.g, f.d);
    var a, y := Slt(f.d), Of(e, Fresh);
    var e' := e.(active := false);
    assert DataItem(s.g, a) == Some(y);
    hide ItemOk, Typed, FrameOk, Footprint, HandItem;
    BoxTokens(s, a, y);
    assert m.g == SetSlot(Finish(s.g, e'.id), f.d, e') && m.f.e == e' && m.f.at == PutBack && m.f.hit && s'.g == m.g;
    hide DataItem, SetSlot, Finish, PutTestMove, SlotOk, Slot;
    SlotData(c, s.g, Finish(s.g, e'.id), f.d, e');
    SlotBoxes(s.g, Finish(s.g, e'.id), f.d, e');
    TakeHands(f, m.f);
    MakeLocal(c, s, t, m, s', e.id, e.ptr, a);
    hide Inv, Local, HandItem, Footprint, Hands, Moved;
    assert Boxes(s, m, a, Hand(t, false));
    assert Look(s, Ids, Hand(t, true)).None? && Look(s, Ptrs, Hand(t, true)).None?;
    KeepIn(c, s, t, m, s', e.id, e.ptr, a);
  }

  lemma StoreIs(g: Data, f: Frame)
    requires f.at == RepostOut
    ensures var m := RepostOutMove(g, f);
            && m.g == SetSlot(g, f.d, f.ne) && HandItem(m.f, true).None? && HandItem(m.f, false) == Some(Of(f.e, Final))
            && HandItem(f, true) == Some(Of(f.ne, Fresh)) && HandItem(f, false) == Some(Of(f.e, Final))
  {
    hide SetSlot;
  }

  /** Storing the new put receive in the slot. */
  lemma StoreSlotKeeps(c: Config, s: State, t: nat, m: Move, s': State)
    requires Inv(c, s) && Moved(s, t, m, s') && Hands(c, m.g, m.f)
    requires var f := Fr(s, t);
             && f.at == RepostOut && m == RepostOutMove(s.g, f) && f.ne.active && !Slot(s.g, f.d).active
             && SlotOk(c, s.g, f.d, f.ne) && f.d < |c.devs|
    ensures Placed(c, s') && Typed(c, s'.g)
  {
    hide Inv, Hands, RepostOutMove, HandItem, ItemOk, Typed, FrameOk;
    StoreIs(s.g, Fr(s, t));
    assert s'.g == m.g;
    hide Moved;
    InvParts(c, s, t, m, s');
    var f := Fr(s, t);
    var b, y := Slt(f.d), Of(f.ne, Fresh);
    HandTokens(s, t, y, true);
    HandTokens(s, t, Of(f.e, Final), false);
    HandGood(c, s, t, true, y);
    CoreItem(c, s.g, m.g, y);
    assert DataItem(s.g, b).None?;
    hide DataItem, SetSlot, ItemOk, Typed, RepostOutMove, FrameOk;
    SlotData(c, s.g, s.g, f.d, f.ne);
    SlotBoxes(s.g, s.g, f.d, f.ne);
    MakeLocal(c, s, t, m, s', f.ne.id, f.ne.ptr, Hand(t, true));
    hide Inv, Local, HandItem, Footprint, Hands, Moved;
    assert Boxes(s, m, Hand(t, false), b);
    KeepOut(c, s, t, m, s', f.ne.id, f.ne.ptr, true, b);
  }

  lemma FreeKeeps(c: Config, s: State, t: nat, m: Move, s': State)
    requires Inv(c, s) && Moved(s, t, m, s') && Hands(c, m.g, m.f)
    requires var f := Fr(s, t); f.at == Free && m == FreeMove(s.g, f)
    ensures Placed(c, s') && Typed(c, s'.g)
  {
    hide Inv, Moved, Hands;
    InvParts(c, s, t, m, s');
    var f, z := Fr(s, t), |s.g.ops|;
    HandTokens(s, t, Of(f.e, Husk), false);
    GrowTyped(c, s.g, m.g);
    BoxesStay(s, t, m);
    assert Footprint(s.g, m.g, z, f.e.ptr);
    assert OneLess(s.g, m.g, f.e.ptr);
    assert Look(s, Ids, Hand(t, false)).None?;
    assert Look(s, Ids, Hand(t, true)).None? && Look(s, Ptrs, Hand(t, true)).None?;
    MakeLocal(c, s, t, m, s', z, f.e.ptr, Hand(t, false));
    assert HandItem(m.f, false).None? && HandItem(m.f, true).None?;
    hide Inv, Local, ItemOk, Delete, HandItem, DataItem, Footprint, Hands, Moved, Typed;
    KeepFree(c, s, t, m, s', z, f.e.ptr);
  }

  lemma CellData(c: Config, g: Data, q: nat, id: nat, r: Record, z: nat, x: nat)
    requires HeapInv(g) && Typed(c, g) && id < |g.ops| && g.ops[id].comp == q
    ensures var g' := PushCell(g, q, id, r);
            Typed(c, g') && Footprint(g, g', z, x) && OneMore(g, g') && |g'.ops| == |g.ops|
  {
    PushCellTyped(c, g, q, id, r);
    hide Typed, Queue;
  }

  lemma CellBoxes(g: Data, q: nat, id: nat, r: Record)
    ensures forall p: Place :: DataItem(PushCell(g, q, id, r), p) ==
              if p == Cel(q, |Queue(g, q)|) then Some(Item(id, g.nextPtr, false, Counted)) else DataItem(g, p)
    ensures DataItem(g, Cel(q, |Queue(g, q)|)).None?
  {
    forall p: Place
      ensures DataItem(PushCell(g, q, id, r), p) ==
              if p == Cel(q, |Queue(g, q)|) then Some(Item(id, g.nextPtr, false, Counted)) else DataItem(g, p)
    {
      hide DataItem, PushCell;
      PushCellBox(g, q, id, r, p);
    }
  }

  lemma PollData(c: Config, g: Data, q: nat, r: nat, x: Delivery)
    requires HeapInv(g) && Typed(c, g) && Queue(g, q) != []
    ensures var g' := Give(PopCell(g, q), r, x);
            var u := Queue(g, q)[0];
            Typed(c, g') && Footprint(g, g', u.id, u.ptr) && OneLess(g, g', u.ptr) && |g'.ops| == |g.ops|
  {
    PopCellTyped(c, g, q);
    GrowTyped(c, PopCell(g, q), Give(PopCell(g, q), r, x));
    hide Typed, Done;
  }

  lemma PollBoxes(g: Data, q: nat, r: nat, x: Delivery)
    requires Queue(g, q) != []
    ensures forall p: Place :: DataItem(Give(PopCell(g, q), r, x), p) ==
              if p == Don(r, |Done(g, r)|) then Some(Item(x.id, 0, false, Gone(x.record)))
              else DataItem(g, Before(Cel(q, 0), p))
    ensures DataItem(g, Don(r, |Done(g, r)|)).None?
  {
    var g1 := PopCell(g, q);
    assert Done(g1, r) == Done(g, r);
    forall p: Place
      ensures DataItem(Give(g1, r, x), p) ==
              if p == Don(r, |Done(g, r)|) then Some(Item(x.id, 0, false, Gone(x.record)))
              else DataItem(g, Before(Cel(q, 0), p))
    {
      hide DataItem, Give, PopCell;
      GiveBox(g1, r, x, p);
      PopCellBox(g, q, p);
    }
  }

  lemma PushIs(c: Config, g: Data, r: nat, f: Frame)
    requires f.at == Push
    ensures var m, x := PushMove(c, g, r, f), Load(g, f.e.ptr);
            && m.Move? && m.f.at == Free && m.f.e == f.e
            && m.g == (if Comp(c, f.e.comp).isQueue then PushCell(g, f.e.comp, f.e.id, x) else Give(g, r, Delivery(f.e.id, x)))
            && HandItem(m.f, true).None? && HandItem(f, true).None?
            && HandItem(m.f, false) == Some(Of(f.e, Husk)) && HandItem(f, false) == Some(Of(f.e, Counted))
  {
    hide PushCell, Give, Load;
    if Comp(c, f.e.comp).isQueue {
    }
  }

  /** Handing a copy to a queue. */
  lemma PushCellKeeps(c: Config, s: State, t: nat, m: Move, s': State)
    requires Inv(c, s) && Moved(s, t, m, s') && Hands(c, m.g, m.f)
    requires var f := Fr(s, t); f.at == Push && m == PushMove(c, s.g, RankOf(c, t), f) && Comp(c, f.e.comp).isQueue
    requires EntryOk(s.g, Fr(s, t).e)
    ensures Placed(c, s') && Typed(c, s'.g)
  {
    hide Inv, Hands, PushMove, HandItem, PushCell, Give, Load, ItemOk, Typed;
    PushIs(c, s.g, RankOf(c, t), Fr(s, t));
    assert s'.g == m.g;
    hide Moved;
    InvParts(c, s, t, m, s');
    var f := Fr(s, t);
    var q, x := f.e.comp, Load(s.g, f.e.ptr);
    var b, y := Cel(q, |Queue(s.g, q)|), Of(f.e, Counted);
    HandTokens(s, t, y, false);
    HandGood(c, s, t, false, y);
    assert m.g == PushCell(s.g, q, f.e.id, x) && s'.g == m.g && m.f.at == Free && m.f.e == f.e;
    hide DataItem, PushCell, ItemOk, Typed, PushMove, FrameOk, Load, Comp, Queue;
    PushItem(c, s.g, q, y);
    CellData(c, s.g, q, f.e.id, x, f.e.id, f.e.ptr);
    CellBoxes(s.g, q, f.e.id, x);
    MakeLocal(c, s, t, m, s', f.e.id, f.e.ptr, Hand(t, false));
    hide Inv, Local, HandItem, Footprint, Hands, Moved;
    assert Boxes(s, m, Hand(t, false), b);
    KeepPush(c, s, t, m, s', f.e.id, f.e.ptr, b);
  }

  lemma PushItem(c: Config, g: Data, q: nat, y: Item)
    requires ItemOk(c, g, y) && y.stage == Counted && HeapInv(g)
    ensures ItemOk(c, PushCell(g, q, y.id, Load(g, y.ptr)), Item(y.id, g.nextPtr, false, Counted))
  {
    hide Queue;
  }

  lemma GiveItem(c: Config, g: Data, r: nat, y: Item)
    requires ItemOk(c, g, y) && y.stage == Counted
    ensures ItemOk(c, Give(g, r, Delivery(y.id, Load(g, y.ptr))), Item(y.id, 0, false, Gone(Load(g, y.ptr))))
  {
    hide Done;
  }

  /** Handing the record to a handler. */
  lemma GiveKeeps(c: Config, s: State, t: nat, m: Move, s': State)
    requires Inv(c, s) && Moved(s, t, m, s') && Hands(c, m.g, m.f)
    requires var f := Fr(s, t); f.at == Push && m == PushMove(c, s.g, RankOf(c, t), f) && !Comp(c, f.e.comp).isQueue
    ensures Placed(c, s') && Typed(c, s'.g)
  {
    hide Inv, Hands, PushMove, HandItem, PushCell, Load, ItemOk, Typed;
    PushIs(c, s.g, RankOf(c, t), Fr(s, t));
    assert s'.g == m.g;
    hide Moved;
    InvParts(c, s, t, m, s');
    var f, r := Fr(s, t), RankOf(c, t);
    var x := Delivery(f.e.id, Load(s.g, f.e.ptr));
    var b, y := Don(r, |Done(s.g, r)|), Of(f.e, Counted);
    HandTokens(s, t, y, false);
    HandGood(c, s, t, false, y);
    assert m.g == Give(s.g, r, x) && s'.g == m.g && m.f.at == Free && m.f.e == f.e;
    GrowTyped(c, s.g, m.g);
    assert Footprint(s.g, m.g, f.e.id, f.e.ptr) && SamePop(s.g, m.g);
    assert DataItem(s.g, b).None?;
    hide DataItem, Give, ItemOk, Typed, PushMove, FrameOk, Load, Comp;
    GiveItem(c, s.g, r, y);
    forall p: Place ensures DataItem(m.g, p) == if p == b then Some(Item(x.id, 0, false, Gone(x.record))) else DataItem(s.g, p) {
      GiveBox(s.g, r, x, p);
    }
    MakeLocal(c, s, t, m, s', f.e.id, f.e.ptr, Hand(t, false));
    hide Inv, Local, HandItem, Footprint, Hands, Moved;
    assert Boxes(s, m, Hand(t, false), b);
    KeepPush(c, s, t, m, s', f.e.id, f.e.ptr, b);
  }

  /** A delivered record is the one the queue held. */
  lemma PollItem(c: Config, g: Data, q: nat, r: nat)
    requires Queue(g, q) != []
    requires ItemOk(c, g, Item(Queue(g, q)[0].id, Queue(g, q)[0].ptr, false, Counted))
    ensures var x := Queue(g, q)[0];
            ItemOk(c, Give(PopCell(g, q), r, Delivery(x.id, Load(g, x.ptr))), Item(x.id, 0, false, Gone(Load(g, x.ptr))))
  {
    hide Done;
  }

  lemma PollIs(c: Config, g: Data, r: nat, f: Frame, q: nat)
    requires f.at == Idle && PollCall(c, g, r, q).Move?
    ensures Queue(g, q) != []
    ensures var m, u := PollCall(c, g, r, q), Queue(g, q)[0];
            && m.g == Give(PopCell(g, q), r, Delivery(u.id, Load(g, u.ptr)))
            && HandItem(m.f, true).None? && HandItem(m.f, false).None? && HandItem(f, true).None? && HandItem(f, false).None?
            && DataItem(g, Cel(q, 0)) == Some(Item(u.id, u.ptr, false, Counted))
  {
    hide Give, PopCell, Load;
  }

  lemma PollKeeps(c: Config, s: State, t: nat, m: Move, s': State, q: nat)
    requires m.Move? && Inv(c, s) && Moved(s, t, m, s') && Hands(c, m.g, m.f)
    requires Fr(s, t).at == Idle && m == PollCall(c, s.g, RankOf(c, t), q)
    ensures Placed(c, s') && Typed(c, s'.g)
  {
    hide Inv, Hands, DataItem, Give, ItemOk, Typed, PollCall, FrameOk, PopCell, HandItem, Footprint, Load, Queue, Done;
    assert s'.g == m.g;
    hide Moved;
    var r := RankOf(c, t);
    PollIs(c, s.g, r, Fr(s, t), q);
    InvParts(c, s, t, m, s');
    var u := Queue(s.g, q)[0];
    var x := Delivery(u.id, Load(s.g, u.ptr));
    var a, b, y := Cel(q, 0), Don(r, |Done(s.g, r)|), Item(u.id, u.ptr, false, Counted);
    BoxTokens(s, a, y);
    BoxGood(c, s, a, y);
    PollItem(c, s.g, q, r);
    PollData(c, s.g, q, r, x);
    PollBoxes(s.g, q, r, x);
    MakeLocal(c, s, t, m, s', u.id, u.ptr, a);
    hide Local;
    assert Boxes(s, m, a, b);
    KeepPoll(c, s, t, m, s', u.id, u.ptr, q, b);
  }
}
