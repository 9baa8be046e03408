/**
 Putting the rows together: every step of a thread keeps the invariant.
 */
module EngineInduction {
  import opened Wrappers
  import opened EngineModel
  import opened EngineInvariant
  import opened EngineRows
  import opened EngineData
  import opened EnginePlaces
  import opened EngineStep

  /** What a move leaves behind, apart from the locks and the data invariant. */
  ghost predicate Outcome(c: Config, s: State, t: nat, m: Move, s': State) {
    && m.Move? && Placed(c, s') && Typed(c, s'.g) && SlotEffect(s.g, Fr(s, t), m)
    && s.g.ops <= m.g.ops && m.g.got == s.g.got && FrameOk(c, m.g, RankOf(c, t), m.f)
  }

  lemma Conclude(c: Config, s: State, t: nat, m: Move, s': State, z: nat, x: nat)
    requires Placed(c, s') && Typed(c, s'.g) && Control(c, s.g, RankOf(c, t), Fr(s, t), m, z, x)
    ensures Outcome(c, s, t, m, s')
  {
    hide Placed, Typed, SlotEffect, FrameOk;
  }

  lemma StayDone(c: Config, s: State, t: nat, m: Move, s': State, z: nat, x: nat, w: Place)
    requires Inv(c, s) && Moved(s, t, m, s') && Control(c, s.g, RankOf(c, t), Fr(s, t), m, z, x) && Hands(c, m.g, m.f)
    requires StayMove(s.g, Fr(s, t), m) && (w == Hand(t, false) || w == Hand(t, true))
    requires (z == |s.g.ops| || Look(s, Ids, w) == Some(z)) && (x == s.g.nextPtr || Look(s, Ptrs, w) == Some(x))
    ensures Outcome(c, s, t, m, s')
  {
    InvParts(c, s, t, m, s');
    hide Inv, Moved, Hands, StayMove, Placed, Typed, SlotEffect, FrameOk, Look, Local, Footprint;
    MakeLocal(c, s, t, m, s', z, x, w);
    StayKeeps(c, s, t, m, s', z, x, w);
  }

  // ---------------------------------------------------------------- facts the rows need

  lemma InvConfig(c: Config, s: State)
    requires Inv(c, s)
    ensures ValidConfig(c)
  {
    hide DataInv, Typed, LockInv, FramesOk, SlotsLive, ItemsOk, Unique, Total;
  }

  lemma RetRow(c: Config, g: Data, r: nat, f: Frame, z: nat, x: nat)
    requires f.at == Ret
    ensures Control(c, g, r, f, Move(NoLock, g, IDLE), z, x) && Hands(c, g, IDLE)
  {
  }

  lemma PutTestMiss(c: Config, g: Data, r: nat, f: Frame, z: nat, x: nat)
    requires Pre(c, g, r, f) && f.at == PutTest
    ensures var m := PutTestMove(c, g, f, false); Control(c, g, r, f, m, z, x) && Hands(c, m.g, m.f)
  {
  }

  /** A thread testing a put slot finds it active and good. */
  lemma SlotGood(c: Config, s: State, t: nat)
    requires Inv(c, s) && Fr(s, t).at == PutTest
    ensures var d := Fr(s, t).d;
            && d < |c.devs| && Slot(s.g, d).active && SlotOk(c, s.g, d, Slot(s.g, d))
            && ItemOk(c, s.g, Of(Slot(s.g, d), Fresh))
  {
    InvPre(c, s, t);
    var d := Fr(s, t).d;
    BoxGood(c, s, Slt(d), Of(Slot(s.g, d), Fresh));
    hide ItemOk, DataInv, LockInv, FramesOk, SlotsLive, ItemsOk, Unique, Total;
    assert Typed(c, s.g);
  }

  lemma FrontGood(c: Config, s: State, k: nat)
    requires Inv(c, s) && Deque(s.g, k) != []
    ensures DeqOk(c, s.g, k, Deque(s.g, k)[0]) && ItemOk(c, s.g, Of(Deque(s.g, k)[0], Fresh))
  {
    BoxGood(c, s, Deq(k, 0), Of(Deque(s.g, k)[0], Fresh));
    hide ItemOk, DataInv, LockInv, FramesOk, SlotsLive, ItemsOk, Unique, Total;
    assert Typed(c, s.g);
  }

  lemma RepostFacts(c: Config, g: Data, r: nat, f: Frame)
    requires FrameOk(c, g, r, f)
    ensures f.at.RepostOut? ==> f.ne.active && !Slot(g, f.d).active && SlotOk(c, g, f.d, f.ne) && f.d < |c.devs|
  {
  }

  lemma TestedPre(c: Config, g: Data, r: nat, f: Frame)
    requires Pre(c, g, r, f) && (f.at.Popped? || f.at.Testing? || f.at.Tested?)
    ensures f.e.ptr in g.heap && DeqOk(c, g, Dev(c, f.d).mgr, f.e) && f.e.id < |g.ops|
  {
  }

  lemma TestedFacts(c: Config, s: State, t: nat)
    requires Inv(c, s) && (Fr(s, t).at.Popped? || Fr(s, t).at.Testing? || Fr(s, t).at.Tested?)
    ensures var f := Fr(s, t);
            && ValidConfig(c) && OpOk(c, Info(s.g, f.e.id)) && f.e.ptr in s.g.heap && DeqOk(c, s.g, Dev(c, f.d).mgr, f.e)
  {
    assert OpsInv(c, s.g) && ValidConfig(c);
    hide Inv, OpOk, Pre, DeqOk;
    InvPre(c, s, t);
    TestedPre(c, s.g, RankOf(c, t), Fr(s, t));
  }

  lemma PopMove(c: Config, g: Data, f: Frame)
    requires f.at == ScanIn && Deque(g, Dev(c, f.d).mgr) != []
    ensures var m, k := ScanInMove(c, g, f), Dev(c, f.d).mgr;
            && m.Move? && m.g == PopFront(g, k) && HandItem(f, false).None? && HandItem(f, true).None?
            && HandItem(m.f, false) == Some(Of(Deque(g, k)[0], Fresh)) && HandItem(m.f, true).None?
  {
  }

  lemma MissMove(c: Config, g: Data, f: Frame)
    requires f.at == Tested && !f.hit
    ensures var m := TestedMove(c, g, f);
            && m.Move? && m.g == PushBack(g, Dev(c, f.d).mgr, f.e)
            && HandItem(m.f, false).None? && HandItem(m.f, true).None?
  {
  }

  // ---------------------------------------------------------------- location by location

  lemma PostOutcome(c: Config, s: State, t: nat, m: Move, s': State, hit: bool)
    requires Inv(c, s) && m == GoMove(c, s.g, RankOf(c, t), Fr(s, t), hit) && Moved(s, t, m, s')
    requires var a := Fr(s, t).at; a.Ready? || a.Posting? || a.Adding? || a.Pushing?
    ensures Outcome(c, s, t, m, s')
  {
    hide Inv, Moved, Hands, StayMove, Outcome, Typed, Look, Control, GotInv, IdsInv, HeapInv, RbufInv;
    var r, f, g := RankOf(c, t), Fr(s, t), s.g;
    InvPre(c, s, t);
    InvParts(c, s, t, m, s');
    var y := if f.at.Ready? || f.at.Posting? then Of(f.e, Unposted) else Of(f.e, Fresh);
    HandTokens(s, t, y, false);
    hide ReadyMove, PostingMove, AddingMove;
    if f.at.Ready? {
      ReadyRow(c, g, r, f);
      StayPost(c, g, r, f, hit);
      StayDone(c, s, t, m, s', f.e.id, f.e.ptr, Hand(t, false));
    } else if f.at.Posting? {
      PostingRow(c, g, r, f, hit);
      StayPost(c, g, r, f, hit);
      StayDone(c, s, t, m, s', f.e.id, f.e.ptr, Hand(t, false));
    } else if f.at.Adding? {
      AddingRow(c, g, r, f);
      StayPost(c, g, r, f, hit);
      StayDone(c, s, t, m, s', f.e.id, f.e.ptr, Hand(t, false));
    } else {
      PushingRow(c, g, r, f);
      PushBackKeeps(c, s, t, m, s', Dev(c, f.e.dev).mgr);
      Conclude(c, s, t, m, s', f.e.id, f.e.ptr);
    }
  }

  lemma EntryOutcome(c: Config, s: State, t: nat, m: Move, s': State, hit: bool)
    requires Inv(c, s) && m == GoMove(c, s.g, RankOf(c, t), Fr(s, t), hit) && Moved(s, t, m, s')
    requires var a := Fr(s, t).at; a.Loaded? || a.Started? || a.Consumed? || a.Ret?
    ensures Outcome(c, s, t, m, s')
  {
    hide Inv, Moved, Hands, StayMove, Outcome, Typed, Look, Control, GotInv, IdsInv, HeapInv, RbufInv;
    var r, f, g := RankOf(c, t), Fr(s, t), s.g;
    InvPre(c, s, t);
    InvParts(c, s, t, m, s');
    hide StartedMove, ConsumedMove;
    if f.at.Loaded? {
      LoadedRow(c, g, r, f, |g.ops|, g.nextPtr);
      BirthKeeps(c, s, t, m, s', AddPending(g, r, 1), f.o);
      Conclude(c, s, t, m, s', |g.ops|, g.nextPtr);
    } else if f.at.Started? {
      StartedRow(c, g, r, f, |g.ops|, g.nextPtr);
      StayPost(c, g, r, f, hit);
      StayDone(c, s, t, m, s', |g.ops|, g.nextPtr, Hand(t, false));
    } else if f.at.Consumed? {
      ConsumedRow(c, g, r, f, |g.ops|, g.nextPtr);
      StayPost(c, g, r, f, hit);
      StayDone(c, s, t, m, s', |g.ops|, g.nextPtr, Hand(t, false));
    } else {
      RetRow(c, g, r, f, |g.ops|, g.nextPtr);
      StaySignal(c, g, r, f, hit);
      StayDone(c, s, t, m, s', |g.ops|, g.nextPtr, Hand(t, false));
    }
  }

  lemma PutInOutcome(c: Config, s: State, t: nat, m: Move, s': State)
    requires Inv(c, s) && Fr(s, t).at.PutIn? && m == PutInMove(c, s.g, Fr(s, t)) && Moved(s, t, m, s')
    ensures Outcome(c, s, t, m, s')
  {
    hide Inv, Moved, Hands, StayMove, Outcome, Typed, Look, Control, GotInv, IdsInv, HeapInv, RbufInv;
    var r, f, g := RankOf(c, t), Fr(s, t), s.g;
    InvPre(c, s, t);
    InvParts(c, s, t, m, s');
    hide PutInMove, PutBackMove, PutTestMove, FrameOk, ItemOk, HandItem, Slot;
    PutInRow(c, g, r, f, |g.ops|, g.nextPtr);
    StayPut(c, g, r, f, false);
    StayDone(c, s, t, m, s', |g.ops|, g.nextPtr, Hand(t, false));
  }

  lemma PutMissOutcome(c: Config, s: State, t: nat, m: Move, s': State)
    requires Inv(c, s) && Moved(s, t, m, s')
    requires if Fr(s, t).at.PutTest? then m == PutTestMove(c, s.g, Fr(s, t), false)
             else Fr(s, t).at.PutBack? && !Fr(s, t).hit && m == PutBackMove(c, s.g, Fr(s, t))
    ensures Outcome(c, s, t, m, s')
  {
    hide Inv, Moved, Hands, StayMove, Outcome, Typed, Look, Control, GotInv, IdsInv, HeapInv, RbufInv;
    var r, f, g := RankOf(c, t), Fr(s, t), s.g;
    InvPre(c, s, t);
    InvParts(c, s, t, m, s');
    hide PutInMove, PutBackMove, PutTestMove, FrameOk, ItemOk, HandItem, Slot;
    if f.at.PutBack? {
      PutMissRow(c, g, r, f, |g.ops|, g.nextPtr);
    } else {
      PutTestMiss(c, g, r, f, |g.ops|, g.nextPtr);
    }
    StayPut(c, g, r, f, false);
    StayDone(c, s, t, m, s', |g.ops|, g.nextPtr, Hand(t, false));
  }

  lemma PutOutcome(c: Config, s: State, t: nat, m: Move, s': State, hit: bool)
    requires Inv(c, s) && m == GoMove(c, s.g, RankOf(c, t), Fr(s, t), hit) && Moved(s, t, m, s')
    requires var a := Fr(s, t).at; a.PutIn? || (a.PutTest? && !hit) || (a.PutBack? && !Fr(s, t).hit)
    ensures Outcome(c, s, t, m, s')
  {
    hide Inv, Moved, Outcome, PutInMove, PutBackMove, PutTestMove;
    if Fr(s, t).at.PutIn? {
      PutInOutcome(c, s, t, m, s');
    } else {
      PutMissOutcome(c, s, t, m, s');
    }
  }

  lemma PutHitOutcome(c: Config, s: State, t: nat, m: Move, s': State)
    requires Inv(c, s) && m == PutTestMove(c, s.g, Fr(s, t), true) && Moved(s, t, m, s') && Fr(s, t).at.PutTest?
    ensures Outcome(c, s, t, m, s')
  {
    var r, f, g := RankOf(c, t), Fr(s, t), s.g;
    InvPre(c, s, t);
    assert m.Move?;
    SlotGood(c, s, t);
    hide Inv, Moved, Hands, Outcome, Typed, Control, PutTestMove, FrameOk, ItemOk, HandItem;
    PutTestRow(c, g, r, f, true);
    TakeSlotKeeps(c, s, t, m, s');
    Conclude(c, s, t, m, s', Slot(g, f.d).id, Slot(g, f.d).ptr);
  }

  lemma RepostOutcome(c: Config, s: State, t: nat, m: Move, s': State, hit: bool)
    requires Inv(c, s) && m == GoMove(c, s.g, RankOf(c, t), Fr(s, t), hit) && Moved(s, t, m, s')
    requires var a := Fr(s, t).at; a.Repost? || a.RepostIn? || a.RepostOut? || (a.PutBack? && Fr(s, t).hit)
    ensures Outcome(c, s, t, m, s')
  {
    hide Inv, Moved, Hands, StayMove, Outcome, Typed, Look, Control, GotInv, IdsInv, HeapInv, RbufInv;
    var r, f, g := RankOf(c, t), Fr(s, t), s.g;
    InvPre(c, s, t);
    InvParts(c, s, t, m, s');
    HandTokens(s, t, if f.at.PutBack? then Of(f.e, Fresh) else Of(f.e, Final), false);
    if !f.at.PutBack? {
      HandTokens(s, t, if f.at.RepostOut? then Of(f.ne, Fresh) else Of(f.ne, Unposted), true);
    }
    RepostFacts(c, g, r, f);
    hide RepostMove, RepostInMove, RepostOutMove, PutBackMove, FrameOk, ItemOk;
    if f.at.Repost? {
      RepostRow(c, g, r, f);
      StayPut(c, g, r, f, hit);
      StayDone(c, s, t, m, s', f.e.id, f.e.ptr, Hand(t, false));
    } else if f.at.RepostIn? {
      RepostInRow(c, g, r, f);
      StayPut(c, g, r, f, hit);
      StayDone(c, s, t, m, s', f.ne.id, f.ne.ptr, Hand(t, true));
    } else if f.at.RepostOut? {
      InvConfig(c, s);
      RepostOutRow(c, g, r, f);
      StoreSlotKeeps(c, s, t, m, s');
      Conclude(c, s, t, m, s', f.ne.id, f.ne.ptr);
    } else {
      PutBackRow(c, g, r, f);
      PutBackHands(c, g, r, f);
      CopyOutKeeps(c, s, t, m, s');
      Conclude(c, s, t, m, s', f.e.id, f.e.ptr);
    }
  }

  lemma ScanOutcome(c: Config, s: State, t: nat, m: Move, s': State, hit: bool)
    requires Inv(c, s) && m == GoMove(c, s.g, RankOf(c, t), Fr(s, t), hit) && Moved(s, t, m, s')
    requires var a := Fr(s, t).at; a.Scan? || a.ScanIn?
    ensures Outcome(c, s, t, m, s')
  {
    hide Inv, Moved, Hands, StayMove, Outcome, Typed, Look, Control, GotInv, IdsInv, HeapInv, RbufInv;
    var r, f, g := RankOf(c, t), Fr(s, t), s.g;
    InvPre(c, s, t);
    InvParts(c, s, t, m, s');
    hide ScanMove, ScanInMove, FrameOk, ItemOk, HandItem, PopFront;
    if f.at.Scan? {
      ScanRow(c, g, r, f, hit, |g.ops|, g.nextPtr);
      StayScan(c, g, r, f, hit);
      StayDone(c, s, t, m, s', |g.ops|, g.nextPtr, Hand(t, false));
    } else if Deque(g, Dev(c, f.d).mgr) == [] {
      ScanInRow(c, g, r, f, |g.ops|, g.nextPtr);
      StayScan(c, g, r, f, hit);
      StayDone(c, s, t, m, s', |g.ops|, g.nextPtr, Hand(t, false));
    } else {
      FrontGood(c, s, Dev(c, f.d).mgr);
      PopMove(c, g, f);
      ScanInRow(c, g, r, f, |g.ops|, g.nextPtr);
      PopFrontKeeps(c, s, t, m, s', Dev(c, f.d).mgr);
      Conclude(c, s, t, m, s', |g.ops|, g.nextPtr);
    }
  }

  lemma TestedOutcome(c: Config, s: State, t: nat, m: Move, s': State)
    requires Inv(c, s) && Fr(s, t).at.Tested? && m == TestedMove(c, s.g, Fr(s, t)) && Moved(s, t, m, s')
    ensures Outcome(c, s, t, m, s')
  {
    hide Inv, Moved, StayMove, Outcome, Typed, Look, Control, GotInv, IdsInv, HeapInv, RbufInv;
    hide TestedMove, FrameOk, ItemOk, Hands, OpOk, DeqOk, HandItem;
    var r, f, g := RankOf(c, t), Fr(s, t), s.g;
    InvPre(c, s, t);
    InvParts(c, s, t, m, s');
    TestedItem(f);
    HandTokens(s, t, Of(f.e, Fresh), false);
    HandGood(c, s, t, false, Of(f.e, Fresh));
    TestedFacts(c, s, t);
    TestedRow(c, g, r, f);
    TestedHands(c, g, r, f);
    if f.hit {
      StayTested(c, g, r, f);
      StayDone(c, s, t, m, s', f.e.id, f.e.ptr, Hand(t, false));
    } else {
      MissMove(c, g, f);
      PushBackKeeps(c, s, t, m, s', Dev(c, f.d).mgr);
      Conclude(c, s, t, m, s', f.e.id, f.e.ptr);
    }
  }

  lemma TestedItem(f: Frame)
    requires f.at.Popped? || f.at.Testing? || f.at.Tested?
    ensures HandItem(f, false) == Some(Of(f.e, Fresh)) && HandItem(f, true).None?
  {
  }

  lemma TestOutcome(c: Config, s: State, t: nat, m: Move, s': State, hit: bool)
    requires Inv(c, s) && m == GoMove(c, s.g, RankOf(c, t), Fr(s, t), hit) && Moved(s, t, m, s')
    requires Fr(s, t).at.Popped? || Fr(s, t).at.Testing?
    ensures Outcome(c, s, t, m, s')
  {
    hide Inv, StayMove, Outcome, Typed, Look, Control, GotInv, IdsInv, HeapInv, RbufInv;
    hide PoppedMove, TestingMove, FrameOk, ItemOk, Hands, HandItem;
    assert m.Move?;
    hide Moved;
    var r, f, g := RankOf(c, t), Fr(s, t), s.g;
    InvPre(c, s, t);
    InvParts(c, s, t, m, s');
    TestedItem(f);
    HandTokens(s, t, Of(f.e, Fresh), false);
    if f.at.Popped? {
      PoppedRow(c, g, r, f);
    } else {
      TestingRow(c, g, r, f, hit);
    }
    StayScan(c, g, r, f, hit);
    StayDone(c, s, t, m, s', f.e.id, f.e.ptr, Hand(t, false));
  }

  lemma SignalOutcome(c: Config, s: State, t: nat, m: Move, s': State, hit: bool)
    requires Inv(c, s) && m == GoMove(c, s.g, RankOf(c, t), Fr(s, t), hit) && Moved(s, t, m, s')
    requires var a := Fr(s, t).at; a.Sub? || a.Count? || a.Push? || a.Free?
    ensures Outcome(c, s, t, m, s')
  {
    hide Inv, Moved, StayMove, Outcome, Typed, Look, Control, GotInv, IdsInv, HeapInv, RbufInv;
    var r, f, g := RankOf(c, t), Fr(s, t), s.g;
    InvPre(c, s, t);
    InvParts(c, s, t, m, s');
    HandTokens(s, t, if f.at.Sub? then Of(f.e, Final) else if f.at.Free? then Of(f.e, Husk) else Of(f.e, Counted), false);
    assert f.at.Push? ==> EntryOk(g, f.e);
    hide Hands, SubMove, CountMove, FreeMove, PushMove, FrameOk, ItemOk;
    if f.at.Sub? {
      SubRow(c, g, r, f);
      StaySignal(c, g, r, f, hit);
      StayDone(c, s, t, m, s', f.e.id, f.e.ptr, Hand(t, false));
    } else if f.at.Count? {
      CountRow(c, g, r, f);
      StaySignal(c, g, r, f, hit);
      StayDone(c, s, t, m, s', f.e.id, f.e.ptr, Hand(t, false));
    } else if f.at.Free? {
      FreeRow(c, g, r, f, |g.ops|);
      FreeKeeps(c, s, t, m, s');
      Conclude(c, s, t, m, s', |g.ops|, f.e.ptr);
    } else if Comp(c, f.e.comp).isQueue {
      PushRow(c, g, r, f);
      PushHands(c, g, r, f);
      PushCellKeeps(c, s, t, m, s');
      Conclude(c, s, t, m, s', f.e.id, f.e.ptr);
    } else {
      PushRow(c, g, r, f);
      PushHands(c, g, r, f);
      GiveKeeps(c, s, t, m, s');
      Conclude(c, s, t, m, s', f.e.id, f.e.ptr);
    }
  }

  // ---------------------------------------------------------------- calls

  lemma CallOutcome(c: Config, s: State, t: nat, m: Move, s': State, ch: Choice)
    requires Inv(c, s) && Fr(s, t).at == Idle && m == CallMove(c, s.g, RankOf(c, t), ch) && Moved(s, t, m, s')
    requires ch.DoProgress? && ch.lock ==> Slot(s.g, ch.d).active
    ensures Outcome(c, s, t, m, s')
  {
    var r, f, g := RankOf(c, t), Fr(s, t), s.g;
    InvParts(c, s, t, m, s');
    IdleHands(f);
    hide Inv, Moved, Hands, StayMove, Outcome, Typed, Look, GotInv, IdsInv, HeapInv, RbufInv, FrameOk, ItemOk, HandItem;
    match ch {
      case DoPost(o) =>
        PostRow(c, g, r, o, |g.ops|, g.nextPtr);
        IdleControl(c, g, r, f, m, |g.ops|, g.nextPtr);
        PostCases(c, g, r, o);
        hide PostCall, Control;
        if Throttled(c, o.record.op) {
          IdleStay(g, f, m);
          StayDone(c, s, t, m, s', |g.ops|, g.nextPtr, Hand(t, false));
        } else {
          BirthKeeps(c, s, t, m, s', g, o);
          Conclude(c, s, t, m, s', |g.ops|, g.nextPtr);
        }
      case DoProgress(d, lock) =>
        ProgressRow(c, g, r, d, lock, |g.ops|, g.nextPtr);
        IdleControl(c, g, r, f, m, |g.ops|, g.nextPtr);
        ProgressStay(c, g, r, d, lock);
        hide ProgressCall, Control;
        IdleStay(g, f, m);
        StayDone(c, s, t, m, s', |g.ops|, g.nextPtr, Hand(t, false));
      case DoPoll(q) =>
        PollRow(c, g, r, q);
        IdleControl(c, g, r, f, m, Queue(g, q)[0].id, Queue(g, q)[0].ptr);
        hide Control;
        PollKeeps(c, s, t, m, s', q);
        Conclude(c, s, t, m, s', Queue(g, q)[0].id, Queue(g, q)[0].ptr);
      case Go(_) =>
    }
  }

  lemma IdleHands(f: Frame)
    requires f.at == Idle
    ensures HandItem(f, false).None? && HandItem(f, true).None?
  {
  }

  /** The locals of an idle thread do not matter. */
  lemma IdleControl(c: Config, g: Data, r: nat, f: Frame, m: Move, z: nat, x: nat)
    requires f.at == Idle && Control(c, g, r, IDLE, m, z, x)
    ensures Control(c, g, r, f, m, z, x)
  {
    hide Footprint, FrameOk;
  }

  lemma IdleStay(g: Data, f: Frame, m: Move)
    requires f.at == Idle && StayMove(g, IDLE, m)
    ensures StayMove(g, f, m)
  {
    IdleHands(f);
    IdleHands(IDLE);
    hide HandItem;
  }

  lemma PostCases(c: Config, g: Data, r: nat, o: OpInfo)
    requires PostCall(c, g, r, o).Move?
    ensures var m := PostCall(c, g, r, o);
            if Throttled(c, o.record.op) then StayMove(g, IDLE, m)
            else m.g == Birth(g, o) && HandItem(m.f, false) == Some(Of(NewEntry(g, o), Unposted)) && HandItem(m.f, true).None?
  {
    hide Birth, Ctr;
    if Throttled(c, o.record.op) {
      if Pending(g, r) > c.pendingMax {
      }
    }
  }

  lemma ProgressStay(c: Config, g: Data, r: nat, d: nat, lock: bool)
    requires ProgressCall(c, g, r, d, lock).Move?
    ensures StayMove(g, IDLE, ProgressCall(c, g, r, d, lock))
  {
    if lock {
    }
  }

  // ---------------------------------------------------------------- one thread step

  lemma GoOutcome(c: Config, s: State, t: nat, m: Move, s': State, hit: bool)
    requires Inv(c, s) && m == GoMove(c, s.g, RankOf(c, t), Fr(s, t), hit) && Moved(s, t, m, s') && Fr(s, t).at != Idle
    ensures Outcome(c, s, t, m, s')
  {
    hide Inv, Moved, Outcome, PutTestMove, TestedMove;
    var a := Fr(s, t).at;
    assert a.PutTest? ==> m == PutTestMove(c, s.g, Fr(s, t), hit);
    assert a.Tested? ==> m == TestedMove(c, s.g, Fr(s, t));
    hide GoMove;
    if a.Ready? || a.Posting? || a.Adding? || a.Pushing? {
      PostOutcome(c, s, t, m, s', hit);
    } else if a.Loaded? || a.Started? || a.Consumed? || a.Ret? {
      EntryOutcome(c, s, t, m, s', hit);
    } else if a.PutTest? && hit {
      PutHitOutcome(c, s, t, m, s');
    } else if a.PutIn? || a.PutTest? || (a.PutBack? && !Fr(s, t).hit) {
      PutOutcome(c, s, t, m, s', hit);
    } else if a.Repost? || a.RepostIn? || a.RepostOut? || a.PutBack? {
      RepostOutcome(c, s, t, m, s', hit);
    } else if a.Scan? || a.ScanIn? {
      ScanOutcome(c, s, t, m, s', hit);
    } else if a.Popped? || a.Testing? {
      TestOutcome(c, s, t, m, s', hit);
    } else if a.Tested? {
      TestedOutcome(c, s, t, m, s');
    } else {
      SignalOutcome(c, s, t, m, s', hit);
    }
  }

  lemma MoveLocks(c: Config, g: Data, r: nat, f: Frame, ch: Choice, l: Lock)
    requires MoveOf(c, g, r, f, ch).Move?
    ensures LockOk(c, f, MoveOf(c, g, r, f, ch), l)
  {
    hide CallMove, GoMove;
    var a := f.at;
    if a == Idle {
      CallLocks(c, g, r, ch, l);
    } else if a.Loaded? || a.Ready? || a.Posting? || a.Adding? || a.Pushing? {
      PostLocks(c, g, r, f, ch.hit, l);
    } else if a.PutIn? || a.PutTest? || a.PutBack? || a.Repost? || a.RepostIn? || a.RepostOut? {
      PutLocks(c, g, r, f, ch.hit, l);
    } else if a.Scan? || a.ScanIn? || a.Popped? || a.Testing? || a.Tested? {
      ScanLocks(c, g, r, f, ch.hit, l);
    } else {
      SignalLocks(c, g, r, f, ch.hit, l);
    }
  }

  lemma LockKeep(c: Config, s: State, t: nat, m: Move, s': State)
    requires LockInv(c, s) && Moved(s, t, m, s') && forall l :: LockOk(c, Fr(s, t), m, l)
    ensures LockInv(c, s')
  {
    hide Holds;
    forall u: nat, l ensures Holds(c, Fr(s', u), l) <==> l in s'.locks && s'.locks[l] == u {
      assert Holds(c, Fr(s, u), l) <==> l in s.locks && s.locks[l] == u;
      assert Holds(c, Fr(s, t), l) <==> l in s.locks && s.locks[l] == t;
      assert LockOk(c, Fr(s, t), m, l);
    }
  }

  /** Mutual exclusion. */
  lemma Exclusive(c: Config, s: State, t: nat, u: nat, l: Lock)
    requires LockInv(c, s) && Holds(c, Fr(s, t), l) && Holds(c, Fr(s, u), l)
    ensures t == u && l in s.locks && s.locks[l] == t
  {
    assert l in s.locks && s.locks[l] == t;
    assert l in s.locks && s.locks[l] == u;
  }

  /** What another thread knows is not disturbed. */
  lemma FrameStable(c: Config, g: Data, g': Data, r: nat, f: Frame)
    requires FrameOk(c, g, r, f) && g.ops <= g'.ops && (forall q :: q in g.got ==> q in g'.got)
    requires HoldsPut(f.at) ==> Slot(g', f.d).active == Slot(g, f.d).active
    ensures FrameOk(c, g', r, f)
  {
    hide ValidPost, SlotOp, Slot;
  }

  lemma FramesKeep(c: Config, s: State, t: nat, m: Move, s': State)
    requires LockInv(c, s) && FramesOk(c, s) && Moved(s, t, m, s') && SlotEffect(s.g, Fr(s, t), m)
    requires s.g.ops <= m.g.ops && m.g.got == s.g.got && FrameOk(c, m.g, RankOf(c, t), m.f)
    ensures FramesOk(c, s')
  {
    forall u: nat ensures FrameOk(c, s'.g, RankOf(c, u), Fr(s', u)) {
      if u != t {
        var f := Fr(s, u);
        if HoldsPut(f.at) && HoldsPut(Fr(s, t).at) && f.d == Fr(s, t).d {
          Exclusive(c, s, t, u, PutLock(f.d));
        }
        hide FrameOk, LockInv;
        FrameStable(c, s.g, s'.g, RankOf(c, u), f);
      }
    }
  }

  lemma SlotsKeep(c: Config, s: State, t: nat, m: Move, s': State)
    requires LockInv(c, s) && SlotsLive(c, s) && Moved(s, t, m, s') && SlotEffect(s.g, Fr(s, t), m)
    requires forall l :: LockOk(c, Fr(s, t), m, l)
    ensures SlotsLive(c, s')
  {
    forall d: nat | d < |c.devs| && PutLock(d) !in s'.locks ensures Slot(s'.g, d).active {
      var f := Fr(s, t);
      assert LockOk(c, f, m, PutLock(d));
      assert Holds(c, f, PutLock(d)) <==> HoldsPut(f.at) && f.d == d;
      assert Holds(c, f, PutLock(d)) <==> PutLock(d) in s.locks && s.locks[PutLock(d)] == t;
    }
  }

  lemma ThreadStepIs(c: Config, s: State, t: nat, ch: Choice, s': State) returns (m: Move)
    requires Step(c, s, Thread(t, ch)) == Some(s')
    ensures t < |c.threads| && m == MoveOf(c, s.g, RankOf(c, t), Fr(s, t), ch) && Moved(s, t, m, s')
  {
    hide MoveOf;
    m := MoveOf(c, s.g, RankOf(c, t), Fr(s, t), ch);
  }

  /** A thread that wins the try-lock on a put slot finds the slot active. */
  lemma SlotWon(c: Config, s: State, t: nat, m: Move, s': State, ch: Choice)
    requires Inv(c, s) && Fr(s, t).at == Idle && m == CallMove(c, s.g, RankOf(c, t), ch) && Moved(s, t, m, s')
    ensures ch.DoProgress? && ch.lock ==> Slot(s.g, ch.d).active
  {
    if ch.DoProgress? && ch.lock {
      assert m.lock == Take(PutLock(ch.d)) && ch.d < |c.devs|;
      hide DataInv, LockInv, FramesOk, ItemsOk, Unique, Total, Typed;
      assert SlotsLive(c, s);
    }
  }

  lemma ThreadInv(c: Config, s: State, t: nat, ch: Choice, s': State)
    requires Inv(c, s) && Step(c, s, Thread(t, ch)) == Some(s')
    ensures Inv(c, s')
  {
    var m := ThreadStepIs(c, s, t, ch, s');
    assert m.Move? && s'.g == m.g;
    var r, f := RankOf(c, t), Fr(s, t);
    InvPre(c, s, t);
    hide Step, Moved, CallMove, GoMove, Outcome, LockOk, Pre;
    if f.at == Idle {
      SlotWon(c, s, t, m, s', ch);
      CallOutcome(c, s, t, m, s', ch);
      CallKeepsData(c, s.g, r, ch);
    } else {
      GoOutcome(c, s, t, m, s', ch.hit);
      MoveData(c, s.g, r, f, ch.hit);
    }
    forall l ensures LockOk(c, f, m, l) {
      MoveLocks(c, s.g, r, f, ch, l);
    }
    Assemble(c, s, t, m, s');
  }

  lemma CallKeepsData(c: Config, g: Data, r: nat, ch: Choice)
    requires DataInv(c, g) && CallMove(c, g, r, ch).Move?
    ensures DataInv(c, CallMove(c, g, r, ch).g)
  {
    hide DataInv, PostCall, PollCall;
    match ch
    case DoPost(o) => PostCallData(c, g, r, o);
    case DoProgress(_, _) =>
    case DoPoll(q) => PollCallData(c, g, r, q);
    case Go(_) =>
  }

  lemma Assemble(c: Config, s: State, t: nat, m: Move, s': State)
    requires Inv(c, s) && Moved(s, t, m, s') && Outcome(c, s, t, m, s') && DataInv(c, m.g)
    requires forall l :: LockOk(c, Fr(s, t), m, l)
    ensures Inv(c, s')
  {
    assert s'.g == m.g;
    hide Moved, DataInv, LockInv, FramesOk, SlotsLive, ItemsOk, Unique, Total, Typed, LockOk, SlotEffect, FrameOk;
    LockKeep(c, s, t, m, s');
    FramesKeep(c, s, t, m, s');
    SlotsKeep(c, s, t, m, s');
  }
}
