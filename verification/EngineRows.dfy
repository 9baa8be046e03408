/**
 One lemma per program location: what a thread's move does to the locks, to the
 shared data and to the items in its hands, given only what the thread can see.
 */
module EngineRows {
  import opened Basics
  import opened Wrappers
  import opened EngineModel
  import opened EngineInvariant

  /** The frames before and after a move differ by its lock action. */
  predicate LockOk(c: Config, f: Frame, m: Move, l: Lock)
    requires m.Move?
  {
    match m.lock
    case NoLock => Holds(c, m.f, l) == Holds(c, f, l)
    case Take(k) => Holds(c, m.f, l) == (l == k || Holds(c, f, l))
    case Drop(k) => Holds(c, m.f, l) == (l != k && Holds(c, f, l)) && Holds(c, f, k)
  }

  /** Only the slot whose put lock the thread holds changes, and it is active when the lock
      is released. */
  ghost predicate SlotEffect(g: Data, f: Frame, m: Move)
    requires m.Move?
  {
    && (forall d: nat :: !(HoldsPut(f.at) && d == f.d) ==> Slot(m.g, d) == Slot(g, d))
    && (m.lock.Drop? && m.lock.l.PutLock? ==> Slot(m.g, m.lock.l.dev).active)
  }

  /** Nothing is touched except operation `z` and pointer `x`. */
  ghost predicate Footprint(g: Data, g': Data, z: nat, x: nat) {
    && g.ops <= g'.ops && g'.got == g.got && g'.rbuf == g.rbuf
    && (forall p :: p in g.heap && p != x ==> p in g'.heap && g'.heap[p] == g.heap[p])
    && (forall k :: k != z ==> (k in g'.reqs <==> k in g.reqs))
    && (forall k :: k != z ==> (k in g'.wire <==> k in g.wire))
    && (forall k :: k != z ==> (k in g'.down <==> k in g.down))
  }

  ghost predicate Control(c: Config, g: Data, r: nat, f: Frame, m: Move, z: nat, x: nat) {
    m.Move? && SlotEffect(g, f, m) && Footprint(g, m.g, z, x) && FrameOk(c, m.g, r, m.f)
  }

  ghost predicate HandOk(c: Config, g: Data, f: Frame, other: bool) {
    HandItem(f, other).Some? ==> ItemOk(c, g, HandItem(f, other).value)
  }

  /** The items in a thread's two hands are good, and distinct. */
  ghost predicate Hands(c: Config, g: Data, f: Frame) {
    && HandOk(c, g, f, false) && HandOk(c, g, f, true)
    && (HandItem(f, false).Some? && HandItem(f, true).Some? ==> f.e.id != f.ne.id && f.e.ptr != f.ne.ptr)
  }

  ghost predicate Pre(c: Config, g: Data, r: nat, f: Frame) { FrameOk(c, g, r, f) && Hands(c, g, f) }

  // ---------------------------------------------------------------- locks

  lemma CallLocks(c: Config, g: Data, r: nat, ch: Choice, l: Lock)
    requires CallMove(c, g, r, ch).Move?
    ensures LockOk(c, IDLE, CallMove(c, g, r, ch), l)
  {
    match ch
    case DoPost(o) =>
    case DoProgress(_, _) =>
    case DoPoll(_) =>
    case Go(_) =>
  }

  lemma PostLocks(c: Config, g: Data, r: nat, f: Frame, hit: bool, l: Lock)
    requires f.at.Loaded? || f.at.Ready? || f.at.Posting? || f.at.Adding? || f.at.Pushing?
    ensures LockOk(c, f, GoMove(c, g, r, f, hit), l)
  {
    hide Birth, AddPending, NewEntry, Issue, PushBack, Load, Dev;
    if f.at.Loaded? {
    } else if f.at.Ready? {
    } else if f.at.Posting? {
    } else if f.at.Adding? {
    }
  }

  lemma PutLocks(c: Config, g: Data, r: nat, f: Frame, hit: bool, l: Lock)
    requires f.at.PutIn? || f.at.PutTest? || f.at.PutBack? || f.at.Repost? || f.at.RepostIn? || f.at.RepostOut?
    requires GoMove(c, g, r, f, hit).Move?
    ensures LockOk(c, f, GoMove(c, g, r, f, hit), l)
  {
    hide CopyOut, Birth, SlotOp, NewEntry, Issue, SetSlot, Finish, Dev;
    if f.at.PutIn? {
    } else if f.at.PutTest? {
    } else if f.at.PutBack? {
    } else if f.at.Repost? {
    } else if f.at.RepostIn? {
    }
  }

  lemma ScanLocks(c: Config, g: Data, r: nat, f: Frame, hit: bool, l: Lock)
    requires f.at.Scan? || f.at.ScanIn? || f.at.Popped? || f.at.Testing? || f.at.Tested?
    requires GoMove(c, g, r, f, hit).Move?
    ensures LockOk(c, f, GoMove(c, g, r, f, hit), l)
  {
    hide PopFront, PushBack, Finish, SetRecord, WithStatus, Deque, Load, Dev, IsSendKind;
    match f.at
    case Tested =>
      if f.hit {
      }
    case Testing =>
      if hit {
      }
    case _ =>
  }

  lemma SignalLocks(c: Config, g: Data, r: nat, f: Frame, hit: bool, l: Lock)
    requires f.at.Started? || f.at.Consumed? || f.at.Sub? || f.at.Count? || f.at.Push? || f.at.Free? || f.at.Ret?
    ensures LockOk(c, f, GoMove(c, g, r, f, hit), l)
  {
    hide SetCtr, Ctr, StartOf, EndOf, PushCell, Give, Delete, AddPending, MarkDown, Load, Comp, Throttled, Dev;
    if f.at.Started? {
    } else if f.at.Consumed? {
    } else if f.at.Sub? {
    } else if f.at.Count? {
    } else if f.at.Push? {
    } else if f.at.Free? {
    }
  }

  // ---------------------------------------------------------------- changes to the data

  /** A new operation is good and disturbs nothing. */
  lemma BirthItem(c: Config, g: Data, o: OpInfo, z: nat, x: nat)
    requires GotInv(c, g) && IdsInv(g) && HeapInv(g)
    ensures ItemOk(c, Birth(g, o), Of(NewEntry(g, o), Unposted)) && Footprint(g, Birth(g, o), z, x)
    ensures EntryOk(Birth(g, o), NewEntry(g, o)) && Birth(g, o).ops[|g.ops|] == o && Birth(g, o).slots == g.slots
  {
  }

  /** Filling in the status of a completed entry. */
  lemma FillItem(c: Config, g: Data, y: Item)
    requires ItemOk(c, g, y) && y.stage == Fresh && !y.active && g.ops[y.id].record.op != PUT_SIGNAL
    ensures var x := Load(g, y.ptr);
            var g1 := if x.op == RECV then SetRecord(g, y.ptr, WithStatus(c, g, y.id, x)) else g;
            ItemOk(c, g1, y.(stage := Final))
  {
  }

  /** Copying a completed put out of the receive buffer. */
  lemma CopyItem(c: Config, g: Data, d: nat, e: Entry)
    requires ItemOk(c, g, Of(e, Fresh)) && !e.active && e.id in g.got && GotInv(c, g) && RbufInv(c, g)
    requires g.ops[e.id] == SlotOp(c, d) && d < |c.devs|
    ensures ItemOk(c, CopyOut(c, g, d, e), Of(e, Final))
  {
    var m := Info(g, g.got[e.id]);
    assert m.data == Rbuf(g, d)[..|m.data|];
  }

  lemma MarkItem(c: Config, g: Data, r: nat, y: Item)
    requires ItemOk(c, g, y) && y.stage == Final
    ensures var g1 := if Throttled(c, Load(g, y.ptr).op) then MarkDown(AddPending(g, r, -1), y.id) else g;
            ItemOk(c, g1, y.(stage := Counted))
  {
  }

  /** An item that a change does not touch stays good. */
  lemma ItemStable(c: Config, g: Data, g': Data, z: nat, x: nat, y: Item)
    requires Footprint(g, g', z, x) && ItemOk(c, g, y) && GotInv(c, g)
    requires !y.stage.Husk? ==> y.id != z
    requires !y.stage.Gone? ==> y.ptr != x
    ensures ItemOk(c, g', y)
  {
    if !y.stage.Husk? {
      assert g'.ops[y.id] == g.ops[y.id];
    }
  }

  // ---------------------------------------------------------------- calls

  lemma PostRow(c: Config, g: Data, r: nat, o: OpInfo, z: nat, x: nat)
    requires GotInv(c, g) && IdsInv(g) && HeapInv(g) && PostCall(c, g, r, o).Move?
    ensures Control(c, g, r, IDLE, PostCall(c, g, r, o), z, x) && Hands(c, PostCall(c, g, r, o).g, PostCall(c, g, r, o).f)
  {
    hide ItemOk, GotInv, IdsInv, HeapInv, Birth, Ctr, Pending;
    BirthItem(c, g, o, z, x);
    if Throttled(c, o.record.op) {
      if Pending(g, r) > c.pendingMax {
      }
    }
  }

  lemma ProgressRow(c: Config, g: Data, r: nat, d: nat, lock: bool, z: nat, x: nat)
    requires ProgressCall(c, g, r, d, lock).Move? && (lock ==> Slot(g, d).active)
    ensures Control(c, g, r, IDLE, ProgressCall(c, g, r, d, lock), z, x)
    ensures Hands(c, ProgressCall(c, g, r, d, lock).g, ProgressCall(c, g, r, d, lock).f)
  {
  }

  lemma PollRow(c: Config, g: Data, r: nat, q: nat)
    requires PollCall(c, g, r, q).Move?
    ensures Control(c, g, r, IDLE, PollCall(c, g, r, q), Queue(g, q)[0].id, Queue(g, q)[0].ptr)
    ensures Hands(c, PollCall(c, g, r, q).g, PollCall(c, g, r, q).f)
  {
  }

  // ---------------------------------------------------------------- send, recv, put, poll_cq

  lemma LoadedRow(c: Config, g: Data, r: nat, f: Frame, z: nat, x: nat)
    requires Pre(c, g, r, f) && f.at == Loaded && GotInv(c, g) && IdsInv(g) && HeapInv(g)
    ensures Control(c, g, r, f, LoadedMove(g, r, f), z, x) && Hands(c, LoadedMove(g, r, f).g, LoadedMove(g, r, f).f)
  {
    BirthItem(c, AddPending(g, r, 1), f.o, z, x);
    hide ItemOk, GotInv, IdsInv, HeapInv, Birth;
  }

  lemma ReadyRow(c: Config, g: Data, r: nat, f: Frame)
    requires Pre(c, g, r, f) && f.at == Ready
    ensures Control(c, g, r, f, ReadyMove(c, g, f), f.e.id, f.e.ptr) && Hands(c, g, ReadyMove(c, g, f).f)
  {
  }

  lemma PostingRow(c: Config, g: Data, r: nat, f: Frame, hit: bool)
    requires Pre(c, g, r, f) && f.at == Posting
    ensures Control(c, g, r, f, PostingMove(c, g, f, hit), f.e.id, f.e.ptr)
    ensures Hands(c, PostingMove(c, g, f, hit).g, PostingMove(c, g, f, hit).f)
  {

  }

  lemma AddingRow(c: Config, g: Data, r: nat, f: Frame)
    requires Pre(c, g, r, f) && f.at == Adding
    ensures Control(c, g, r, f, AddingMove(c, g, f), f.e.id, f.e.ptr) && Hands(c, g, AddingMove(c, g, f).f)
  {
  }

  lemma PushingRow(c: Config, g: Data, r: nat, f: Frame)
    requires Pre(c, g, r, f) && f.at == Pushing
    ensures Control(c, g, r, f, PushingMove(c, g, f), f.e.id, f.e.ptr) && Hands(c, PushingMove(c, g, f).g, PushingMove(c, g, f).f)
  {
  }

  lemma StartedRow(c: Config, g: Data, r: nat, f: Frame, z: nat, x: nat)
    requires Pre(c, g, r, f) && f.at == Started
    ensures Control(c, g, r, f, StartedMove(g, r, f), z, x) && Hands(c, StartedMove(g, r, f).g, StartedMove(g, r, f).f)
  {
  }

  lemma ConsumedRow(c: Config, g: Data, r: nat, f: Frame, z: nat, x: nat)
    requires f.at == Consumed
    ensures Control(c, g, r, f, ConsumedMove(g, r), z, x) && Hands(c, ConsumedMove(g, r).g, ConsumedMove(g, r).f)
  {
  }

  // ---------------------------------------------------------------- do_progress, put part

  lemma PutInRow(c: Config, g: Data, r: nat, f: Frame, z: nat, x: nat)
    requires Pre(c, g, r, f) && f.at == PutIn
    ensures Control(c, g, r, f, PutInMove(c, g, f), z, x) && Hands(c, g, PutInMove(c, g, f).f)
  {
    if Slot(g, f.d).active {
    }
  }

  lemma PutTestRow(c: Config, g: Data, r: nat, f: Frame, hit: bool)
    requires Pre(c, g, r, f) && f.at == PutTest && PutTestMove(c, g, f, hit).Move?
    requires SlotOk(c, g, f.d, Slot(g, f.d)) && ItemOk(c, g, Of(Slot(g, f.d), Fresh))
    ensures Control(c, g, r, f, PutTestMove(c, g, f, hit), Slot(g, f.d).id, Slot(g, f.d).ptr)
    ensures Hands(c, PutTestMove(c, g, f, hit).g, PutTestMove(c, g, f, hit).f)
  {
    if hit {
    }
  }

  lemma CopyOutData(c: Config, g: Data, d: nat, e: Entry)
    requires HeapInv(g)
    ensures var g' := Birth(CopyOut(c, g, d, e), SlotOp(c, d));
            Footprint(g, g', e.id, e.ptr) && g'.ops == g.ops + [SlotOp(c, d)] && g'.slots == g.slots
  {
    hide WithStatus, SlotOp, Rbuf, Load;
  }

  lemma CopyOutItems(c: Config, g: Data, d: nat, e: Entry)
    requires ItemOk(c, g, Of(e, Fresh)) && !e.active && e.id in g.got
    requires GotInv(c, g) && IdsInv(g) && HeapInv(g) && RbufInv(c, g)
    requires g.ops[e.id] == SlotOp(c, d) && d < |c.devs|
    ensures ItemOk(c, Birth(CopyOut(c, g, d, e), SlotOp(c, d)), Of(e, Final))
    ensures ItemOk(c, Birth(CopyOut(c, g, d, e), SlotOp(c, d)), Of(NewEntry(g, SlotOp(c, d)), Unposted))
  {
    CopyItem(c, g, d, e);
    var g1 := CopyOut(c, g, d, e);
    assert g1 == SetRecord(g, e.ptr, g1.heap[e.ptr]);
    BirthItem(c, g1, SlotOp(c, d), |g.ops|, g.nextPtr);
    assert e.id < |g.ops| && e.ptr != g.nextPtr;
    hide CopyOut, WithStatus, SlotOp, ItemOk, IdsInv, HeapInv, RbufInv, GotInv, Footprint, Birth;
    ItemStable(c, g1, Birth(g1, SlotOp(c, d)), |g.ops|, g.nextPtr, Of(e, Final)) by {
      assert GotInv(c, g1);
    }
  }

  lemma PutBackRow(c: Config, g: Data, r: nat, f: Frame)
    requires FrameOk(c, g, r, f) && f.at == PutBack && f.hit && HeapInv(g)
    ensures Control(c, g, r, f, PutBackMove(c, g, f), f.e.id, f.e.ptr)
  {
    CopyOutData(c, g, f.d, f.e);
    hide HeapInv, CopyOut, Birth, Footprint;
  }

  lemma PutBackHands(c: Config, g: Data, r: nat, f: Frame)
    requires Pre(c, g, r, f) && f.at == PutBack && f.hit && GotInv(c, g) && IdsInv(g) && HeapInv(g) && RbufInv(c, g)
    ensures Hands(c, PutBackMove(c, g, f).g, PutBackMove(c, g, f).f)
  {
    CopyOutItems(c, g, f.d, f.e);
    assert f.e.ptr in g.heap && f.e.id < |g.ops|;
    hide ItemOk, GotInv, IdsInv, RbufInv, CopyOut, Birth, Footprint;
  }

  lemma PutMissRow(c: Config, g: Data, r: nat, f: Frame, z: nat, x: nat)
    requires Pre(c, g, r, f) && f.at == PutBack && !f.hit
    ensures Control(c, g, r, f, PutBackMove(c, g, f), z, x)
    ensures Hands(c, PutBackMove(c, g, f).g, PutBackMove(c, g, f).f)
  {
  }

  lemma RepostRow(c: Config, g: Data, r: nat, f: Frame)
    requires Pre(c, g, r, f) && f.at == Repost
    ensures Control(c, g, r, f, RepostMove(c, g, f), f.e.id, f.e.ptr) && Hands(c, g, RepostMove(c, g, f).f)
  {
  }

  lemma RepostInRow(c: Config, g: Data, r: nat, f: Frame)
    requires Pre(c, g, r, f) && f.at == RepostIn
    ensures Control(c, g, r, f, RepostInMove(c, g, f), f.ne.id, f.ne.ptr)
    ensures Hands(c, RepostInMove(c, g, f).g, RepostInMove(c, g, f).f)
  {
  }

  lemma RepostOutRow(c: Config, g: Data, r: nat, f: Frame)
    requires Pre(c, g, r, f) && f.at == RepostOut && ValidConfig(c)
    ensures Control(c, g, r, f, RepostOutMove(g, f), f.ne.id, f.ne.ptr) && Hands(c, RepostOutMove(g, f).g, RepostOutMove(g, f).f)
  {
  }

  // ---------------------------------------------------------------- manager_req_t::do_progress

  lemma ScanRow(c: Config, g: Data, r: nat, f: Frame, hit: bool, z: nat, x: nat)
    requires Pre(c, g, r, f) && f.at == Scan
    ensures Control(c, g, r, f, ScanMove(c, g, f, hit), z, x) && Hands(c, g, ScanMove(c, g, f, hit).f)
  {
    if hit {
    }
  }

  lemma ScanInRow(c: Config, g: Data, r: nat, f: Frame, z: nat, x: nat)
    requires Pre(c, g, r, f) && f.at == ScanIn
    requires var q := Deque(g, Dev(c, f.d).mgr); q != [] ==> DeqOk(c, g, Dev(c, f.d).mgr, q[0]) && ItemOk(c, g, Of(q[0], Fresh))
    ensures Control(c, g, r, f, ScanInMove(c, g, f), z, x) && Hands(c, ScanInMove(c, g, f).g, ScanInMove(c, g, f).f)
  {
    if Deque(g, Dev(c, f.d).mgr) == [] {
    }
  }

  lemma PoppedRow(c: Config, g: Data, r: nat, f: Frame)
    requires Pre(c, g, r, f) && f.at == Popped
    ensures Control(c, g, r, f, PoppedMove(c, g, f), f.e.id, f.e.ptr)
    ensures PoppedMove(c, g, f).g == g && Hands(c, PoppedMove(c, g, f).g, PoppedMove(c, g, f).f)
  {
    if f.e.active {
    }
  }

  lemma TestingRow(c: Config, g: Data, r: nat, f: Frame, hit: bool)
    requires Pre(c, g, r, f) && f.at == Testing && TestingMove(c, g, f, hit).Move?
    ensures Control(c, g, r, f, TestingMove(c, g, f, hit), f.e.id, f.e.ptr)
    ensures Hands(c, TestingMove(c, g, f, hit).g, TestingMove(c, g, f, hit).f)
  {
    if hit {
    }
  }

  lemma TestedMissRow(c: Config, g: Data, r: nat, f: Frame)
    requires FrameOk(c, g, r, f) && f.at == Tested && !f.hit
    ensures Control(c, g, r, f, TestedMove(c, g, f), f.e.id, f.e.ptr)
  {
    hide Load, WithStatus;
  }

  lemma TestedHitRow(c: Config, g: Data, r: nat, f: Frame)
    requires FrameOk(c, g, r, f) && f.at == Tested && f.hit && ValidConfig(c) && OpOk(c, Info(g, f.e.id))
    ensures Control(c, g, r, f, TestedMove(c, g, f), f.e.id, f.e.ptr)
  {
    hide WithStatus, Load;
    if Load(g, f.e.ptr).op == RECV {
    }
  }

  lemma TestedRow(c: Config, g: Data, r: nat, f: Frame)
    requires FrameOk(c, g, r, f) && f.at == Tested && ValidConfig(c) && OpOk(c, Info(g, f.e.id))
    ensures Control(c, g, r, f, TestedMove(c, g, f), f.e.id, f.e.ptr)
  {
    hide TestedMove, FrameOk, Control, ValidConfig, OpOk;
    if f.hit {
      TestedHitRow(c, g, r, f);
    } else {
      TestedMissRow(c, g, r, f);
    }
  }

  lemma TestedHands(c: Config, g: Data, r: nat, f: Frame)
    requires Pre(c, g, r, f) && f.at == Tested
    ensures Hands(c, TestedMove(c, g, f).g, TestedMove(c, g, f).f)
  {
    if f.hit {
      FillItem(c, g, Of(f.e, Fresh));
    }
    hide ItemOk, WithStatus;
  }

  // ---------------------------------------------------------------- mpi::signal_comp

  lemma SubRow(c: Config, g: Data, r: nat, f: Frame)
    requires Pre(c, g, r, f) && f.at == Sub
    ensures Control(c, g, r, f, SubMove(c, g, r, f), f.e.id, f.e.ptr) && Hands(c, SubMove(c, g, r, f).g, SubMove(c, g, r, f).f)
  {
    if Throttled(c, Load(g, f.e.ptr).op) {
    }
    MarkItem(c, g, r, Of(f.e, Final));
    hide ItemOk;
  }

  lemma CountRow(c: Config, g: Data, r: nat, f: Frame)
    requires Pre(c, g, r, f) && f.at == Count
    ensures Control(c, g, r, f, CountMove(g, r, f), f.e.id, f.e.ptr) && Hands(c, CountMove(g, r, f).g, CountMove(g, r, f).f)
  {
    hide EndOf, Ctr, Load;
  }

  lemma HuskItem(c: Config, g: Data, y: Item)
    requires y.ptr in g.heap
    ensures ItemOk(c, g, y.(stage := Husk))
  {
  }

  lemma PushHands(c: Config, g: Data, r: nat, f: Frame)
    requires HandOk(c, g, f, false) && f.at == Push
    ensures Hands(c, PushMove(c, g, r, f).g, PushMove(c, g, r, f).f)
  {
    if Comp(c, f.e.comp).isQueue {
    }
    assert f.e.ptr in g.heap;
    HuskItem(c, PushMove(c, g, r, f).g, Of(f.e, Counted));
    hide ItemOk;
  }

  lemma PushRow(c: Config, g: Data, r: nat, f: Frame)
    requires FrameOk(c, g, r, f) && f.at == Push && HeapInv(g)
    ensures Control(c, g, r, f, PushMove(c, g, r, f), f.e.id, f.e.ptr)
  {
    hide Load, Queue, Done;
    if Comp(c, f.e.comp).isQueue {
    }
  }

  lemma FreeRow(c: Config, g: Data, r: nat, f: Frame, z: nat)
    requires Pre(c, g, r, f) && f.at == Free
    ensures Control(c, g, r, f, FreeMove(g, f), z, f.e.ptr) && Hands(c, FreeMove(g, f).g, FreeMove(g, f).f)
  {
    if f.fromPut {
    }
  }
}
