/**
 The shared data stays consistent: the log of operations, the matching, the heap
 bound and the kinds of entries in each container, move by move.
 */
module EngineData {
  import opened Basics
  import opened EngineModel
  import opened EngineInvariant
  import opened EngineRows

  /** Nothing that DataInv speaks about grows. */
  predicate Smaller(g: Data, g': Data) {
    && g'.ops == g.ops && g'.got == g.got && g'.wire == g.wire && g'.rbuf == g.rbuf && g'.nextPtr == g.nextPtr
    && g'.reqs <= g.reqs && g'.down == g.down && g'.heap.Keys <= g.heap.Keys
  }

  lemma SmallerData(c: Config, g: Data, g': Data)
    requires DataInv(c, g) && Smaller(g, g')
    ensures DataInv(c, g')
  {
    forall x | x in g'.heap ensures x < g'.nextPtr {
      assert x in g'.heap.Keys;
    }
  }

  lemma GrowGot(c: Config, g: Data, g': Data)
    requires GotInv(c, g) && g.ops <= g'.ops && g'.got == g.got && g'.wire == g.wire
    ensures GotInv(c, g')
  {
    hide Matches;
  }

  lemma BirthData(c: Config, g: Data, o: OpInfo)
    requires DataInv(c, g) && OpOk(c, o)
    ensures DataInv(c, Birth(g, o))
  {
    GrowGot(c, g, Birth(g, o));
    hide GotInv, OpOk;
    assert forall d: nat :: Rbuf(Birth(g, o), d) == Rbuf(g, d);
  }

  lemma IssueData(c: Config, g: Data, id: nat, send: bool, active: bool)
    requires DataInv(c, g) && id < |g.ops| && Untouched(g, id) && send == IsSendKind(g.ops[id].record.op)
    ensures DataInv(c, Issue(g, id, send, active))
  {
    hide Matches, OpOk;
  }

  lemma MarkData(c: Config, g: Data, id: nat)
    requires DataInv(c, g) && id < |g.ops|
    ensures DataInv(c, MarkDown(g, id))
  {
    hide Matches, OpOk;
  }

  lemma PushCellData(c: Config, g: Data, q: nat, id: nat, r: Record)
    requires DataInv(c, g)
    ensures DataInv(c, PushCell(g, q, id, r))
  {
    hide Matches, OpOk;
  }

  lemma PostOp(c: Config, r: nat, o: OpInfo)
    requires ValidPost(c, r, o)
    ensures OpOk(c, o)
  {
  }

  lemma SlotOpOk(c: Config, d: nat)
    requires ValidConfig(c) && d < |c.devs|
    ensures OpOk(c, SlotOp(c, d))
  {
  }

  lemma PostCallData(c: Config, g: Data, r: nat, o: OpInfo)
    requires DataInv(c, g) && PostCall(c, g, r, o).Move?
    ensures DataInv(c, PostCall(c, g, r, o).g)
  {
    PostOp(c, r, o);
    hide DataInv, OpOk, Birth;
    if !Throttled(c, o.record.op) {
      BirthData(c, g, o);
    } else {
      SmallerData(c, g, PostCall(c, g, r, o).g);
    }
  }

  lemma PollCallData(c: Config, g: Data, r: nat, q: nat)
    requires DataInv(c, g) && PollCall(c, g, r, q).Move?
    ensures DataInv(c, PollCall(c, g, r, q).g)
  {
    hide DataInv;
    SmallerData(c, g, PollCall(c, g, r, q).g);
  }

  lemma QuietPost(c: Config, g: Data, r: nat, f: Frame, hit: bool)
    requires f.at.Ready? || f.at.Adding? || f.at.Pushing? || f.at.Started? || f.at.Consumed?
    ensures Smaller(g, GoMove(c, g, r, f, hit).g)
  {
  }

  lemma QuietPut(c: Config, g: Data, r: nat, f: Frame, hit: bool)
    requires f.at.PutIn? || f.at.PutTest? || (f.at.PutBack? && !f.hit) || f.at.Repost? || f.at.RepostOut?
    requires GoMove(c, g, r, f, hit).Move?
    ensures Smaller(g, GoMove(c, g, r, f, hit).g)
  {
  }

  lemma QuietScan(c: Config, g: Data, r: nat, f: Frame, hit: bool)
    requires f.at.Scan? || f.at.ScanIn? || f.at.Popped? || f.at.Testing?
    requires GoMove(c, g, r, f, hit).Move?
    ensures Smaller(g, GoMove(c, g, r, f, hit).g)
  {
    match f.at
    case ScanIn =>
      if Deque(g, Dev(c, f.d).mgr) == [] {
      }
    case Testing =>
      if hit {
      }
    case _ =>
  }

  lemma QuietSignal(c: Config, g: Data, r: nat, f: Frame, hit: bool)
    requires f.at.Count? || f.at.Free? || f.at.Ret?
    ensures Smaller(g, GoMove(c, g, r, f, hit).g)
  {
  }

  lemma TestedSmaller(c: Config, g: Data, f: Frame)
    requires f.e.ptr in g.heap
    ensures Smaller(g, TestedMove(c, g, f).g)
  {
    hide WithStatus;
    if f.hit {
      if Load(g, f.e.ptr).op == RECV {
      }
    }
  }

  lemma LoadedData(c: Config, g: Data, r: nat, f: Frame)
    requires DataInv(c, g) && ValidPost(c, r, f.o)
    ensures DataInv(c, LoadedMove(g, r, f).g)
  {
    PostOp(c, r, f.o);
    hide DataInv, Birth, OpOk;
    SmallerData(c, g, AddPending(g, r, 1));
    BirthData(c, AddPending(g, r, 1), f.o);
  }

  lemma PostingData(c: Config, g: Data, f: Frame, hit: bool)
    requires DataInv(c, g) && ItemOk(c, g, Of(f.e, Unposted))
    ensures DataInv(c, PostingMove(c, g, f, hit).g)
  {
    hide DataInv, Issue;
    IssueData(c, g, f.e.id, IsSendKind(Load(g, f.e.ptr).op), !(IsSendKind(Load(g, f.e.ptr).op) && hit));
  }

  lemma PutBackData(c: Config, g: Data, f: Frame)
    requires DataInv(c, g) && ValidConfig(c) && f.d < |c.devs| && f.hit && f.e.ptr in g.heap
    ensures DataInv(c, PutBackMove(c, g, f).g)
  {
    SlotOpOk(c, f.d);
    hide DataInv, Birth, WithStatus, OpOk, SlotOp, Rbuf, Load;
    assert Smaller(g, CopyOut(c, g, f.d, f.e));
    hide CopyOut;
    SmallerData(c, g, CopyOut(c, g, f.d, f.e));
    BirthData(c, CopyOut(c, g, f.d, f.e), SlotOp(c, f.d));
  }

  lemma RepostInData(c: Config, g: Data, f: Frame)
    requires DataInv(c, g) && ItemOk(c, g, Of(f.ne, Unposted)) && g.ops[f.ne.id].record.op == PUT_SIGNAL
    ensures DataInv(c, RepostInMove(c, g, f).g)
  {
    hide DataInv, Issue;
    IssueData(c, g, f.ne.id, false, true);
  }

  lemma SubData(c: Config, g: Data, r: nat, f: Frame)
    requires DataInv(c, g) && f.e.id < |g.ops|
    ensures DataInv(c, SubMove(c, g, r, f).g)
  {
    hide DataInv, MarkDown;
    SmallerData(c, g, AddPending(g, r, -1));
    MarkData(c, AddPending(g, r, -1), f.e.id);
  }

  lemma PushData(c: Config, g: Data, r: nat, f: Frame)
    requires DataInv(c, g)
    ensures DataInv(c, PushMove(c, g, r, f).g)
  {
    hide DataInv, PushCell;
    if Comp(c, f.e.comp).isQueue {
      PushCellData(c, g, f.e.comp, f.e.id, Load(g, f.e.ptr));
    } else {
      SmallerData(c, g, PushMove(c, g, r, f).g);
    }
  }

  /** What the moving thread's frame and hands say about the data. */
  lemma Facts(c: Config, g: Data, r: nat, f: Frame)
    requires Pre(c, g, r, f)
    ensures f.at.Loaded? ==> ValidPost(c, r, f.o)
    ensures f.at.Posting? ==> ItemOk(c, g, Of(f.e, Unposted))
    ensures f.at.PutBack? && f.hit ==> f.d < |c.devs| && f.e.ptr in g.heap
    ensures f.at.RepostIn? ==> ItemOk(c, g, Of(f.ne, Unposted)) && g.ops[f.ne.id].record.op == PUT_SIGNAL
    ensures f.at.Tested? ==> f.e.ptr in g.heap
    ensures f.at.Sub? ==> f.e.id < |g.ops|
  {
  }

  /** Every move of a thread keeps the data consistent. */
  lemma MoveData(c: Config, g: Data, r: nat, f: Frame, hit: bool)
    requires DataInv(c, g) && Pre(c, g, r, f) && ValidConfig(c) && GoMove(c, g, r, f, hit).Move?
    ensures DataInv(c, GoMove(c, g, r, f, hit).g)
  {
    var g' := GoMove(c, g, r, f, hit).g;
    Facts(c, g, r, f);
    hide LoadedMove, ReadyMove, PostingMove, AddingMove, PushingMove, StartedMove, ConsumedMove, PutInMove, PutTestMove, PutBackMove, RepostMove, RepostInMove, RepostOutMove, ScanMove, ScanInMove, PoppedMove, TestingMove, TestedMove, SubMove, CountMove, PushMove, FreeMove;
    hide DataInv, Smaller, ItemOk, FrameOk, HandItem;
    if f.at.Loaded? {
      LoadedData(c, g, r, f);
    } else if f.at.Posting? {
      PostingData(c, g, f, hit);
    } else if f.at.PutBack? && f.hit {
      PutBackData(c, g, f);
    } else if f.at.RepostIn? {
      RepostInData(c, g, f);
    } else if f.at.Tested? {
      TestedSmaller(c, g, f);
      SmallerData(c, g, g');
    } else if f.at.Sub? {
      SubData(c, g, r, f);
    } else if f.at.Push? {
      PushData(c, g, r, f);
    } else {
      if f.at.Ready? || f.at.Adding? || f.at.Pushing? || f.at.Started? || f.at.Consumed? {
        QuietPost(c, g, r, f, hit);
      } else if f.at.Count? || f.at.Free? || f.at.Ret? {
        QuietSignal(c, g, r, f, hit);
      } else if f.at.Scan? || f.at.ScanIn? || f.at.Popped? || f.at.Testing? {
        QuietScan(c, g, r, f, hit);
      } else {
        QuietPut(c, g, r, f, hit);
      }
      SmallerData(c, g, g');
    }
  }

  // ---------------------------------------------------------------- kinds of entries

  lemma DequesKept(c: Config, g: Data, g': Data)
    requires Typed(c, g) && g.ops <= g'.ops && g'.deques == g.deques
    ensures forall m: nat, i: nat :: i < |Deque(g', m)| ==> DeqOk(c, g', m, Deque(g', m)[i])
  {
    hide SlotOk;
    forall m: nat, i: nat | i < |Deque(g', m)| ensures DeqOk(c, g', m, Deque(g', m)[i]) {
      assert DeqOk(c, g, m, Deque(g, m)[i]);
    }
  }

  lemma SlotsKept(c: Config, g: Data, g': Data)
    requires Typed(c, g) && g.ops <= g'.ops && g'.slots == g.slots
    ensures forall d: nat :: d < |c.devs| ==> SlotOk(c, g', d, Slot(g', d))
    ensures forall d: nat :: d >= |c.devs| ==> !Slot(g', d).active
  {
    hide SlotOp, DeqOk;
    forall d: nat | d < |c.devs| ensures SlotOk(c, g', d, Slot(g', d)) {
      assert SlotOk(c, g, d, Slot(g, d));
    }
    forall d: nat | d >= |c.devs| ensures !Slot(g', d).active {
      assert !Slot(g, d).active;
    }
  }

  lemma QueuesKept(c: Config, g: Data, g': Data)
    requires Typed(c, g) && g.ops <= g'.ops && g'.queues == g.queues
    ensures forall q: nat, i: nat :: i < |Queue(g', q)| ==>
              Queue(g', q)[i].id < |g'.ops| && g'.ops[Queue(g', q)[i].id].comp == q
  {
    hide SlotOk, DeqOk;
    forall q: nat, i: nat | i < |Queue(g', q)|
      ensures Queue(g', q)[i].id < |g'.ops| && g'.ops[Queue(g', q)[i].id].comp == q
    {
      assert Queue(g, q)[i].id < |g.ops| && g.ops[Queue(g, q)[i].id].comp == q;
    }
  }

  lemma GrowTyped(c: Config, g: Data, g': Data)
    requires Typed(c, g) && g.ops <= g'.ops
    requires g'.deques == g.deques && g'.slots == g.slots && g'.queues == g.queues
    ensures Typed(c, g')
  {
    DequesKept(c, g, g');
    SlotsKept(c, g, g');
    QueuesKept(c, g, g');
    hide SlotOk, DeqOk, Deque, Slot, Queue;
  }

  lemma PushBackTyped(c: Config, g: Data, m: nat, e: Entry)
    requires Typed(c, g) && DeqOk(c, g, m, e)
    ensures Typed(c, PushBack(g, m, e))
  {
    var g' := PushBack(g, m, e);
    SlotsKept(c, g, g');
    QueuesKept(c, g, g');
    hide SlotOk, Slot, Queue;
    forall k: nat, i: nat | i < |Deque(g', k)| ensures DeqOk(c, g', k, Deque(g', k)[i]) {
      if k != m || i < |Deque(g, m)| {
        assert DeqOk(c, g, k, Deque(g, k)[i]);
      }
    }
  }

  lemma PopFrontTyped(c: Config, g: Data, m: nat)
    requires Typed(c, g) && Deque(g, m) != []
    ensures Typed(c, PopFront(g, m))
  {
    var g' := PopFront(g, m);
    SlotsKept(c, g, g');
    QueuesKept(c, g, g');
    hide SlotOk, Slot, Queue;
    forall k: nat, i: nat | i < |Deque(g', k)| ensures DeqOk(c, g', k, Deque(g', k)[i]) {
      assert DeqOk(c, g, k, Deque(g, k)[if k == m then i + 1 else i]);
    }
  }

  lemma SetSlotTyped(c: Config, g: Data, d: nat, e: Entry)
    requires Typed(c, g) && SlotOk(c, g, d, e) && d < |c.devs|
    ensures Typed(c, SetSlot(g, d, e))
  {
    var g' := SetSlot(g, d, e);
    DequesKept(c, g, g');
    QueuesKept(c, g, g');
    hide DeqOk, Deque, Queue, SlotOp;
    forall k: nat | k < |c.devs| ensures SlotOk(c, g', k, Slot(g', k)) {
      assert SlotOk(c, g, k, Slot(g, k));
    }
    forall k: nat | k >= |c.devs| ensures !Slot(g', k).active {
      assert !Slot(g, k).active;
    }
  }

  lemma PushCellTyped(c: Config, g: Data, q: nat, id: nat, r: Record)
    requires Typed(c, g) && id < |g.ops| && g.ops[id].comp == q
    ensures Typed(c, PushCell(g, q, id, r))
  {
    var g' := PushCell(g, q, id, r);
    SlotsKept(c, g, g');
    DequesKept(c, g, g');
    hide SlotOk, Slot, DeqOk, Deque;
    forall k: nat, i: nat | i < |Queue(g', k)|
      ensures Queue(g', k)[i].id < |g'.ops| && g'.ops[Queue(g', k)[i].id].comp == k
    {
      if k != q || i < |Queue(g, q)| {
        assert Queue(g, k)[i].id < |g.ops| && g.ops[Queue(g, k)[i].id].comp == k;
      }
    }
  }

  lemma PopCellTyped(c: Config, g: Data, q: nat)
    requires Typed(c, g) && Queue(g, q) != []
    ensures Typed(c, PopCell(g, q))
  {
    var g' := PopCell(g, q);
    SlotsKept(c, g, g');
    DequesKept(c, g, g');
    hide SlotOk, Slot, DeqOk, Deque;
    forall k: nat, i: nat | i < |Queue(g', k)|
      ensures Queue(g', k)[i].id < |g'.ops| && g'.ops[Queue(g', k)[i].id].comp == k
    {
      var x := Queue(g, k)[if k == q then i + 1 else i];
      assert x.id < |g.ops| && g.ops[x.id].comp == k;
    }
  }
}
