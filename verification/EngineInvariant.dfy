/**
 The inductive invariant of the completion engine: who holds which lock, where
 every operation and every heap record is, and what each of them holds.
 */
module EngineInvariant {
  import opened Basics
  import opened Wrappers
  import opened EngineModel

  // ---------------------------------------------------------------- locks

  predicate HoldsPut(a: Loc) {
    a.PutIn? || a.PutTest? || a.PutBack? || a.Repost? || a.RepostIn? || a.RepostOut?
  }

  predicate HoldsMgr(a: Loc) { a.ScanIn? || a.Popped? || a.Testing? || a.Tested? }

  /** In the stream section of the device it works on. */
  predicate InDevStream(a: Loc) { a.PutTest? || a.RepostIn? }

  /** In the stream section of its entry's device. */
  predicate InEntryStream(a: Loc) { a.Posting? || a.Testing? }

  /** Whether a thread with frame `f` holds lock `l`. */
  predicate Holds(c: Config, f: Frame, l: Lock) {
    match l
    case PutLock(d) => HoldsPut(f.at) && f.d == d
    case MgrLock(m) => (f.at == Pushing && Dev(c, f.e.dev).mgr == m) || (HoldsMgr(f.at) && Dev(c, f.d).mgr == m)
    case StreamLock(d) =>
      c.useStream && ((InDevStream(f.at) && f.d == d) || (InEntryStream(f.at) && f.e.dev == d))
  }

  /** A lock is owned exactly by the thread whose frame says so. */
  ghost predicate LockInv(c: Config, s: State) {
    forall t: nat, l :: Holds(c, Fr(s, t), l) <==> l in s.locks && s.locks[l] == t
  }

  // ---------------------------------------------------------------- places

  /** Where an operation or a record can be: in a thread's hand (the one with the entry it works
      on, or the other with the put receive it is posting), in a deque, in a put slot, in a queue, or
      handed to the user. */
  datatype Place = Hand(t: nat, other: bool) | Deq(m: nat, i: nat) | Slt(d: nat) | Cel(q: nat, i: nat) | Don(r: nat, i: nat)

  /** How far an operation is: not posted yet; posted with its record as the user gave it;
      its record filled in; counted down as well; its copy in a queue and only the record
      left to delete; handed to the user. */
  datatype Stage = Unposted | Fresh | Final | Counted | Husk | Gone(record: Record)

  datatype Item = Item(id: nat, ptr: nat, active: bool, stage: Stage)

  function Of(e: Entry, stage: Stage): Item { Item(e.id, e.ptr, e.active, stage) }

  /** The thread has taken the completed entry out of the put slot and not stored a new one. */
  predicate Took(f: Frame) { (f.at.PutBack? && f.hit) || f.at.Repost? || f.at.RepostIn? || f.at.RepostOut? }

  function HandItem(f: Frame, other: bool): Option<Item> {
    if !other then
      match f.at
      case Ready => Some(Of(f.e, Unposted))
      case Posting => Some(Of(f.e, Unposted))
      case Adding => Some(Of(f.e, Fresh))
      case Pushing => Some(Of(f.e, Fresh))
      case PutBack => if f.hit then Some(Of(f.e, Fresh)) else None
      case Repost => Some(Of(f.e, Final))
      case RepostIn => Some(Of(f.e, Final))
      case RepostOut => Some(Of(f.e, Final))
      case Popped => Some(Of(f.e, Fresh))
      case Testing => Some(Of(f.e, Fresh))
      case Tested => Some(Of(f.e, Fresh))
      case Sub => Some(Of(f.e, Final))
      case Count => Some(Of(f.e, Counted))
      case Push => Some(Of(f.e, Counted))
      case Free => Some(Of(f.e, Husk))
      case _ => None
    else
      match f.at
      case Repost => Some(Of(f.ne, Unposted))
      case RepostIn => Some(Of(f.ne, Unposted))
      case RepostOut => Some(Of(f.ne, Fresh))
      case _ => None
  }

  /** The items outside the threads' hands. */
  function DataItem(g: Data, p: Place): Option<Item> {
    match p
    case Hand(_, _) => None
    case Deq(m, i) => if i < |Deque(g, m)| then Some(Of(Deque(g, m)[i], Fresh)) else None
    case Slt(d) => if Slot(g, d).active then Some(Of(Slot(g, d), Fresh)) else None
    case Cel(q, i) =>
      if i < |Queue(g, q)| then Some(Item(Queue(g, q)[i].id, Queue(g, q)[i].ptr, false, Counted)) else None
    case Don(r, i) =>
      if i < |Done(g, r)| then Some(Item(Done(g, r)[i].id, 0, false, Gone(Done(g, r)[i].record))) else None
  }

  function ItemAt(s: State, p: Place): Option<Item> {
    if p.Hand? then HandItem(Fr(s, p.t), p.other) else DataItem(s.g, p)
  }

  /** Two things are tracked: operations and heap pointers. */
  datatype View = Ids | Ptrs

  function TokenOf(v: View, y: Option<Item>): Option<nat> {
    if y.None? then None
    else if v == Ids then (if y.value.stage.Husk? then None else Some(y.value.id))
    else (if y.value.stage.Gone? then None else Some(y.value.ptr))
  }

  function Look(s: State, v: View, p: Place): Option<nat> { TokenOf(v, ItemAt(s, p)) }

  /** No two places hold the same operation, nor the same pointer. */
  ghost predicate Unique(s: State, v: View) {
    forall p, q :: Look(s, v, p).Some? && Look(s, v, p) == Look(s, v, q) ==> p == q
  }

  predicate Exists(g: Data, v: View, n: nat) { if v == Ids then n < |g.ops| else n in g.heap }

  ghost predicate Somewhere(s: State, v: View, n: nat) { exists p :: Look(s, v, p) == Some(n) }

  /** Exactly the operations ever posted, and exactly the live pointers, are somewhere. */
  ghost predicate Total(s: State, v: View) { forall n: nat :: Exists(s.g, v, n) <==> Somewhere(s, v, n) }

  // ---------------------------------------------------------------- what an item holds

  /** What the user is told about operation `id`: the posted record, except that a receive
      carries the sender's rank and tag and the message's length, and a put signal a
      private copy of the message. */
  function FinalRecord(c: Config, g: Data, id: nat): Record {
    var o := Info(g, id);
    match o.record.op
    case RECV => WithStatus(c, g, id, o.record)
    case PUT_SIGNAL =>
      if id in g.got then WithStatus(c, g, id, o.record).(buffer := Private(Info(g, g.got[id]).data)) else o.record
    case _ => o.record
  }

  predicate Received(g: Data, id: nat) { IsSendKind(Info(g, id).record.op) || id in g.got }

  /** The receive buffer of device `d` holds the message that operation `id` received. */
  predicate RbufHas(g: Data, d: nat, id: nat) {
    id in g.got ==> Info(g, g.got[id]).data <= Rbuf(g, d)
  }

  predicate Stored(g: Data, ptr: nat, r: Record) { ptr in g.heap && g.heap[ptr] == r }

  predicate CountedDown(c: Config, g: Data, id: nat) { Throttled(c, Info(g, id).record.op) ==> id in g.down }

  /** Operation `id` has not reached MPI. */
  ghost predicate Untouched(g: Data, id: nat) {
    id !in g.wire && id !in g.got && forall q :: q in g.got ==> g.got[q] != id
  }

  ghost predicate ItemOk(c: Config, g: Data, y: Item) {
    if y.stage.Husk? then y.ptr in g.heap
    else
      && y.id < |g.ops| && (y.id in g.reqs <==> y.active)
      && match y.stage
         case Unposted => Stored(g, y.ptr, g.ops[y.id].record) && y.id !in g.down && !y.active && Untouched(g, y.id)
         case Fresh =>
           && Stored(g, y.ptr, g.ops[y.id].record) && y.id !in g.down && (y.active || Received(g, y.id))
           && (g.ops[y.id].record.op == PUT_SIGNAL ==> RbufHas(g, g.ops[y.id].record.dev, y.id))
         case Final => Stored(g, y.ptr, FinalRecord(c, g, y.id)) && y.id !in g.down && !y.active && Received(g, y.id)
         case Counted =>
           Stored(g, y.ptr, FinalRecord(c, g, y.id)) && CountedDown(c, g, y.id) && !y.active && Received(g, y.id)
         case Gone(r) => r == FinalRecord(c, g, y.id) && CountedDown(c, g, y.id) && !y.active && Received(g, y.id)
  }

  /** An entry agrees with the log of operations. */
  predicate EntryOk(g: Data, e: Entry) {
    e.id < |g.ops| && g.ops[e.id].record.dev == e.dev && g.ops[e.id].comp == e.comp
  }

  predicate DeqOk(c: Config, g: Data, m: nat, e: Entry) {
    EntryOk(g, e) && g.ops[e.id].record.op != PUT_SIGNAL && e.dev < |c.devs| && Dev(c, e.dev).mgr == m
  }

  predicate SlotOk(c: Config, g: Data, d: nat, e: Entry) {
    e.id < |g.ops| && g.ops[e.id] == SlotOp(c, d) && e.dev == d && e.comp == Dev(c, d).putComp
  }

  /** The entries in the containers agree with the log, and are of the right kind. */
  ghost predicate Typed(c: Config, g: Data) {
    && (forall m: nat, i: nat :: i < |Deque(g, m)| ==> DeqOk(c, g, m, Deque(g, m)[i]))
    && (forall d: nat :: d < |c.devs| ==> SlotOk(c, g, d, Slot(g, d)))
    && (forall d: nat :: d >= |c.devs| ==> !Slot(g, d).active)
    && (forall q: nat, i: nat :: i < |Queue(g, q)| ==>
          Queue(g, q)[i].id < |g.ops| && g.ops[Queue(g, q)[i].id].comp == q)
  }

  // ---------------------------------------------------------------- what a thread knows

  predicate HandPost(c: Config, g: Data, r: nat, f: Frame) {
    ValidPost(c, r, f.o) && EntryOk(g, f.e) && g.ops[f.e.id] == f.o
  }

  predicate DevIs(c: Config, r: nat, d: nat) { d < |c.devs| && Dev(c, d).rank == r }

  predicate HandScan(c: Config, g: Data, r: nat, f: Frame) { DeqOk(c, g, Dev(c, f.d).mgr, f.e) }

  predicate HandSignal(c: Config, g: Data, r: nat, f: Frame) {
    f.hit && EntryOk(g, f.e) && DevIs(c, r, f.e.dev) && f.e.comp < |c.comps| && (f.fromPut ==> DevIs(c, r, f.d) && Fresh0(f))
  }

  predicate SlotKnown(g: Data, f: Frame) {
    && (HoldsPut(f.at) ==> Slot(g, f.d).active == !Took(f))
    && (f.at.RepostOut? ==> f.ne.active)
  }

  predicate Fresh0(f: Frame) { !f.made && f.sig == 0 }

  /** What holds of the locals of a thread of process `r`, by location. */
  predicate FrameOk(c: Config, g: Data, r: nat, f: Frame) {
    && SlotKnown(g, f)
    && match f.at
       case Idle => true
       case Loaded => ValidPost(c, r, f.o) && Throttled(c, f.o.record.op)
       case Ready => HandPost(c, g, r, f)
       case Posting => HandPost(c, g, r, f)
       case Adding => HandPost(c, g, r, f)
       case Pushing => HandPost(c, g, r, f)
       case Started => ValidPost(c, r, f.o)
       case Consumed => true
       case PutIn => DevIs(c, r, f.d) && Fresh0(f)
       case PutTest => DevIs(c, r, f.d) && Fresh0(f)
       case PutBack => DevIs(c, r, f.d) && Fresh0(f) && (f.hit ==> SlotOk(c, g, f.d, f.e) && f.e.id in g.got && !f.e.active)
       case Repost => f.hit && DevIs(c, r, f.d) && Fresh0(f) && SlotOk(c, g, f.d, f.e) && SlotOk(c, g, f.d, f.ne)
       case RepostIn => f.hit && DevIs(c, r, f.d) && Fresh0(f) && SlotOk(c, g, f.d, f.e) && SlotOk(c, g, f.d, f.ne)
       case RepostOut => f.hit && DevIs(c, r, f.d) && Fresh0(f) && SlotOk(c, g, f.d, f.e) && SlotOk(c, g, f.d, f.ne)
       case Scan => DevIs(c, r, f.d) && f.made == (f.sig > 0)
       case ScanIn => DevIs(c, r, f.d) && f.made == (f.sig > 0)
       case Popped => DevIs(c, r, f.d) && f.made == (f.sig > 0) && HandScan(c, g, r, f)
       case Testing => DevIs(c, r, f.d) && f.made == (f.sig > 0) && HandScan(c, g, r, f) && f.e.active
       case Tested =>
         DevIs(c, r, f.d) && f.made == (f.sig > 0) && HandScan(c, g, r, f) && (f.hit ==> !f.e.active)
       case Sub => HandSignal(c, g, r, f)
       case Count => HandSignal(c, g, r, f)
       case Push => HandSignal(c, g, r, f)
       case Free => f.hit && (f.fromPut ==> DevIs(c, r, f.d)) && f.sig > 0
       case Ret => f.made == (f.sig > 0)
  }

  // ---------------------------------------------------------------- shared data

  /** Matching is one-to-one, between a send and a receive that agree. */
  ghost predicate GotInv(c: Config, g: Data) {
    && (forall k :: k in g.wire ==> k < |g.ops| && IsSendKind(g.ops[k].record.op))
    && (forall q :: q in g.got ==>
          && q < |g.ops| && g.got[q] < |g.ops| && g.got[q] !in g.wire
          && !IsSendKind(g.ops[q].record.op) && IsSendKind(g.ops[g.got[q]].record.op)
          && Matches(c, g.ops[g.got[q]], g.ops[q]))
    && (forall p, q :: p in g.got && q in g.got && g.got[p] == g.got[q] ==> p == q)
  }

  ghost predicate HeapInv(g: Data) { forall x :: x in g.heap ==> x < g.nextPtr }

  /** Only operations in the log have requests or were counted down. */
  ghost predicate IdsInv(g: Data) { forall k :: k in g.reqs || k in g.down ==> k < |g.ops| }

  ghost predicate RbufInv(c: Config, g: Data) {
    forall d: nat :: d < |c.devs| ==> |Rbuf(g, d)| == Dev(c, d).capacity
  }

  ghost predicate OpsInv(c: Config, g: Data) { forall k :: 0 <= k < |g.ops| ==> OpOk(c, g.ops[k]) }

  ghost predicate DataInv(c: Config, g: Data) {
    GotInv(c, g) && IdsInv(g) && HeapInv(g) && RbufInv(c, g) && OpsInv(c, g)
  }

  /** Every operation in the log belongs to a device and names a completion object of its process. */
  predicate OpOk(c: Config, o: OpInfo) {
    && o.record.dev < |c.devs| && o.comp < |c.comps| && Comp(c, o.comp).rank == Dev(c, o.record.dev).rank
    && (o.record.op == PUT_SIGNAL ==> o == SlotOp(c, o.record.dev))
    && (o.record.op == PUT ==> o.record.tag == PutTag(c, o.record.dev))
  }

  ghost predicate ItemsOk(c: Config, s: State) { forall p :: ItemAt(s, p).Some? ==> ItemOk(c, s.g, ItemAt(s, p).value) }

  ghost predicate FramesOk(c: Config, s: State) { forall t: nat :: FrameOk(c, s.g, RankOf(c, t), Fr(s, t)) }

  ghost predicate SlotsLive(c: Config, s: State) {
    forall d: nat :: d < |c.devs| && PutLock(d) !in s.locks ==> Slot(s.g, d).active
  }

  /** The whole invariant. */
  ghost predicate Inv(c: Config, s: State) {
    && ValidConfig(c) && LockInv(c, s) && DataInv(c, s.g) && Typed(c, s.g) && FramesOk(c, s) && SlotsLive(c, s)
    && ItemsOk(c, s) && Unique(s, Ids) && Unique(s, Ptrs) && Total(s, Ids) && Total(s, Ptrs)
  }
}
