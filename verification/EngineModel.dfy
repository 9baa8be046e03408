/**
 The MPI backend's completion engine as a state machine.

 Every thread of every process has a frame: one program location and the local
 variables of the call it is in.  A step is one lock acquisition, one
 critical-section body that ends in a release, one atomic operation or one MPI
 call; two monitoring counters bumped back to back share a step.  Relaxed
 atomics are interleaved in one total order.  The two unlocked hint reads (of
 `put_entry.mpi_req` and of `entries.empty()`) are arbitrary booleans, so
 nothing proved here can depend on them.  MPI is an environment that matches
 messages with posted receives on communicator, source and tag, in any order,
 and reports completions whenever it likes.
 */
module EngineModel {
  import opened Basics
  import opened Wrappers

  /** Where a record's buffer pointer points: user memory, the device's
      `put_rbuf`, or a private allocation holding the given bytes. */
  datatype Buffer = User(address: nat) | PutRbuf(device: nat) | Private(bytes: Bytes)

  /** The source's `request_t`. */
  datatype Record = Record(op: Op, dev: nat, rank: int, tag: int, buffer: Buffer, length: int, ctx: int)

  /** The arguments of a post; the log of all of them gives every operation an identity. */
  datatype OpInfo = OpInfo(record: Record, comp: nat, data: Bytes)

  /** The source's `entry_t`: `active` says that `mpi_req` is not null, `ptr` is the
      heap address of the record and `id` the operation it stands for. */
  datatype Entry = Entry(active: bool, dev: nat, comp: nat, ptr: nat, id: nat)

  /** A heap copy of a record sitting in a completion queue. */
  datatype Cell = Cell(ptr: nat, id: nat)

  datatype Delivery = Delivery(id: nat, record: Record)

  datatype DevCfg = DevCfg(rank: nat, comm: nat, maxTag: int, mgr: nat, putComp: nat, capacity: nat)

  datatype CompCfg = CompCfg(rank: nat, isQueue: bool)

  /** `threads` gives the process of every thread, `mgrs` that of every completion manager. */
  datatype Config = Config(threads: seq<nat>, devs: seq<DevCfg>, mgrs: seq<nat>,
                           comps: seq<CompCfg>, useStream: bool, pendingMax: int)

  datatype Lock = PutLock(dev: nat) | MgrLock(mgr: nat) | StreamLock(dev: nat)

  datatype Loc =
    | Idle
      // lcw::send, recv, put and poll_cq
    | Loaded      // passed the throttle check, has not incremented yet
    | Ready       // record allocated, wants the stream lock
    | Posting     // in the stream section, before isend or irecv
    | Adding      // wants the manager lock
    | Pushing     // holds the manager lock
    | Started     // about to count the start
    | Consumed    // popped a record from a queue, about to count it
      // do_progress, put part
    | PutIn       // holds the put lock
    | PutTest     // and is in the stream section
    | PutBack     // tested and out of the stream section; `hit` says with success
    | Repost      // copied out, new record allocated, wants the stream lock
    | RepostIn    // in the stream section, before irecv
    | RepostOut   // out of the stream section, about to store the slot
      // do_progress, manager part
    | Scan        // about to look at the deque
    | ScanIn      // holds the manager lock
    | Popped      // and has popped an entry
    | Testing     // and is in the entry's stream section
    | Tested      // tested and out of the stream section; `hit` says with success
      // mpi::signal_comp
    | Sub         // about to decrement the pending counter
    | Count       // about to count the end and the production
    | Push        // about to hand a copy to the completion object
    | Free        // about to delete the record
    | Ret         // do_progress returns `made`

  /** A program location and the locals of the current call: the arguments of a post, the
      device of a do_progress, the entry in hand, the put receive being reposted, the
      progress made, the number of completions this call signalled, the outcome of the
      last test, and whether the completion being signalled is the put part's. */
  datatype Frame = Frame(at: Loc, o: OpInfo, d: nat, e: Entry, ne: Entry,
                         made: bool, sig: nat, hit: bool, fromPut: bool)

  datatype Counters = Counters(sendStart: int, sendEnd: int, putStart: int, putEnd: int, recvStart: int,
                               recvEnd: int, putSignal: int, produce: int, consume: int, retry: int)

  /** Everything the threads share except the locks.  A key missing from a map stands for
      the initial value. */
  datatype Data = Data(
    deques: map<nat, seq<Entry>>,   // by manager
    slots: map<nat, Entry>,         // put_entry, by device
    rbuf: map<nat, Bytes>,          // put_rbuf, by device
    queues: map<nat, seq<Cell>>,    // by completion object
    done: map<nat, seq<Delivery>>,  // handed to the user, by process
    heap: map<nat, Record>,
    nextPtr: nat,
    ops: seq<OpInfo>,
    reqs: set<nat>,                 // operations whose MPI request is active
    wire: set<nat>,                 // sends posted and not yet matched
    got: map<nat, nat>,             // receive operation -> the send it received
    down: set<nat>,                 // history: operations that were counted down
    pending: map<nat, int>,         // g_pending_msg of each process
    ctr: map<nat, Counters>)

  /** `locks` says which thread holds each lock that is held. */
  datatype State = State(frames: map<nat, Frame>, locks: map<Lock, nat>, g: Data)

  // ---------------------------------------------------------------- accessors

  const NO_RECORD := Record(SEND, 0, 0, 0, User(0), 0, 0)
  const NO_ENTRY := Entry(false, 0, 0, 0, 0)
  const NO_OP := OpInfo(NO_RECORD, 0, [])
  const IDLE := Frame(Idle, NO_OP, 0, NO_ENTRY, NO_ENTRY, false, 0, false, false)

  function Dev(c: Config, d: nat): DevCfg {
    if d < |c.devs| then c.devs[d] else DevCfg(0, 0, 0, 0, 0, 0)
  }

  function Comp(c: Config, q: nat): CompCfg {
    if q < |c.comps| then c.comps[q] else CompCfg(0, true)
  }

  function RankOf(c: Config, t: nat): nat { if t < |c.threads| then c.threads[t] else 0 }

  function Fr(s: State, t: nat): Frame { if t in s.frames then s.frames[t] else IDLE }

  function Deque(g: Data, m: nat): seq<Entry> { if m in g.deques then g.deques[m] else [] }

  function Slot(g: Data, d: nat): Entry { if d in g.slots then g.slots[d] else NO_ENTRY }

  function Rbuf(g: Data, d: nat): Bytes { if d in g.rbuf then g.rbuf[d] else [] }

  function Queue(g: Data, q: nat): seq<Cell> { if q in g.queues then g.queues[q] else [] }

  function Done(g: Data, r: nat): seq<Delivery> { if r in g.done then g.done[r] else [] }

  /** A dangling pointer reads as a fixed record; no reachable state reads one. */
  function Load(g: Data, ptr: nat): Record { if ptr in g.heap then g.heap[ptr] else NO_RECORD }

  function Info(g: Data, id: nat): OpInfo { if id < |g.ops| then g.ops[id] else NO_OP }

  function Pending(g: Data, r: nat): int { if r in g.pending then g.pending[r] else 0 }

  function Ctr(g: Data, r: nat): Counters {
    if r in g.ctr then g.ctr[r] else Counters(0, 0, 0, 0, 0, 0, 0, 0, 0, 0)
  }

  ghost predicate ValidConfig(c: Config) {
    && (forall d :: 0 <= d < |c.devs| ==>
          && c.devs[d].mgr < |c.mgrs| && c.mgrs[c.devs[d].mgr] == c.devs[d].rank
          && c.devs[d].putComp < |c.comps| && c.comps[c.devs[d].putComp].rank == c.devs[d].rank)
    // a communicator belongs to one device of each process and has one MPI_TAG_UB
    && (forall d, e :: 0 <= d < |c.devs| && 0 <= e < |c.devs| && c.devs[d].comm == c.devs[e].comm ==>
          c.devs[d].maxTag == c.devs[e].maxTag && (c.devs[d].rank == c.devs[e].rank ==> d == e))
  }

  /** The tag split of alloc_device. */
  function PutTag(c: Config, d: nat): int { Dev(c, d).maxTag }

  function MaxUserTag(c: Config, d: nat): int { Dev(c, d).maxTag - 1 }

  // ---------------------------------------------------------------- helpers

  predicate IsSendKind(k: Op) { k == SEND || k == PUT }

  predicate Throttled(c: Config, k: Op) { c.pendingMax > 0 && IsSendKind(k) }

  /** The receive that post_put_recv posts. */
  function SlotOp(c: Config, d: nat): OpInfo {
    OpInfo(Record(PUT_SIGNAL, d, -1, PutTag(c, d), PutRbuf(d), Dev(c, d).capacity, 0), Dev(c, d).putComp, [])
  }

  /** The rank, tag and count that MPI_Test and MPI_Get_count report for a matched receive. */
  function WithStatus(c: Config, g: Data, id: nat, r: Record): Record {
    if id in g.got then
      var m := Info(g, g.got[id]);
      r.(rank := Dev(c, m.record.dev).rank, tag := m.record.tag, length := |m.data|)
    else r
  }

  function NewEntry(g: Data, o: OpInfo): Entry {
    Entry(false, o.record.dev, o.comp, g.nextPtr, |g.ops|)
  }

  // Changes to the shared data.

  /** Allocates the record of a post. */
  function Birth(g: Data, o: OpInfo): Data {
    g.(heap := g.heap[g.nextPtr := o.record], nextPtr := g.nextPtr + 1, ops := g.ops + [o])
  }

  /** isend or irecv; `active` is false when MPI returns a null request. */
  function Issue(g: Data, id: nat, send: bool, active: bool): Data {
    g.(wire := if send then g.wire + {id} else g.wire, reqs := if active then g.reqs + {id} else g.reqs)
  }

  /** A successful MPI_Test. */
  function Finish(g: Data, id: nat): Data { g.(reqs := g.reqs - {id}) }

  function SetRecord(g: Data, ptr: nat, r: Record): Data { g.(heap := g.heap[ptr := r]) }

  function Delete(g: Data, ptr: nat): Data { g.(heap := g.heap - {ptr}) }

  function PushBack(g: Data, m: nat, e: Entry): Data { g.(deques := g.deques[m := Deque(g, m) + [e]]) }

  function PopFront(g: Data, m: nat): Data
    requires Deque(g, m) != []
  {
    g.(deques := g.deques[m := Deque(g, m)[1..]])
  }

  function SetSlot(g: Data, d: nat, e: Entry): Data { g.(slots := g.slots[d := e]) }

  /** Puts a heap copy of a record into a queue. */
  function PushCell(g: Data, q: nat, id: nat, r: Record): Data {
    g.(heap := g.heap[g.nextPtr := r], nextPtr := g.nextPtr + 1,
       queues := g.queues[q := Queue(g, q) + [Cell(g.nextPtr, id)]])
  }

  /** Hands a record to the user of process `r`. */
  function Give(g: Data, r: nat, x: Delivery): Data { g.(done := g.done[r := Done(g, r) + [x]]) }

  function PopCell(g: Data, q: nat): Data
    requires Queue(g, q) != []
  {
    g.(queues := g.queues[q := Queue(g, q)[1..]], heap := g.heap - {Queue(g, q)[0].ptr})
  }

  function AddPending(g: Data, r: nat, n: int): Data { g.(pending := g.pending[r := Pending(g, r) + n]) }

  function MarkDown(g: Data, id: nat): Data { g.(down := g.down + {id}) }

  function SetCtr(g: Data, r: nat, x: Counters): Data { g.(ctr := g.ctr[r := x]) }

  predicate ValidPost(c: Config, r: nat, o: OpInfo) {
    && o.record.op != PUT_SIGNAL
    && o.record.dev < |c.devs| && Dev(c, o.record.dev).rank == r
    && o.comp < |c.comps| && Comp(c, o.comp).rank == r
    && (o.record.op == PUT ==> o.record.tag == PutTag(c, o.record.dev))
    && (if o.record.op == RECV then o.data == [] else |o.data| == o.record.length)
  }

  datatype LockAction = NoLock | Take(l: Lock) | Drop(l: Lock)

  function EnterStream(c: Config, d: nat): LockAction { if c.useStream then Take(StreamLock(d)) else NoLock }

  function LeaveStream(c: Config, d: nat): LockAction { if c.useStream then Drop(StreamLock(d)) else NoLock }

  /** A call by a thread outside LCW, or the outcome of a hint, a try-lock or a test. */
  datatype Choice =
    | DoPost(o: OpInfo)
    | DoProgress(d: nat, lock: bool)
    | DoPoll(q: nat)
    | Go(hit: bool)

  /** What one step of a thread does: a lock action (taking a lock that is held blocks the
      step), the new shared data, and the thread's new frame. */
  datatype Move = Stuck | Move(lock: LockAction, g: Data, f: Frame)

  // ---------------------------------------------------------------- calls

  /** A refused post counts a retry and returns false at once. */
  function PostCall(c: Config, g: Data, r: nat, o: OpInfo): Move {
    if !ValidPost(c, r, o) then Stuck
    else if !Throttled(c, o.record.op) then
      Move(NoLock, Birth(g, o), IDLE.(at := Ready, o := o, e := NewEntry(g, o)))
    else if Pending(g, r) > c.pendingMax then
      Move(NoLock, SetCtr(g, r, Ctr(g, r).(retry := Ctr(g, r).retry + 1)), IDLE)
    else Move(NoLock, g, IDLE.(at := Loaded, o := o))
  }

  /** `lock` says that the hint was true and the try-lock on the put slot was won. */
  function ProgressCall(c: Config, g: Data, r: nat, d: nat, lock: bool): Move {
    if d >= |c.devs| || Dev(c, d).rank != r then Stuck
    else if lock then Move(Take(PutLock(d)), g, IDLE.(at := PutIn, d := d))
    else Move(NoLock, g, IDLE.(at := Scan, d := d))
  }

  function PollCall(c: Config, g: Data, r: nat, q: nat): Move {
    if q < |c.comps| && Comp(c, q).isQueue && Comp(c, q).rank == r && Queue(g, q) != [] then
      var x := Queue(g, q)[0];
      Move(NoLock, Give(PopCell(g, q), r, Delivery(x.id, Load(g, x.ptr))), IDLE.(at := Consumed))
    else Stuck
  }

  // ---------------------------------------------------------------- send, recv, put, poll_cq

  function LoadedMove(g: Data, r: nat, f: Frame): Move {
    Move(NoLock, Birth(AddPending(g, r, 1), f.o), f.(at := Ready, e := NewEntry(g, f.o)))
  }

  function ReadyMove(c: Config, g: Data, f: Frame): Move {
    Move(EnterStream(c, f.e.dev), g, f.(at := Posting))
  }

  /** isend or irecv.  MPI may return a null request for a send that is already complete. */
  function PostingMove(c: Config, g: Data, f: Frame, hit: bool): Move {
    var send := IsSendKind(Load(g, f.e.ptr).op);
    var active := !(send && hit);
    Move(LeaveStream(c, f.e.dev), Issue(g, f.e.id, send, active), f.(at := Adding, e := f.e.(active := active)))
  }

  function AddingMove(c: Config, g: Data, f: Frame): Move {
    Move(Take(MgrLock(Dev(c, f.e.dev).mgr)), g, f.(at := Pushing))
  }

  function PushingMove(c: Config, g: Data, f: Frame): Move {
    var m := Dev(c, f.e.dev).mgr;
    Move(Drop(MgrLock(m)), PushBack(g, m, f.e), f.(at := Started))
  }

  function StartOf(k: Op, x: Counters): Counters {
    match k
    case SEND => x.(sendStart := x.sendStart + 1)
    case PUT => x.(putStart := x.putStart + 1)
    case _ => x.(recvStart := x.recvStart + 1)
  }

  function StartedMove(g: Data, r: nat, f: Frame): Move {
    Move(NoLock, SetCtr(g, r, StartOf(f.o.record.op, Ctr(g, r))), IDLE)
  }

  function ConsumedMove(g: Data, r: nat): Move {
    Move(NoLock, SetCtr(g, r, Ctr(g, r).(consume := Ctr(g, r).consume + 1)), IDLE)
  }

  // ---------------------------------------------------------------- do_progress, put part

  /** Fills in the record of a completed put receive and copies the data out of put_rbuf. */
  function CopyOut(c: Config, g: Data, d: nat, e: Entry): Data {
    var x := WithStatus(c, g, e.id, Load(g, e.ptr));
    var n := if 0 <= x.length <= |Rbuf(g, d)| then x.length else 0;
    SetRecord(g, e.ptr, x.(buffer := Private(Rbuf(g, d)[..n])))
  }

  function PutInMove(c: Config, g: Data, f: Frame): Move {
    if Slot(g, f.d).active then Move(EnterStream(c, f.d), g, f.(at := PutTest))
    else Move(NoLock, g, f.(at := PutBack, hit := false))
  }

  /** MPI_Test on the put receive; a success nulls the request. */
  function PutTestMove(c: Config, g: Data, f: Frame, hit: bool): Move {
    var e := Slot(g, f.d).(active := false);
    if !hit then Move(LeaveStream(c, f.d), g, f.(at := PutBack, hit := false))
    else if e.id in g.got then
      Move(LeaveStream(c, f.d), SetSlot(Finish(g, e.id), f.d, e), f.(at := PutBack, hit := true, e := e))
    else Stuck
  }

  /** The put part adds its `succeed` to the progress made, the manager part the result of its
      test; neither looks at what was signalled. */
  function Sum(f: Frame, a: Loc): Frame { f.(at := a, made := f.hit || f.made) }

  /** Copies the data out and allocates the record of the next put receive. */
  function PutBackMove(c: Config, g: Data, f: Frame): Move {
    if !f.hit then Move(Drop(PutLock(f.d)), g, Sum(f, Scan))
    else
      Move(NoLock, Birth(CopyOut(c, g, f.d, f.e), SlotOp(c, f.d)), f.(at := Repost, ne := NewEntry(g, SlotOp(c, f.d))))
  }

  function RepostMove(c: Config, g: Data, f: Frame): Move { Move(EnterStream(c, f.d), g, f.(at := RepostIn)) }

  function RepostInMove(c: Config, g: Data, f: Frame): Move {
    Move(LeaveStream(c, f.d), Issue(g, f.ne.id, false, true), f.(at := RepostOut, ne := f.ne.(active := true)))
  }

  function RepostOutMove(g: Data, f: Frame): Move {
    Move(Drop(PutLock(f.d)), SetSlot(g, f.d, f.ne), f.(at := Sub, fromPut := true))
  }

  // ---------------------------------------------------------------- manager_req_t::do_progress

  /** `hit` says that the hint was true and the try-lock was won. */
  function ScanMove(c: Config, g: Data, f: Frame, hit: bool): Move {
    if hit then Move(Take(MgrLock(Dev(c, f.d).mgr)), g, f.(at := ScanIn)) else Move(NoLock, g, f.(at := Ret))
  }

  function ScanInMove(c: Config, g: Data, f: Frame): Move {
    var m := Dev(c, f.d).mgr;
    if Deque(g, m) == [] then Move(Drop(MgrLock(m)), g, f.(at := Ret))
    else Move(NoLock, PopFront(g, m), f.(at := Popped, e := Deque(g, m)[0]))
  }

  function PoppedMove(c: Config, g: Data, f: Frame): Move {
    if f.e.active then Move(EnterStream(c, f.e.dev), g, f.(at := Testing))
    else Move(NoLock, g, f.(at := Tested, hit := true))
  }

  /** MPI_Test on the entry's request; a success nulls it. */
  function TestingMove(c: Config, g: Data, f: Frame, hit: bool): Move {
    if !hit then Move(LeaveStream(c, f.e.dev), g, f.(at := Tested, hit := false))
    else if IsSendKind(Load(g, f.e.ptr).op) || f.e.id in g.got then
      Move(LeaveStream(c, f.e.dev), Finish(g, f.e.id),
           f.(at := Tested, hit := true, e := f.e.(active := false)))
    else Stuck
  }

  /** An incomplete entry goes to the back; a completed receive takes its status. */
  function TestedMove(c: Config, g: Data, f: Frame): Move {
    var m := Dev(c, f.d).mgr;
    var x := Load(g, f.e.ptr);
    if !f.hit then
      Move(Drop(MgrLock(m)), PushBack(g, m, f.e), Sum(f, Ret))
    else
      var g1 := if x.op == RECV then SetRecord(g, f.e.ptr, WithStatus(c, g, f.e.id, x)) else g;
      Move(Drop(MgrLock(m)), g1, f.(at := Sub, fromPut := false))
  }

  // ---------------------------------------------------------------- mpi::signal_comp

  function SubMove(c: Config, g: Data, r: nat, f: Frame): Move {
    if Throttled(c, Load(g, f.e.ptr).op) then
      Move(NoLock, MarkDown(AddPending(g, r, -1), f.e.id), f.(at := Count))
    else Move(NoLock, g, f.(at := Count))
  }

  function EndOf(k: Op, x: Counters): Counters {
    var y := x.(produce := x.produce + 1);
    match k
    case SEND => y.(sendEnd := y.sendEnd + 1)
    case RECV => y.(recvEnd := y.recvEnd + 1)
    case PUT => y.(putEnd := y.putEnd + 1)
    case PUT_SIGNAL => y.(putSignal := y.putSignal + 1)
  }

  function CountMove(g: Data, r: nat, f: Frame): Move {
    Move(NoLock, SetCtr(g, r, EndOf(Load(g, f.e.ptr).op, Ctr(g, r))), f.(at := Push))
  }

  /** A queue gets a heap copy of the record; a handler consumes the record at once. */
  function PushMove(c: Config, g: Data, r: nat, f: Frame): Move {
    var x, f' := Load(g, f.e.ptr), f.(at := Free, sig := f.sig + 1);
    if Comp(c, f.e.comp).isQueue then Move(NoLock, PushCell(g, f.e.comp, f.e.id, x), f')
    else Move(NoLock, Give(g, r, Delivery(f.e.id, x)), f')
  }

  function FreeMove(g: Data, f: Frame): Move {
    Move(NoLock, Delete(g, f.e.ptr), Sum(f, if f.fromPut then Scan else Ret))
  }

  function CallMove(c: Config, g: Data, r: nat, ch: Choice): Move {
    match ch
    case DoPost(o) => PostCall(c, g, r, o)
    case DoProgress(d, lock) => ProgressCall(c, g, r, d, lock)
    case DoPoll(q) => PollCall(c, g, r, q)
    case Go(_) => Stuck
  }

  function GoMove(c: Config, g: Data, r: nat, f: Frame, hit: bool): Move {
    match f.at
    case Idle => Stuck
    case Loaded => LoadedMove(g, r, f)
    case Ready => ReadyMove(c, g, f)
    case Posting => PostingMove(c, g, f, hit)
    case Adding => AddingMove(c, g, f)
    case Pushing => PushingMove(c, g, f)
    case Started => StartedMove(g, r, f)
    case Consumed => ConsumedMove(g, r)
    case PutIn => PutInMove(c, g, f)
    case PutTest => PutTestMove(c, g, f, hit)
    case PutBack => PutBackMove(c, g, f)
    case Repost => RepostMove(c, g, f)
    case RepostIn => RepostInMove(c, g, f)
    case RepostOut => RepostOutMove(g, f)
    case Scan => ScanMove(c, g, f, hit)
    case ScanIn => ScanInMove(c, g, f)
    case Popped => PoppedMove(c, g, f)
    case Testing => TestingMove(c, g, f, hit)
    case Tested => TestedMove(c, g, f)
    case Sub => SubMove(c, g, r, f)
    case Count => CountMove(g, r, f)
    case Push => PushMove(c, g, r, f)
    case Free => FreeMove(g, f)
    case Ret => Move(NoLock, g, IDLE)
  }

  function MoveOf(c: Config, g: Data, r: nat, f: Frame, ch: Choice): Move {
    if f.at == Idle then CallMove(c, g, r, ch)
    else if ch.Go? then GoMove(c, g, r, f, ch.hit)
    else Stuck
  }

  function Apply(s: State, t: nat, m: Move): Option<State> {
    if m.Stuck? then None
    else match m.lock
      case NoLock => Some(State(s.frames[t := m.f], s.locks, m.g))
      case Take(l) => if l in s.locks then None else Some(State(s.frames[t := m.f], s.locks[l := t], m.g))
      case Drop(l) => Some(State(s.frames[t := m.f], s.locks - {l}, m.g))
  }

  /** MPI's matching rule: communicator, destination, source and tag.  A message longer
      than the receive aborts the program, so no run continues past one. */
  predicate Matches(c: Config, m: OpInfo, r: OpInfo) {
    && Dev(c, m.record.dev).comm == Dev(c, r.record.dev).comm
    && m.record.rank == Dev(c, r.record.dev).rank
    && (r.record.rank == -1 || r.record.rank == Dev(c, m.record.dev).rank)
    && m.record.tag == r.record.tag
    && |m.data| <= r.record.length
  }

  predicate CanDeliver(c: Config, g: Data, k: nat, q: nat) {
    && k in g.wire && q in g.reqs && q !in g.got && !IsSendKind(Info(g, q).record.op)
    && Matches(c, Info(g, k), Info(g, q))
  }

  /** MPI delivers the message of send `k` to the posted receive `q`. */
  function DeliverData(g: Data, k: nat, q: nat): Data {
    var m, d := Info(g, k).data, Info(g, q).record.dev;
    var g1 := g.(wire := g.wire - {k}, got := g.got[q := k]);
    if Info(g, q).record.op == PUT_SIGNAL && |m| <= |Rbuf(g, d)|
    then g1.(rbuf := g.rbuf[d := m + Rbuf(g, d)[|m|..]]) else g1
  }

  datatype Label = Thread(t: nat, ch: Choice) | Deliver(k: nat, q: nat)

  function Step(c: Config, s: State, l: Label): Option<State> {
    match l
    case Thread(t, ch) =>
      if t < |c.threads| then Apply(s, t, MoveOf(c, s.g, RankOf(c, t), Fr(s, t), ch)) else None
    case Deliver(k, q) => if CanDeliver(c, s.g, k, q) then Some(s.(g := DeliverData(s.g, k, q))) else None
  }

  /** All devices are allocated and no call has been made: device d's put receive is
      operation d. */
  function InitData(c: Config): Data {
    var nd := |c.devs|;
    Data(map[], map d: nat | d < nd :: Entry(true, d, Dev(c, d).putComp, d, d),
         map d: nat | d < nd :: seq(Dev(c, d).capacity, _ => 0), map[], map[],
         map d: nat | d < nd :: SlotOp(c, d).record, nd, seq(nd, d requires 0 <= d => SlotOp(c, d)),
         set d: nat {:trigger Dev(c, d)} | d < nd, {}, map[], {}, map[], map[])
  }

  function Init(c: Config): State { State(map[], map[], InitData(c)) }

  /** The state after a run, if every step of it was enabled. */
  function Run(c: Config, ls: seq<Label>): Option<State> {
    if ls == [] then Some(Init(c))
    else
      var p := Run(c, ls[..|ls| - 1]);
      if p.None? then None else Step(c, p.value, ls[|ls| - 1])
  }
}
