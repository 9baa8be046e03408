/**
 The multithreaded ping-pong in SEND mode and test mode, as a state machine.

 The ranks below `half` start each exchange; rank r talks to rank r + half.  Every worker
 of every rank runs the same window protocol and reuses the same tags in every
 iteration.  The library is an environment: a receive takes any send of its peer on the
 same device and tag, and so does the put receive that every device keeps posted
 on the largest tag; a receive completes after it was matched; a send completes
 whenever the library likes, and if that is before its receive was matched, the message
 leaves the send buffer at that moment.  A failed poll or a refused send changes nothing and
 is not a step.
 */
module PingPongModel {
  import opened Basics
  import opened Wrappers
  import opened Payload
  import opened Layout

  /** `sizes` are the message sizes of the outer loop; `pendingMax` is the throttle's limit, zero
      for none; `maxTag` is MPI_TAG_UB. */
  datatype Config = Config(half: nat, nworkers: nat, ndevices: nat, sendWindow: nat, recvWindow: nat, niters: nat,
                           sizes: seq<nat>, pendingMax: nat, maxTag: nat, gen: Seed -> Draw)

  predicate ValidConfig(c: Config) {
    c.half > 0 && c.nworkers > 0 && c.ndevices > 0 && c.sendWindow > 0 && c.recvWindow > 0
  }

  datatype Role = Sender | Receiver

  datatype Party = Party(rank: nat, w: nat)

  datatype Phase = PostR | PostS | PollS | PollR

  /** Where a worker is: `idx` operations of this phase are done.  At `iter == niters` it waits at
      the barrier of this size. */
  datatype PC = PC(size: nat, iter: nat, phase: Phase, idx: nat)

  /** An operation: the send or receive that worker `w` of `rank` posts as number `j` of its window. */
  datatype Key = Key(rank: nat, w: nat, send: bool, size: nat, iter: nat, j: nat)

  // ---------------------------------------------------------------- the program

  function RoleOf(c: Config, rank: nat): Role { if rank < c.half then Sender else Receiver }

  function Peer(c: Config, rank: nat): nat
    requires c.half > 0
  {
    (rank + c.half) % (2 * c.half)
  }

  /** The sender sends `send_window` messages and gets `recv_window` back. */
  function Window(c: Config, role: Role, send: bool): nat {
    if role.Sender? == send then c.sendWindow else c.recvWindow
  }

  function Order(role: Role, ph: Phase): nat {
    match ph
    case PostR => 0
    case PostS => if role.Sender? then 1 else 2
    case PollS => if role.Sender? then 2 else 3
    case PollR => if role.Sender? then 3 else 1
  }

  function PhaseAfter(role: Role, ph: Phase): Phase {
    match ph
    case PostR => if role.Sender? then PostS else PollR
    case PostS => PollS
    case PollS => PollR
    case PollR => PostS
  }

  predicate IsSend(ph: Phase) { ph.PostS? || ph.PollS? }

  predicate IsPost(ph: Phase) { ph.PostR? || ph.PostS? }

  function PostOf(send: bool): Phase { if send then PostS else PostR }

  function PollOf(send: bool): Phase { if send then PollS else PollR }

  function Length(c: Config, role: Role, ph: Phase): nat { Window(c, role, IsSend(ph)) }

  /** The program counter after one more operation of the phase. */
  function Next(c: Config, role: Role, pc: PC): PC {
    if pc.idx + 1 < Length(c, role, pc.phase) then pc.(idx := pc.idx + 1)
    else if Order(role, pc.phase) < 3 then pc.(phase := PhaseAfter(role, pc.phase), idx := 0)
    else pc.(iter := pc.iter + 1, phase := PostR, idx := 0)
  }

  function Tag(c: Config, w: nat, j: nat): nat { w + j * c.nworkers }

  /** The tag of the put receive; users may use the tags below it. */
  function PutTag(c: Config): nat { c.maxTag }

  function Widest(c: Config): nat { if c.sendWindow >= c.recvWindow then c.sendWindow else c.recvWindow }

  /** All tags of the exchange are within get_max_tag. */
  predicate TagsFit(c: Config) { c.nworkers * Widest(c) <= c.maxTag }

  function DeviceOf(c: Config, w: nat): nat
    requires c.nworkers > 0 && c.ndevices > 0
  {
    DeviceIndex(c.nworkers, c.ndevices, w)
  }

  function MsgSize(c: Config, size: nat): nat { if size < |c.sizes| then c.sizes[size] else 0 }

  // ---------------------------------------------------------------- requests and their records

  datatype BufferName = SendBuffer | RecvBuffer

  /** Each worker allocates both buffers anew for each size. */
  datatype Address = Address(owner: Party, size: nat, name: BufferName, offset: nat)

  datatype Device = Device(rank: nat, index: nat)

  datatype Request = Request(op: Op, device: Device, rank: nat, tag: nat, buffer: Address, length: nat, ctx: nat)

  function Owner(k: Key): Party { Party(k.rank, k.w) }

  /** The sender sends from send_buffer and receives into recv_buffer; the receiver the other
      way round. */
  function BufferOf(role: Role, send: bool): BufferName { if role.Sender? == send then SendBuffer else RecvBuffer }

  function Requested(c: Config, k: Key): Request
    requires ValidConfig(c)
  {
    Request(if k.send then SEND else RECV, Device(k.rank, DeviceOf(c, k.w)), Peer(c, k.rank), Tag(c, k.w, k.j),
            Address(Owner(k), k.size, BufferOf(RoleOf(c, k.rank), k.send), k.j * MsgSize(c, k.size)),
            MsgSize(c, k.size), k.iter + k.j)
  }

  /** Message number `index` of one of a worker's buffers; all iterations of a size share it. */
  datatype Cell = Cell(owner: Party, size: nat, name: BufferName, index: nat)

  function Slot(c: Config, k: Key): Cell { Cell(Owner(k), k.size, BufferOf(RoleOf(c, k.rank), k.send), k.j) }

  // ---------------------------------------------------------------- states

  /** `got` says which send each matched receive took, `stolen` which sends put receives took, `sent` holds the messages that left
      their buffer early, `queues` the completions not yet polled, by worker and kind. */
  datatype Channel = Channel(p: Party, send: bool)

  datatype State = State(pcs: map<Party, PC>, got: map<Key, Key>, finished: set<Key>,
                         queues: map<Channel, seq<Key>>, polled: set<Key>, mem: map<Cell, Bytes>, sent: map<Key, Bytes>,
                         stolen: set<Key>)

  function Pc(s: State, p: Party): PC { if p in s.pcs then s.pcs[p] else PC(0, 0, PostR, 0) }

  function QueueOf(s: State, ch: Channel): seq<Key> { if ch in s.queues then s.queues[ch] else [] }

  function Zeros(n: nat): Bytes { seq(n, _ => 0) }

  function Held(c: Config, s: State, x: Cell): Bytes { if x in s.mem then s.mem[x] else Zeros(MsgSize(c, x.size)) }

  /** What the buffer of operation k holds. */
  function Mem(c: Config, s: State, k: Key): Bytes { Held(c, s, Slot(c, k)) }

  predicate IsParty(c: Config, p: Party) { p.rank < 2 * c.half && p.w < c.nworkers }

  predicate IsKey(c: Config, k: Key) {
    && k.rank < 2 * c.half && k.w < c.nworkers && k.size < |c.sizes| && k.iter < c.niters
    && k.j < Window(c, RoleOf(c, k.rank), k.send)
  }

  predicate Earlier(k: Key, pc: PC) { k.size < pc.size || (k.size == pc.size && k.iter < pc.iter) }

  predicate Current(k: Key, pc: PC) { k.size == pc.size && k.iter == pc.iter }

  /** The program has posted operation k, when its worker is at pc. */
  predicate PostedAt(c: Config, pc: PC, k: Key) {
    var role, ph := RoleOf(c, k.rank), PostOf(k.send);
    Earlier(k, pc)
    || (Current(k, pc) && (Order(role, ph) < Order(role, pc.phase) || (pc.phase == ph && k.j < pc.idx)))
  }

  predicate Posted(c: Config, s: State, k: Key) { IsKey(c, k) && PostedAt(c, Pc(s, Owner(k)), k) }

  predicate Resting(c: Config, pc: PC) { pc.iter >= c.niters }

  predicate Done(c: Config, pc: PC) { pc.size >= |c.sizes| }

  predicate Working(c: Config, pc: PC) { !Done(c, pc) && !Resting(c, pc) }

  /** The operation a worker is about to post. */
  function KeyAt(p: Party, pc: PC): Key { Key(p.rank, p.w, IsSend(pc.phase), pc.size, pc.iter, pc.idx) }

  // ---------------------------------------------------------------- steps

  datatype Action = Post(p: Party) | Poll(p: Party) | Match(q: Key, k: Key) | Steal(k: Key) | Complete(k: Key) | Depart(p: Party)

  ghost function Universe(c: Config): set<Key> {
    (set r: nat, w: nat, z: nat, i: nat, j: nat |
       r < 2 * c.half && w < c.nworkers && z < |c.sizes| && i < c.niters && j < c.sendWindow + c.recvWindow ::
       Key(r, w, true, z, i, j))
    + (set r: nat, w: nat, z: nat, i: nat, j: nat |
         r < 2 * c.half && w < c.nworkers && z < |c.sizes| && i < c.niters && j < c.sendWindow + c.recvWindow ::
         Key(r, w, false, z, i, j))
  }

  /** The sends of a rank that the throttle counts. */
  ghost function Pending(c: Config, s: State, rank: nat): set<Key> {
    set k | k in Universe(c) && k.rank == rank && k.send && Posted(c, s, k) && k !in s.finished
  }

  /** What MPI looks at: communicator, source, destination and tag. */
  predicate SameWire(c: Config, q: Key, k: Key)
    requires ValidConfig(c)
  {
    && DeviceOf(c, q.w) == DeviceOf(c, k.w) && q.rank == Peer(c, k.rank) && k.rank == Peer(c, q.rank)
    && Tag(c, q.w, q.j) == Tag(c, k.w, k.j)
  }

  ghost predicate Enabled(c: Config, s: State, a: Action)
    requires ValidConfig(c)
  {
    match a
    case Post(p) =>
      && IsParty(c, p) && Working(c, Pc(s, p)) && IsPost(Pc(s, p).phase)
      && (Pc(s, p).phase.PostS? && c.pendingMax > 0 ==> |Pending(c, s, p.rank)| <= c.pendingMax)
    case Poll(p) =>
      && IsParty(c, p) && Working(c, Pc(s, p)) && !IsPost(Pc(s, p).phase)
      && QueueOf(s, Channel(p, IsSend(Pc(s, p).phase))) != []
    case Match(q, k) =>
      && Posted(c, s, q) && Posted(c, s, k) && !q.send && k.send && SameWire(c, q, k)
      && q !in s.got && k !in s.got.Values && k !in s.stolen
    case Steal(k) =>
      Posted(c, s, k) && k.send && Tag(c, k.w, k.j) == PutTag(c) && k !in s.got.Values && k !in s.stolen
    case Complete(k) => Posted(c, s, k) && k !in s.finished && (!k.send ==> k in s.got)
    case Depart(p) =>
      && IsParty(c, p) && !Done(c, Pc(s, p)) && Resting(c, Pc(s, p))
      && forall o :: IsParty(c, o) ==>
           Pc(s, o).size > Pc(s, p).size || (Pc(s, o).size == Pc(s, p).size && Resting(c, Pc(s, o)))
  }

  function SeedOf(tag: nat): Seed { tag % 0x1_0000_0000 }

  /** What the worker does to the buffer before it posts. */
  function Prepared(c: Config, s: State, k: Key): Bytes {
    if k.send then Filled(c.gen, Mem(c, s, k), SeedOf(Tag(c, k.w, k.j))) else Zeros(MsgSize(c, k.size))
  }

  function Message(c: Config, s: State, k: Key): Bytes { if k in s.sent then s.sent[k] else Mem(c, s, k) }

  function DoPost(c: Config, s: State, p: Party): State {
    var pc := Pc(s, p);
    var k := KeyAt(p, pc);
    s.(pcs := s.pcs[p := Next(c, RoleOf(c, p.rank), pc)], mem := s.mem[Slot(c, k) := Prepared(c, s, k)])
  }

  function DoPoll(c: Config, s: State, p: Party): State {
    var pc := Pc(s, p);
    var ch := Channel(p, IsSend(pc.phase));
    if QueueOf(s, ch) == [] then s
    else s.(pcs := s.pcs[p := Next(c, RoleOf(c, p.rank), pc)], queues := s.queues[ch := QueueOf(s, ch)[1..]],
            polled := s.polled + {QueueOf(s, ch)[0]})
  }

  function DoMatch(c: Config, s: State, q: Key, k: Key): State {
    s.(got := s.got[q := k], mem := s.mem[Slot(c, q) := Message(c, s, k)])
  }

  function DoComplete(c: Config, s: State, k: Key): State {
    var ch := Channel(Owner(k), k.send);
    s.(finished := s.finished + {k}, queues := s.queues[ch := QueueOf(s, ch) + [k]],
       sent := if k.send && k !in s.got.Values then s.sent[k := Mem(c, s, k)] else s.sent)
  }

  function DoDepart(s: State, p: Party): State { s.(pcs := s.pcs[p := PC(Pc(s, p).size + 1, 0, PostR, 0)]) }

  function Do(c: Config, s: State, a: Action): State {
    match a
    case Post(p) => DoPost(c, s, p)
    case Poll(p) => DoPoll(c, s, p)
    case Match(q, k) => DoMatch(c, s, q, k)
    case Steal(k) => s.(stolen := s.stolen + {k})
    case Complete(k) => DoComplete(c, s, k)
    case Depart(p) => DoDepart(s, p)
  }

  function Init(): State { State(map[], map[], {}, map[], {}, map[], map[], {}) }

  /** The state after a run, if every action of it was enabled. */
  ghost function Run(c: Config, acts: seq<Action>): Option<State>
    requires ValidConfig(c)
    decreases |acts|
  {
    if acts == [] then Some(Init())
    else
      var p, a := Run(c, acts[..|acts| - 1]), acts[|acts| - 1];
      if p.Some? && Enabled(c, p.value, a) then Some(Do(c, p.value, a)) else None
  }

  ghost predicate Reachable(c: Config, s: State) { ValidConfig(c) && exists acts :: Run(c, acts) == Some(s) }

  // ---------------------------------------------------------------- the assertions of the test mode

  /** The record that a poll of operation k returns: a receive carries the status of its message. */
  function Polled(c: Config, s: State, k: Key): Request
    requires ValidConfig(c)
  {
    if !k.send && k in s.got then
      var m := s.got[k];
      Requested(c, k).(rank := m.rank, tag := Tag(c, m.w, m.j), length := MsgSize(c, m.size))
    else Requested(c, k)
  }

  /** What worker p asserts of a record it polled when it is at pc: everything is computed from the
      worker's own variables and from the record's user context. */
  ghost predicate AssertsHold(c: Config, s: State, p: Party, pc: PC, x: Request)
    requires ValidConfig(c)
  {
    var send, msg := IsSend(pc.phase), MsgSize(c, pc.size);
    // the sender sends from send_buffer, and the receiver receives into it
    var name := if p.rank < c.half then (if send then SendBuffer else RecvBuffer)
                else (if send then RecvBuffer else SendBuffer);
    && x.ctx >= pc.iter
    && var j := x.ctx - pc.iter;
       && x.device == Device(p.rank, DeviceOf(c, p.w)) && x.length == msg && x.op == (if send then SEND else RECV)
       && x.buffer == Address(p, pc.size, name, j * msg)
       && x.rank == Peer(c, p.rank) && x.tag == Tag(c, p.w, j)
       && (!send ==> Genuine(c.gen, Held(c, s, Cell(p, pc.size, name, j))))
  }
}
