/**
 The cross-rank invariant of the ping-pong: which operations each worker's program
 counter says are posted and polled, and that matching pairs operations of the same
 iteration only.
 */
module PingPongInvariant {
  import opened Basics
  import opened Payload
  import opened PingPongModel

  // ---------------------------------------------------------------- partners

  /** The operation on the other side that k should meet. */
  function Mate(c: Config, k: Key): Key
    requires c.half > 0
  {
    k.(rank := Peer(c, k.rank), send := !k.send)
  }

  lemma MulAtLeast(d: int, n: int)
    requires d >= 1 && n >= 0
    ensures d * n >= n
  {
    assert d * n == (d - 1) * n + n;
  }

  lemma ModWraps(x: int, m: int)
    requires 0 < m <= x < 2 * m
    ensures x % m == x - m
  {
    var q := x / m;
    assert x == q * m + x % m;
    if q >= 2 {
      MulAtLeast(q - 1, m);
    }
  }

  lemma ModSmall(x: int, m: int)
    requires 0 <= x < m
    ensures x % m == x
  {
  }

  lemma PeerFacts(c: Config, rank: nat)
    requires c.half > 0 && rank < 2 * c.half
    ensures Peer(c, rank) == if rank < c.half then rank + c.half else rank - c.half
  {
    if rank >= c.half {
      ModWraps(rank + c.half, 2 * c.half);
    } else {
      ModSmall(rank + c.half, 2 * c.half);
    }
  }

  lemma PeerPeer(c: Config, rank: nat)
    requires c.half > 0 && rank < 2 * c.half
    ensures Peer(c, rank) < 2 * c.half && Peer(c, Peer(c, rank)) == rank
  {
    hide Peer;
    PeerFacts(c, rank);
    PeerFacts(c, Peer(c, rank));
  }

  lemma MateFacts(c: Config, k: Key)
    requires ValidConfig(c) && IsKey(c, k)
    ensures IsKey(c, Mate(c, k)) && Mate(c, Mate(c, k)) == k && RoleOf(c, Mate(c, k).rank) != RoleOf(c, k.rank)
    ensures if k.send then SameWire(c, Mate(c, k), k) else SameWire(c, k, Mate(c, k))
  {
    PeerFacts(c, k.rank);
    PeerFacts(c, Peer(c, k.rank));
  }

  lemma TagInjective(c: Config, w: nat, j: nat, v: nat, i: nat)
    requires w < c.nworkers && v < c.nworkers && Tag(c, w, j) == Tag(c, v, i)
    ensures w == v && j == i
  {
    var n := c.nworkers;
    assert j * n - i * n == v - w;
    assert (j - i) * n == j * n - i * n;
    if j < i {
      MulAtLeast(i - j, n);
    } else if i < j {
      MulAtLeast(j - i, n);
    }
  }

  /** What MPI compares determines everything but the iteration and the size. */
  lemma WireMate(c: Config, q: Key, k: Key)
    requires ValidConfig(c) && IsKey(c, q) && IsKey(c, k) && !q.send && k.send && SameWire(c, q, k)
    ensures k == Mate(c, q).(size := k.size, iter := k.iter)
  {
    TagInjective(c, q.w, q.j, k.w, k.j);
  }

  // ---------------------------------------------------------------- the invariant

  predicate PcOk(c: Config, role: Role, pc: PC) {
    && pc.size <= |c.sizes| && pc.iter <= c.niters && pc.idx < Length(c, role, pc.phase)
    && (pc.size == |c.sizes| || pc.iter == c.niters ==> pc.phase == PostR && pc.idx == 0)
    && (pc.size == |c.sizes| ==> pc.iter == 0)
  }

  /** Every worker at pc has polled operation k. */
  predicate MustPoll(c: Config, pc: PC, k: Key) {
    var role := RoleOf(c, k.rank);
    Earlier(k, pc) || (Current(k, pc) && Order(role, PollOf(k.send)) < Order(role, pc.phase))
  }

  /** The worker at pc is polling for operations such as k. */
  predicate Polling(pc: PC, k: Key) { Current(k, pc) && pc.phase == PollOf(k.send) }

  /** The same, of the operation's own worker. */
  predicate Due(c: Config, s: State, k: Key) { MustPoll(c, Pc(s, Owner(k)), k) }

  predicate Open(s: State, k: Key) { Polling(Pc(s, Owner(k)), k) }

  /** The operation belongs to its worker's current iteration. */
  predicate Live(s: State, k: Key) { Current(k, Pc(s, Owner(k))) }

  function KeyIn(p: Party, pc: PC, j: nat): Key { Key(p.rank, p.w, IsSend(pc.phase), pc.size, pc.iter, j) }

  /** The operations of the current window that were polled. */
  ghost function Taken(c: Config, polled: set<Key>, p: Party, pc: PC): set<nat> {
    set j: nat | j < Length(c, RoleOf(c, p.rank), pc.phase) && KeyIn(p, pc, j) in polled
  }

  ghost predicate PcsOk(c: Config, s: State) {
    forall p :: IsParty(c, p) ==> PcOk(c, RoleOf(c, p.rank), Pc(s, p))
  }

  /** No worker is more than one barrier ahead of another, and then the other is at it. */
  ghost predicate BarrierOk(c: Config, s: State) {
    forall p, o :: IsParty(c, p) && IsParty(c, o) && Pc(s, p).size > Pc(s, o).size ==>
      Pc(s, p).size == Pc(s, o).size + 1 && Resting(c, Pc(s, o))
  }

  /** Every message is taken at most once. */
  ghost predicate WireOk(c: Config, s: State) {
    && (forall q :: q in s.got ==>
          !q.send && Posted(c, s, q) && s.got[q].send && Posted(c, s, s.got[q]) && s.got[q] !in s.stolen)
    && (forall p, q :: p in s.got && q in s.got && s.got[p] == s.got[q] ==> p == q)
    && (forall k :: k in s.stolen ==> k.send && Posted(c, s, k))
  }

  /** Receives take only the send they are meant for. */
  ghost predicate MatesOk(c: Config, s: State)
    requires c.half > 0
  {
    forall q :: q in s.got ==> s.got[q] == Mate(c, q)
  }

  ghost predicate FinishedOk(c: Config, s: State) {
    forall k :: k in s.finished ==> Posted(c, s, k) && (!k.send ==> k in s.got)
  }

  ghost predicate PolledOk(c: Config, s: State) {
    && (forall k :: k in s.polled ==> k in s.finished && (Due(c, s, k) || Open(s, k)))
    && (forall k :: IsKey(c, k) && Due(c, s, k) ==> k in s.polled)
  }

  ghost predicate TakenOk(c: Config, s: State) {
    forall p :: IsParty(c, p) && Working(c, Pc(s, p)) && !IsPost(Pc(s, p).phase) ==> |Taken(c, s.polled, p, Pc(s, p))| == Pc(s, p).idx
  }

  /** A queue holds its worker's completions of its kind, each once. */
  ghost predicate QueuesOk(s: State) {
    && (forall ch, i :: 0 <= i < |QueueOf(s, ch)| ==>
          var k := QueueOf(s, ch)[i]; k in s.finished && k !in s.polled && Channel(Owner(k), k.send) == ch)
    && (forall ch, i, j :: 0 <= i < |QueueOf(s, ch)| && 0 <= j < |QueueOf(s, ch)| && QueueOf(s, ch)[i] == QueueOf(s, ch)[j] ==>
          i == j)
    && (forall k :: k in s.finished && k !in s.polled ==> k in QueueOf(s, Channel(Owner(k), k.send)))
  }

  /** The message that send k should carry. */
  ghost predicate Good(c: Config, k: Key, b: Bytes) {
    && |b| == MsgSize(c, k.size)
    && (|b| > SEED_SIZE ==> b == Written(c.gen, SeedOf(Tag(c, k.w, k.j)), |b|))
  }

  ghost predicate BufferSizes(c: Config, s: State) { forall k :: IsKey(c, k) ==> |Mem(c, s, k)| == MsgSize(c, k.size) }

  /** A send's buffer holds its message until the send is polled. */
  ghost predicate SendsKept(c: Config, s: State) {
    forall k :: Posted(c, s, k) && k.send && k !in s.polled ==> Good(c, k, Mem(c, s, k))
  }

  /** Messages that left early are the right ones, and no unmatched message is lost. */
  ghost predicate EarlyKept(c: Config, s: State) {
    && (forall k :: k in s.sent ==> Good(c, k, s.sent[k]))
    && (forall k :: k in s.finished && k.send && k !in s.got.Values ==> k in s.sent)
  }

  /** A matched receive's buffer holds the message for the rest of the iteration. */
  ghost predicate RecvsKept(c: Config, s: State)
    requires c.half > 0
  {
    forall q :: q in s.got && Live(s, q) ==> Good(c, Mate(c, q), Mem(c, s, q))
  }

  /** Until then it is cleared. */
  ghost predicate RecvsCleared(c: Config, s: State) {
    forall q :: Posted(c, s, q) && !q.send && q !in s.got ==> Mem(c, s, q) == Zeros(MsgSize(c, q.size))
  }

  ghost predicate MemOk(c: Config, s: State)
    requires c.half > 0
  {
    BufferSizes(c, s) && SendsKept(c, s) && EarlyKept(c, s) && RecvsKept(c, s) && RecvsCleared(c, s)
  }

  /** What holds in every run, even when put receives take messages. */
  ghost predicate Base(c: Config, s: State) {
    && ValidConfig(c) && PcsOk(c, s) && BarrierOk(c, s) && WireOk(c, s) && FinishedOk(c, s) && PolledOk(c, s)
    && TakenOk(c, s) && QueuesOk(s)
  }

  /** What holds besides as long as they take none. */
  ghost predicate Inv(c: Config, s: State) { Base(c, s) && s.stolen == {} && MatesOk(c, s) && MemOk(c, s) }

  // ---------------------------------------------------------------- what Next does

  lemma NextOk(c: Config, role: Role, pc: PC)
    requires ValidConfig(c) && PcOk(c, role, pc) && Working(c, pc)
    ensures PcOk(c, role, Next(c, role, pc)) && Next(c, role, pc).size == pc.size
  {
  }

  lemma NextPosted(c: Config, role: Role, pc: PC, k: Key)
    requires ValidConfig(c) && PcOk(c, role, pc) && Working(c, pc) && RoleOf(c, k.rank) == role && k.j < Window(c, role, k.send)
    ensures PostedAt(c, Next(c, role, pc), k) <==>
            PostedAt(c, pc, k) || (IsPost(pc.phase) && Current(k, pc) && k.send == IsSend(pc.phase) && k.j == pc.idx)
    ensures IsPost(pc.phase) && Current(k, pc) && k.send == IsSend(pc.phase) && k.j == pc.idx ==> !PostedAt(c, pc, k)
  {
  }

  lemma NextPolled(c: Config, role: Role, pc: PC, k: Key)
    requires ValidConfig(c) && PcOk(c, role, pc) && Working(c, pc) && RoleOf(c, k.rank) == role && k.j < Window(c, role, k.send)
    ensures MustPoll(c, Next(c, role, pc), k) <==>
            MustPoll(c, pc, k)
            || (!IsPost(pc.phase) && Polling(pc, k) && pc.idx + 1 >= Length(c, role, pc.phase))
    ensures MustPoll(c, Next(c, role, pc), k) || Polling(Next(c, role, pc), k) <== MustPoll(c, pc, k) || Polling(pc, k)
    ensures Current(k, Next(c, role, pc)) && IsPost(pc.phase) ==> Current(k, pc)
  {
  }

  /** A worker that enters another polling phase has polled nothing of it. */
  lemma NextFresh(c: Config, role: Role, pc: PC, k: Key)
    requires RoleOf(c, k.rank) == role && !IsPost(pc.phase) && Next(c, role, pc).phase != pc.phase && Polling(Next(c, role, pc), k)
    ensures !MustPoll(c, pc, k) && !Polling(pc, k)
  {
  }

  /** Posting precedes polling. */
  lemma PolledIsPosted(c: Config, pc: PC, k: Key)
    requires MustPoll(c, pc, k) || Polling(pc, k)
    ensures PostedAt(c, pc, k)
  {
  }
}
