/**
 As long as no put receive takes a message, which tags within get_max_tag ensure, every
 step keeps the whole invariant: each assertion of the test mode holds and at most one message per
 direction and tag is in flight.
 */
module PingPongSafety {
  import opened Basics
  import opened Wrappers
  import opened Payload
  import opened PingPongModel
  import opened PingPongInvariant
  import opened PingPongBase

  // ---------------------------------------------------------------- what the invariant says of one operation

  lemma InvParts(c: Config, s: State)
    requires Inv(c, s)
    ensures ValidConfig(c) && Base(c, s) && MatesOk(c, s) && MemOk(c, s) && s.stolen == {}
  {
    hide PcsOk, BarrierOk, WireOk, FinishedOk, PolledOk, TakenOk, QueuesOk, MatesOk, MemOk;
  }

  /** A receive that its worker has polled was matched, and so its partner was posted. */
  lemma PolledRecv(c: Config, s: State, q: Key)
    requires Inv(c, s) && IsKey(c, q) && !q.send && Due(c, s, q)
    ensures q in s.got && s.got[q] == Mate(c, q) && Posted(c, s, Mate(c, q))
  {
    hide Due, Posted, TakenOk, QueuesOk, MemOk, BarrierOk, PcsOk;
    assert q in s.polled;
  }

  predicate Before(q: Key, k: Key) { q.size < k.size || (q.size == k.size && q.iter < k.iter) }

  lemma BeforePosted(c: Config, pc: PC, q: Key, k: Key)
    requires PostedAt(c, pc, k) && Before(q, k)
    ensures MustPoll(c, pc, q) && PostedAt(c, pc, q)
  {
  }

  /** The receiver sends only after it polled its receives. */
  lemma ReplyAfterPoll(c: Config, pc: PC, r: Key, q: Key)
    requires PostedAt(c, pc, r) && r.send && RoleOf(c, r.rank).Receiver? && !q.send && q.rank == r.rank
    requires q.size == r.size && q.iter == r.iter
    ensures MustPoll(c, pc, q)
  {
  }

  /** Once a later send of the same worker is posted, the other side's earlier receive is matched. */
  lemma OldRecvMatched(c: Config, s: State, k: Key, q: Key)
    requires Inv(c, s) && Posted(c, s, k) && k.send && IsKey(c, q) && !q.send && Before(q, k)
    requires q.rank == Peer(c, k.rank) && q.w == k.w
    ensures q in s.got
  {
    PeerFacts(c, k.rank);
    var e := if RoleOf(c, k.rank).Sender? then q else k;
    var r := Key(k.rank, k.w, false, e.size, e.iter, 0);
    MateFacts(c, r);
    if RoleOf(c, k.rank).Sender? {
      BeforePosted(c, Pc(s, Owner(k)), r, k);
      PolledRecv(c, s, r);
      ReplyAfterPoll(c, Pc(s, Owner(q)), Mate(c, r), q);
    } else {
      ReplyAfterPoll(c, Pc(s, Owner(k)), k, r);
      PolledRecv(c, s, r);
      BeforePosted(c, Pc(s, Owner(q)), q, Mate(c, r));
    }
    hide Inv, MustPoll;
    PolledRecv(c, s, q);
  }

  /** And once a later receive is posted, the other side's earlier send is matched. */
  lemma OldSendMatched(c: Config, s: State, q: Key, k: Key)
    requires Inv(c, s) && Posted(c, s, q) && !q.send && IsKey(c, k) && k.send && Before(k, q)
    requires q.rank == Peer(c, k.rank) && q.w == k.w
    ensures k in s.got.Values
  {
    var r := Mate(c, k);
    MateFacts(c, k);
    BeforePosted(c, Pc(s, Owner(q)), r, q);
    hide Inv, MustPoll;
    PolledRecv(c, s, r);
  }

  /** The heart of the matter: although MPI sees only the tag, it can only match operations of
      the same size and iteration. */
  lemma MatchIsMate(c: Config, s: State, q: Key, k: Key)
    requires Inv(c, s) && Enabled(c, s, Match(q, k))
    ensures k == Mate(c, q)
  {
    hide Inv, DeviceOf, Base;
    InvParts(c, s);
    WireMate(c, q, k);
    if Before(k, q) {
      OldSendMatched(c, s, q, k);
    } else if Before(q, k) {
      OldRecvMatched(c, s, k, q);
    }
  }

  lemma GotKey(c: Config, s: State, q: Key)
    requires Inv(c, s) && q in s.got
    ensures IsKey(c, q) && Posted(c, s, q) && !q.send && s.got[q] == Mate(c, q)
  {
    hide TakenOk, QueuesOk, MemOk, BarrierOk, PcsOk, PolledOk, FinishedOk;
  }

  // ---------------------------------------------------------------- buffers

  /** The same for the buffers, when none is written. */
  lemma MemKept(c: Config, s: State, s': State)
    requires ValidConfig(c) && MemOk(c, s)
    requires s'.mem == s.mem && s'.sent == s.sent && s'.got == s.got && s'.finished == s.finished && s.polled <= s'.polled
    requires forall k :: IsKey(c, k) && Posted(c, s', k) ==> Posted(c, s, k)
    requires forall k :: k in s.got && Live(s', k) ==> Live(s, k)
    ensures MemOk(c, s')
  {
    assert forall k :: Mem(c, s', k) == Mem(c, s, k);
    assert forall k :: Posted(c, s', k) ==> IsKey(c, k);
    hide Mem, Posted, Live, IsKey, Good, Mate;
  }

  lemma MemAt(c: Config, s: State, s': State, x: Key, b: Bytes, k: Key)
    requires s'.mem == s.mem[Slot(c, x) := b]
    ensures Mem(c, s', k) == if Slot(c, k) == Slot(c, x) then b else Mem(c, s, k)
  {
  }

  lemma PreparedGood(c: Config, s: State, k: Key)
    requires |Mem(c, s, k)| == MsgSize(c, k.size)
    ensures |Prepared(c, s, k)| == MsgSize(c, k.size) && (k.send ==> Good(c, k, Prepared(c, s, k)))
  {
  }

  lemma SizesWritten(c: Config, s: State, s': State, x: Key, b: Bytes)
    requires BufferSizes(c, s) && s'.mem == s.mem[Slot(c, x) := b] && |b| == MsgSize(c, x.size)
    ensures BufferSizes(c, s')
  {
    forall k | IsKey(c, k) ensures |Mem(c, s', k)| == MsgSize(c, k.size) {
      MemAt(c, s, s', x, b, k);
    }
  }

  lemma PostSends(c: Config, s: State, p: Party, s': State)
    requires Inv(c, s) && Enabled(c, s, Post(p)) && s' == DoPost(c, s, p)
    ensures SendsKept(c, s')
  {
    var x := KeyAt(p, Pc(s, p));
    var b := Prepared(c, s, x);
    assert ValidConfig(c) && MemOk(c, s);
    assert s'.mem == s.mem[Slot(c, x) := b] && s'.polled == s.polled;
    PostChanges(c, s, p, x) by {
      PartyOk(c, s, p);
      hide Inv;
    }
    PreparedGood(c, s, x);
    hide DoPost, Prepared, Good, Inv, Enabled;
    forall k | Posted(c, s', k) && k.send && k !in s'.polled ensures Good(c, k, Mem(c, s', k)) {
      MemAt(c, s, s', x, b, k);
      PostChanges(c, s, p, k);
      if k != x && Slot(c, k) == Slot(c, x) {
        Unpolled(c, s, k);
      }
    }
  }

  lemma PostRecvs(c: Config, s: State, p: Party, s': State)
    requires Inv(c, s) && Enabled(c, s, Post(p)) && s' == DoPost(c, s, p)
    ensures RecvsKept(c, s')
  {
    var x := KeyAt(p, Pc(s, p));
    var b := Prepared(c, s, x);
    assert ValidConfig(c) && MemOk(c, s);
    assert s'.mem == s.mem[Slot(c, x) := b] && s'.got == s.got;
    PostChanges(c, s, p, x) by {
      PartyOk(c, s, p);
      hide Inv;
    }
    PostIsNew(c, s, x);
    hide DoPost, Prepared, Good, Inv, Enabled, Mate;
    forall q | q in s'.got && Live(s', q) ensures Good(c, Mate(c, q), Mem(c, s', q)) {
      GotKey(c, s, q);
      PostChanges(c, s, p, q);
      MemAt(c, s, s', x, b, q);
    }
  }

  lemma PostCleared(c: Config, s: State, p: Party, s': State)
    requires Inv(c, s) && Enabled(c, s, Post(p)) && s' == DoPost(c, s, p)
    ensures RecvsCleared(c, s')
  {
    var x := KeyAt(p, Pc(s, p));
    var b := Prepared(c, s, x);
    assert ValidConfig(c) && MemOk(c, s);
    assert s'.mem == s.mem[Slot(c, x) := b] && s'.got == s.got && (!x.send ==> b == Zeros(MsgSize(c, x.size)));
    PostChanges(c, s, p, x) by {
      PartyOk(c, s, p);
      hide Inv;
    }
    hide DoPost, Prepared, Inv, Enabled, Zeros;
    forall q | Posted(c, s', q) && !q.send && q !in s'.got ensures Mem(c, s', q) == Zeros(MsgSize(c, q.size)) {
      MemAt(c, s, s', x, b, q);
      PostChanges(c, s, p, q);
      if q != x && Slot(c, q) == Slot(c, x) {
        UnmatchedLive(c, s, q);
      }
    }
  }

  lemma PostMem(c: Config, s: State, p: Party)
    requires Inv(c, s) && Enabled(c, s, Post(p))
    ensures MemOk(c, DoPost(c, s, p))
  {
    var s', x := DoPost(c, s, p), KeyAt(p, Pc(s, p));
    assert ValidConfig(c) && MemOk(c, s);
    PostSends(c, s, p, s');
    PostRecvs(c, s, p, s');
    PostCleared(c, s, p, s');
    PostChanges(c, s, p, x) by {
      PartyOk(c, s, p);
      hide Inv;
    }
    PreparedGood(c, s, x);
    assert s'.mem == s.mem[Slot(c, x) := Prepared(c, s, x)] && s'.sent == s.sent && s'.got == s.got && s'.finished == s.finished;
    hide DoPost, Prepared, Inv, SendsKept, RecvsKept, RecvsCleared, Good, Enabled;
    SizesWritten(c, s, s', x, Prepared(c, s, x));
    hide BufferSizes;
  }

  lemma PollMem(c: Config, s: State, p: Party)
    requires Inv(c, s) && Enabled(c, s, Poll(p))
    ensures MemOk(c, DoPoll(c, s, p))
  {
    var s' := DoPoll(c, s, p);
    InvParts(c, s);
    assert MemOk(c, s);
    hide DoPoll, Inv, Enabled, Live, Head, Posted, MemOk, IsKey;
    PollPcs(c, s, p, p);
    forall k | IsKey(c, k) && Posted(c, s', k) ensures Posted(c, s, k) {
      PollChanges(c, s, p, k);
    }
    forall q | q in s.got && Live(s', q) ensures Live(s, q) {
      GotKey(c, s, q);
      PollChanges(c, s, p, q);
    }
    MemKept(c, s, s');
  }

  lemma DepartMem(c: Config, s: State, p: Party)
    requires Inv(c, s) && Enabled(c, s, Depart(p))
    ensures MemOk(c, DoDepart(s, p))
  {
    var s' := DoDepart(s, p);
    InvParts(c, s);
    assert MemOk(c, s);
    assert s'.mem == s.mem && s'.sent == s.sent && s'.got == s.got && s'.finished == s.finished && s'.polled == s.polled;
    hide DoDepart, Inv, Enabled, Live, Posted, MemOk, IsKey;
    forall k | IsKey(c, k) && Posted(c, s', k) ensures Posted(c, s, k) {
      DepartPc(c, s, p, k);
    }
    forall q | q in s.got && Live(s', q) ensures Live(s, q) {
      GotKey(c, s, q);
      DepartPc(c, s, p, q);
    }
    MemKept(c, s, s');
  }

  lemma MatchMem(c: Config, s: State, q: Key, k: Key)
    requires Inv(c, s) && Enabled(c, s, Match(q, k))
    ensures MemOk(c, DoMatch(c, s, q, k))
  {
    var s', b := DoMatch(c, s, q, k), Message(c, s, k);
    assert MemOk(c, s) && ValidConfig(c);
    assert s'.mem == s.mem[Slot(c, q) := b] && s'.sent == s.sent && s'.got == s.got[q := k] && s'.finished == s.finished
           && s'.polled == s.polled && q !in s.got && !q.send && s'.pcs == s.pcs;
    MatchIsMate(c, s, q, k);
    MessageGood(c, s, k);
    UnmatchedLive(c, s, q);
    hide Inv, DoMatch, Message, Enabled, Posted, Live, Good, Mem;
    SamePcs(c, s, s');
    SizesWritten(c, s, s', q, b);
    MatchSends(c, s, s', q, b);
    MatchRecvs(c, s, s', q, k, b);
    MatchEarly(c, s, s', q, k);
    MatchCleared(c, s, s', q, k, b);
  }

  lemma MatchCleared(c: Config, s: State, s': State, q: Key, k: Key, b: Bytes)
    requires Inv(c, s) && s'.mem == s.mem[Slot(c, q) := b] && s'.got == s.got[q := k] && Live(s, q)
    requires forall x :: Posted(c, s', x) <==> Posted(c, s, x)
    ensures RecvsCleared(c, s')
  {
    InvParts(c, s);
    hide Inv, Base, Posted, Live, Mem, Slot, Zeros, Good;
    forall x | Posted(c, s', x) && !x.send && x !in s'.got ensures Mem(c, s', x) == Zeros(MsgSize(c, x.size)) {
      MemAt(c, s, s', q, b, x);
      UnmatchedLive(c, s, x);
      if Slot(c, x) == Slot(c, q) {
        LiveSlots(c, s, x, q);
      }
    }
  }

  lemma MatchSends(c: Config, s: State, s': State, q: Key, b: Bytes)
    requires SendsKept(c, s) && s'.mem == s.mem[Slot(c, q) := b] && s'.polled == s.polled && !q.send
    requires forall x :: Posted(c, s', x) <==> Posted(c, s, x)
    ensures SendsKept(c, s')
  {
    hide Posted, Good;
    forall x | Posted(c, s', x) && x.send && x !in s'.polled ensures Good(c, x, Mem(c, s', x)) {
      MemAt(c, s, s', q, b, x);
    }
  }

  lemma MatchRecvs(c: Config, s: State, s': State, q: Key, k: Key, b: Bytes)
    requires ValidConfig(c) && RecvsKept(c, s) && s'.mem == s.mem[Slot(c, q) := b] && s'.got == s.got[q := k]
    requires Live(s, q) && k == Mate(c, q) && Good(c, k, b) && forall x :: Live(s', x) <==> Live(s, x)
    ensures RecvsKept(c, s')
  {
    hide Live, Good, Mem, Mate, Slot;
    forall x | x in s'.got && Live(s', x) ensures Good(c, Mate(c, x), Mem(c, s', x)) {
      MemAt(c, s, s', q, b, x);
      if x != q && Slot(c, x) == Slot(c, q) {
        LiveSlots(c, s, x, q);
      }
    }
  }

  lemma MatchEarly(c: Config, s: State, s': State, q: Key, k: Key)
    requires EarlyKept(c, s) && s'.sent == s.sent && s'.finished == s.finished && s'.got == s.got[q := k] && q !in s.got
    ensures EarlyKept(c, s')
  {
    hide Good;
    forall x | x in s'.finished && x.send && x !in s'.got.Values ensures x in s'.sent {
      ValuesGrow(s.got, q, k, x);
    }
  }

  lemma ValuesGrow(m: map<Key, Key>, q: Key, k: Key, x: Key)
    requires q !in m && x !in m[q := k].Values
    ensures x !in m.Values
  {
    forall y | y in m ensures m[y] != x {
      assert m[q := k][y] == m[y];
    }
  }

  /** Two operations of one worker in the same window slot and current iteration are one. */
  lemma LiveSlots(c: Config, s: State, x: Key, q: Key)
    requires Live(s, x) && Live(s, q) && Slot(c, x) == Slot(c, q)
    ensures x == q
  {
  }

  lemma UnmatchedLive(c: Config, s: State, q: Key)
    requires Inv(c, s) && Posted(c, s, q) && !q.send && q !in s.got
    ensures Live(s, q)
  {
    assert q !in s.polled by {
      assert PolledOk(c, s) && FinishedOk(c, s);
    }
    Unpolled(c, s, q);
  }

  lemma MessageGood(c: Config, s: State, k: Key)
    requires Inv(c, s) && Posted(c, s, k) && k.send && k !in s.got.Values
    ensures |Message(c, s, k)| == MsgSize(c, k.size) && Good(c, k, Message(c, s, k))
  {
    assert MemOk(c, s) && PolledOk(c, s);
    hide Inv;
  }

  lemma CompleteKept(c: Config, s: State, s': State, k: Key, b: Bytes)
    requires ValidConfig(c) && MemOk(c, s) && (k.send ==> Good(c, k, b))
    requires s'.pcs == s.pcs && s'.mem == s.mem && s'.got == s.got && s'.polled == s.polled && s'.finished == s.finished + {k}
    requires s'.sent == if k.send && k !in s.got.Values then s.sent[k := b] else s.sent
    ensures MemOk(c, s')
  {
    hide Good, Posted, Live, IsKey, Mate;
    SamePcs(c, s, s');
    assert forall x :: Mem(c, s', x) == Mem(c, s, x);
    hide Mem;
    assert BufferSizes(c, s') && SendsKept(c, s') && RecvsKept(c, s') && RecvsCleared(c, s');
    hide BufferSizes, SendsKept, RecvsKept, RecvsCleared;
  }

  lemma CompleteMem(c: Config, s: State, k: Key)
    requires Inv(c, s) && Enabled(c, s, Complete(k))
    ensures MemOk(c, DoComplete(c, s, k))
  {
    InvParts(c, s);
    assert k !in s.polled by {
      assert PolledOk(c, s);
    }
    assert MemOk(c, s);
    hide Inv, Good, Mem, Live, IsKey, Mate, RecvsKept, BufferSizes, EarlyKept, RecvsCleared;
    assert k.send ==> Good(c, k, Mem(c, s, k));
    hide SendsKept, Posted;
    CompleteKept(c, s, DoComplete(c, s, k), k, Mem(c, s, k));
  }

  // ---------------------------------------------------------------- every run

  lemma InitInv(c: Config)
    requires ValidConfig(c)
    ensures Inv(c, Init())
  {
    InitBase(c);
    hide Base;
  }

  /** Every action but a theft keeps the whole invariant. */
  lemma StepInv(c: Config, s: State, a: Action)
    requires Inv(c, s) && Enabled(c, s, a) && !a.Steal?
    ensures Inv(c, Do(c, s, a))
  {
    InvParts(c, s);
    StepBase(c, s, a);
    StepMem(c, s, a);
    StepMates(c, s, a);
    hide Base, MatesOk, MemOk, Enabled, DoPost, DoPoll, DoMatch, DoComplete, DoDepart;
  }

  lemma StepMates(c: Config, s: State, a: Action)
    requires Inv(c, s) && Enabled(c, s, a) && !a.Steal?
    ensures MatesOk(c, Do(c, s, a)) && Do(c, s, a).stolen == {}
  {
    InvParts(c, s);
    if a.Match? {
      MatchIsMate(c, s, a.q, a.k);
    }
    hide Inv, Enabled, Base, MemOk, Mate, Prepared, Next, Message, Mem;
  }

  lemma StepMem(c: Config, s: State, a: Action)
    requires Inv(c, s) && Enabled(c, s, a) && !a.Steal?
    ensures ValidConfig(c) && MemOk(c, Do(c, s, a))
  {
    hide Inv, Enabled, MemOk, Base;
    InvParts(c, s);
    match a
    case Post(p) => PostMem(c, s, p);
    case Poll(p) => PollMem(c, s, p);
    case Match(q, k) => MatchMem(c, s, q, k);
    case Complete(k) => CompleteMem(c, s, k);
    case Depart(p) => DepartMem(c, s, p);
  }

  /** Tags within get_max_tag are below the put receive's. */
  lemma TagBelowPut(c: Config, k: Key)
    requires TagsFit(c) && IsKey(c, k)
    ensures Tag(c, k.w, k.j) < PutTag(c)
  {
    var n := c.nworkers;
    MulUpTo(k.j + 1, Widest(c), n);
    assert (k.j + 1) * n == k.j * n + n;
  }

  lemma MulUpTo(a: int, b: int, n: int)
    requires a <= b && n >= 0
    ensures a * n <= n * b
  {
    assert (b - a) * n >= 0;
    assert b * n == (b - a) * n + a * n;
  }

  lemma {:induction false} RunInv(c: Config, acts: seq<Action>)
    requires ValidConfig(c) && TagsFit(c) && Run(c, acts).Some?
    ensures Inv(c, Run(c, acts).value)
    decreases |acts|
  {
    hide Inv, Do, TagsFit, Posted;
    if acts == [] {
      InitInv(c);
    } else {
      var p, a := Run(c, acts[..|acts| - 1]).value, acts[|acts| - 1];
      RunInv(c, acts[..|acts| - 1]);
      NoTheft(c, p, a);
      hide Enabled;
      StepInv(c, p, a);
    }
  }

  lemma NoTheft(c: Config, s: State, a: Action)
    requires ValidConfig(c) && TagsFit(c) && Enabled(c, s, a)
    ensures !a.Steal?
  {
    if a.Steal? {
      hide TagsFit;
      TagBelowPut(c, a.k);
    }
  }

  lemma ReachInv(c: Config, s: State)
    requires Reachable(c, s) && TagsFit(c)
    ensures Inv(c, s)
  {
    var acts :| Run(c, acts) == Some(s);
    RunInv(c, acts);
  }

  // ---------------------------------------------------------------- what that means

  /** In every run, whatever a worker polls was posted by that worker in the same size and
      iteration, and all assertions of the test mode hold: device, length, operation, buffer,
      rank, tag and, for a receive, the payload. */
  lemma AllAssertsHold(c: Config, s: State, p: Party)
    requires Reachable(c, s) && TagsFit(c) && Enabled(c, s, Poll(p))
    ensures var k := Head(s, p);
            && Owner(k) == p && k.size == Pc(s, p).size && k.iter == Pc(s, p).iter && k !in s.polled
            && AssertsHold(c, s, p, Pc(s, p), Polled(c, s, k))
  {
    ReachInv(c, s);
    HeadFacts(c, s, p);
    InvParts(c, s);
    hide Enabled, Head, Inv, Reachable, AssertsHold, Polled;
    var k := Head(s, p);
    RecordIsRequest(c, s, k);
    AssertsOf(c, s, p, Pc(s, p), k);
  }

  /** The status of a matched receive says what the receive asked for, and its buffer passes the
      payload check. */
  lemma RecordIsRequest(c: Config, s: State, k: Key)
    requires Inv(c, s) && IsKey(c, k) && (!k.send ==> k in s.got && Live(s, k))
    ensures Polled(c, s, k) == Requested(c, k) && (!k.send ==> Genuine(c.gen, Mem(c, s, k)))
  {
    if !k.send {
      GotKey(c, s, k);
      assert MemOk(c, s);
      hide Inv, Mem, DeviceOf;
      GoodIsGenuine(c, Mate(c, k), Mem(c, s, k));
    }
  }

  /** A record that says what was asked for satisfies the assertions. */
  lemma AssertsOf(c: Config, s: State, p: Party, pc: PC, k: Key)
    requires ValidConfig(c) && Owner(k) == p && Polling(pc, k) && (!k.send ==> Genuine(c.gen, Mem(c, s, k)))
    ensures AssertsHold(c, s, p, pc, Requested(c, k))
  {
    hide DeviceOf, Genuine, Peer, Tag, MsgSize, Held;
  }

  lemma GoodIsGenuine(c: Config, k: Key, b: Bytes)
    requires Good(c, k, b)
    ensures Genuine(c.gen, b)
  {
  }

  predicate InFlight(c: Config, s: State, k: Key) { k.send && Posted(c, s, k) && k !in s.got.Values }

  /** Tags are reused, but never while a message with the tag is under way: between two workers
      at most one message per direction and tag is posted and not received. */
  lemma OneInFlight(c: Config, s: State, k: Key, x: Key)
    requires Reachable(c, s) && TagsFit(c) && InFlight(c, s, k) && InFlight(c, s, x)
    requires k.rank == x.rank && Tag(c, k.w, k.j) == Tag(c, x.w, x.j)
    ensures k == x
  {
    ReachInv(c, s);
    InvParts(c, s);
    TagInjective(c, k.w, k.j, x.w, x.j);
    hide Inv, Reachable;
    if Before(k, x) {
      MatchedBefore(c, s, k, x);
    } else if Before(x, k) {
      MatchedBefore(c, s, x, k);
    }
  }

  lemma MatchedBefore(c: Config, s: State, k: Key, x: Key)
    requires Inv(c, s) && Posted(c, s, k) && Posted(c, s, x) && k.send && x.send
    requires k.rank == x.rank && k.w == x.w && Before(k, x)
    ensures k in s.got.Values
  {
    InvParts(c, s);
    MateFacts(c, k);
    hide Inv;
    OldRecvMatched(c, s, x, Mate(c, k));
    GotKey(c, s, Mate(c, k));
  }

  /** What a worker checks came with this iteration's message: a receive buffer is all zeros from the post of
      the receive until its message arrives. */
  lemma NothingStale(c: Config, s: State, q: Key)
    requires Reachable(c, s) && TagsFit(c) && Posted(c, s, q) && !q.send && q !in s.got
    ensures Mem(c, s, q) == Zeros(MsgSize(c, q.size))
  {
    ReachInv(c, s);
    InvParts(c, s);
    hide Inv, Base, Reachable, TagsFit;
  }

  /** Every reply's receive was posted before the reply is sent. */
  lemma ReplyExpected(c: Config, s: State, k: Key)
    requires Reachable(c, s) && TagsFit(c) && Posted(c, s, k) && k.send && k.rank >= c.half
    ensures Posted(c, s, Mate(c, k))
  {
    hide Inv, Base, Reachable, TagsFit;
    ReachInv(c, s);
    InvParts(c, s);
    var r := Key(k.rank, k.w, false, k.size, k.iter, 0);
    ReplyAfterPoll(c, Pc(s, Owner(k)), k, r);
    PolledRecv(c, s, r);
    MateFacts(c, k);
    MateFacts(c, r);
    SentAfterPosts(c, Pc(s, Owner(Mate(c, r))), Mate(c, r), Mate(c, k));
  }

  /** The sender posts its receives first. */
  lemma SentAfterPosts(c: Config, pc: PC, x: Key, q: Key)
    requires PostedAt(c, pc, x) && x.send && RoleOf(c, x.rank).Sender? && !q.send && q.rank == x.rank
    requires q.size == x.size && q.iter == x.iter
    ensures PostedAt(c, pc, q)
  {
  }
}
