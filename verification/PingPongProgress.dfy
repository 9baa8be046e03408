/**
 The ping-pong always finishes if its tags are within get_max_tag: every step brings it
 closer to its end, and until then some step is possible, even if no send completes before its
 receive is posted and whatever the throttle's limit is.
 */
module PingPongProgress {
  import opened Wrappers
  import opened PingPongModel
  import opened PingPongInvariant
  import opened PingPongBase
  import opened PingPongSafety

  // ---------------------------------------------------------------- what is left to do

  datatype Task = ToPost(k: Key) | ToPoll(k: Key) | ToMatch(k: Key) | ToSteal(k: Key) | ToFinish(k: Key) | ToPass(p: Party, size: nat)

  predicate Remains(c: Config, s: State, t: Task) {
    match t
    case ToPost(k) => IsKey(c, k) && !Posted(c, s, k)
    case ToPoll(k) => IsKey(c, k) && k !in s.polled
    case ToMatch(k) => IsKey(c, k) && !k.send && k !in s.got
    case ToSteal(k) => IsKey(c, k) && k.send && k !in s.stolen
    case ToFinish(k) => IsKey(c, k) && k !in s.finished
    case ToPass(p, z) => IsParty(c, p) && z < |c.sizes| && Pc(s, p).size <= z
  }

  ghost function Tasks(c: Config): set<Task> {
    (set k | k in Universe(c) :: ToPost(k)) + (set k | k in Universe(c) :: ToPoll(k))
    + (set k | k in Universe(c) :: ToMatch(k)) + (set k | k in Universe(c) :: ToSteal(k))
    + (set k | k in Universe(c) :: ToFinish(k))
    + (set r: nat, w: nat, z: nat | r < 2 * c.half && w < c.nworkers && z < |c.sizes| :: ToPass(Party(r, w), z))
  }

  /** The ranking measure: a finite set of tasks that never grows. */
  ghost function Left(c: Config, s: State): set<Task> { set t | t in Tasks(c) && Remains(c, s, t) }

  lemma KeyInUniverse(c: Config, k: Key)
    requires IsKey(c, k)
    ensures k in Universe(c)
  {
  }

  lemma RemainsInTasks(c: Config, s: State, t: Task)
    requires Remains(c, s, t)
    ensures t in Tasks(c)
  {
    hide Universe, Posted;
    if !t.ToPass? {
      KeyInUniverse(c, t.k);
    }
  }

  lemma {:induction false} Smaller<T>(a: set<T>, b: set<T>)
    requires a <= b
    ensures |a| <= |b| && (a != b ==> |a| < |b|)
  {
    if a != {} {
      var x :| x in a;
      Smaller(a - {x}, b - {x});
      assert a == (a - {x}) + {x} && b == (b - {x}) + {x};
    }
  }

  /** The task that an action does. */
  function Did(s: State, a: Action): Task
    requires a.Poll? ==> QueueOf(s, Channel(a.p, IsSend(Pc(s, a.p).phase))) != []
  {
    match a
    case Post(p) => ToPost(KeyAt(p, Pc(s, p)))
    case Poll(p) => ToPoll(Head(s, p))
    case Match(q, _) => ToMatch(q)
    case Steal(k) => ToSteal(k)
    case Complete(k) => ToFinish(k)
    case Depart(p) => ToPass(p, Pc(s, p).size)
  }

  lemma PostRemains(c: Config, s: State, p: Party, t: Task)
    requires Base(c, s) && Enabled(c, s, Post(p)) && Remains(c, DoPost(c, s, p), t)
    ensures Remains(c, s, t) && t != ToPost(KeyAt(p, Pc(s, p)))
  {
    assert ValidConfig(c);
    PartyOk(c, s, p);
    if t.ToPass? {
      PostPcs(c, s, p, t.p);
      NextOk(c, RoleOf(c, p.rank), Pc(s, p));
      hide Base, DoPost, Next;
    } else {
      assert DoPost(c, s, p).got == s.got && DoPost(c, s, p).finished == s.finished && DoPost(c, s, p).polled == s.polled
             && DoPost(c, s, p).stolen == s.stolen;
      hide Base, DoPost, Posted, Enabled;
      PostChanges(c, s, p, t.k);
    }
  }

  lemma PollSizes(c: Config, s: State, p: Party, o: Party)
    requires Base(c, s) && Enabled(c, s, Poll(p))
    ensures Pc(DoPoll(c, s, p), o).size == Pc(s, o).size
  {
    PartyOk(c, s, p);
    PollPcs(c, s, p, o);
    NextOk(c, RoleOf(c, p.rank), Pc(s, p));
    hide Base, DoPoll, Next;
  }

  lemma PollRemains(c: Config, s: State, p: Party, t: Task)
    requires Base(c, s) && Enabled(c, s, Poll(p)) && Remains(c, DoPoll(c, s, p), t)
    ensures Remains(c, s, t) && t != ToPoll(Head(s, p))
  {
    BaseConfig(c, s);
    hide Base, DoPoll, Head, Posted, Enabled, Pc, IsKey;
    PollPcs(c, s, p, p);
    if t.ToPass? {
      PollSizes(c, s, p, t.p);
    } else {
      PollChanges(c, s, p, t.k);
    }
  }

  lemma DepartRemains(c: Config, s: State, p: Party, t: Task)
    requires Base(c, s) && Enabled(c, s, Depart(p)) && Remains(c, DoDepart(s, p), t)
    ensures Remains(c, s, t) && t != ToPass(p, Pc(s, p).size)
  {
    assert ValidConfig(c);
    hide Base;
    if !t.ToPass? {
      DepartPc(c, s, p, t.k);
    }
  }

  lemma OtherRemains(c: Config, s: State, a: Action, t: Task)
    requires ValidConfig(c) && (a.Match? || a.Steal? || a.Complete?) && Enabled(c, s, a) && Remains(c, Do(c, s, a), t)
    ensures Remains(c, s, t) && t != Did(s, a)
  {
    hide SameWire, Mem, Message;
    var s' := Do(c, s, a);
    assert s'.pcs == s.pcs;
    SamePcs(c, s, s');
    hide Posted;
  }

  /** Every step does one task and adds none. */
  lemma StepShrinks(c: Config, s: State, a: Action)
    requires Base(c, s) && Enabled(c, s, a)
    ensures |Left(c, Do(c, s, a))| < |Left(c, s)|
  {
    assert ValidConfig(c);
    var s', d := Do(c, s, a), Did(s, a);
    DidRemains(c, s, a);
    RemainsInTasks(c, s, d);
    assert d in Left(c, s);
    forall t | t in Left(c, s') ensures t in Left(c, s) && t != d {
      hide Base, Enabled, Remains, Tasks;
      match a
      case Post(p) => PostRemains(c, s, p, t);
      case Poll(p) => PollRemains(c, s, p, t);
      case Match(q, k) => OtherRemains(c, s, a, t);
      case Steal(k) => OtherRemains(c, s, a, t);
      case Complete(k) => OtherRemains(c, s, a, t);
      case Depart(p) => DepartRemains(c, s, p, t);
    }
    hide Base, Enabled, Remains, Tasks, Do, Did;
    Smaller(Left(c, s'), Left(c, s));
  }

  lemma DidRemains(c: Config, s: State, a: Action)
    requires Base(c, s) && Enabled(c, s, a)
    ensures Remains(c, s, Did(s, a))
  {
    assert ValidConfig(c);
    match a
    case Post(p) =>
      PartyOk(c, s, p);
      hide Base;
      NextPosted(c, RoleOf(c, p.rank), Pc(s, p), KeyAt(p, Pc(s, p)));
    case Poll(p) => HeadFacts(c, s, p);
    case _ =>
  }

  // ---------------------------------------------------------------- some step is always possible

  /** A step that relies neither on a send completing before its receive was posted nor on a put
      receive taking it. */
  ghost predicate Possible(c: Config, s: State, a: Action)
    requires ValidConfig(c)
  {
    Enabled(c, s, a) && !a.Steal? && (a.Complete? && a.k.send ==> a.k in s.got.Values)
  }

  lemma {:induction false} Missing(t: set<nat>, n: nat) returns (j: nat)
    requires (forall i :: i in t ==> i < n) && |t| < n
    ensures j < n && j !in t
  {
    if n - 1 !in t {
      j := n - 1;
    } else {
      j := Missing(t - {n - 1}, n - 1);
    }
  }

  /** A worker that is polling still waits for some operation of its window. */
  lemma Awaited(c: Config, s: State, p: Party) returns (k: Key)
    requires Base(c, s) && IsParty(c, p) && Working(c, Pc(s, p)) && !IsPost(Pc(s, p).phase)
    ensures IsKey(c, k) && Owner(k) == p && Open(s, k) && k !in s.polled && k.send == IsSend(Pc(s, p).phase) && Posted(c, s, k)
  {
    PartyOk(c, s, p);
    var pc := Pc(s, p);
    assert TakenOk(c, s);
    hide Base;
    var j := Missing(Taken(c, s.polled, p, pc), Length(c, RoleOf(c, p.rank), pc.phase));
    k := KeyIn(p, pc, j);
    PolledIsPosted(c, pc, k);
  }

  lemma PollPossible(c: Config, s: State, k: Key)
    requires Base(c, s) && IsKey(c, k) && Open(s, k) && k in s.finished && k !in s.polled
    ensures ValidConfig(c) && Possible(c, s, Poll(Owner(k)))
  {
    BaseConfig(c, s);
    hide Base, QueueOf, Pc, IsKey, Open, Working, IsPost, IsSend;
    InQueue(c, s, k);
    OpenWorks(c, s, k);
  }

  lemma OpenWorks(c: Config, s: State, k: Key)
    requires IsKey(c, k) && Open(s, k)
    ensures var pc := Pc(s, Owner(k)); IsParty(c, Owner(k)) && Working(c, pc) && !IsPost(pc.phase) && IsSend(pc.phase) == k.send
  {
  }

  lemma InQueue(c: Config, s: State, k: Key)
    requires Base(c, s) && k in s.finished && k !in s.polled
    ensures QueueOf(s, Channel(Owner(k), k.send)) != []
  {
    assert QueuesOk(s);
    hide Base, QueueOf;
    assert k in QueueOf(s, Channel(Owner(k), k.send));
  }

  lemma CompletePossible(c: Config, s: State, k: Key)
    requires ValidConfig(c) && Posted(c, s, k) && k !in s.finished && if k.send then k in s.got.Values else k in s.got
    ensures Possible(c, s, Complete(k))
  {
    hide Posted;
  }

  lemma MatchPossible(c: Config, s: State, q: Key)
    requires ValidConfig(c) && Inv(c, s) && Posted(c, s, q) && !q.send && q !in s.got && Posted(c, s, Mate(c, q))
    ensures Possible(c, s, Match(q, Mate(c, q)))
  {
    hide Inv, Base;
    InvParts(c, s);
    MateFacts(c, q);
    MateFree(c, s, q);
    hide PostedAt, DeviceOf;
  }

  lemma PostRPossible(c: Config, s: State, p: Party)
    requires ValidConfig(c) && IsParty(c, p) && Working(c, Pc(s, p)) && Pc(s, p).phase == PostR
    ensures Possible(c, s, Post(p))
  {
  }

  /** An awaited operation moves on: it is polled, or completed, or matched. */
  lemma Advance(c: Config, s: State, k: Key) returns (a: Action)
    requires ValidConfig(c) && Inv(c, s) && IsKey(c, k) && Open(s, k) && k !in s.polled && Posted(c, s, k)
    requires k.send ==> k in s.got.Values
    requires !k.send ==> Posted(c, s, Mate(c, k))
    ensures Possible(c, s, a)
  {
    hide Inv, Base, Possible, Posted, Open, IsKey;
    InvParts(c, s);
    if k in s.finished {
      PollPossible(c, s, k);
      a := Poll(Owner(k));
    } else if k.send || k in s.got {
      CompletePossible(c, s, k);
      a := Complete(k);
    } else {
      MatchPossible(c, s, k);
      a := Match(k, Mate(c, k));
    }
  }

  /** If a receive is not matched, neither is its partner. */
  lemma MateFree(c: Config, s: State, q: Key)
    requires ValidConfig(c) && Inv(c, s) && IsKey(c, q) && !q.send && q !in s.got
    ensures Mate(c, q) !in s.got.Values
  {
    forall x | x in s.got ensures s.got[x] != Mate(c, q) {
      GotKey(c, s, x);
      MateFacts(c, x);
      MateFacts(c, q);
    }
  }

  lemma DepartPossible(c: Config, s: State, p: Party, o: Party)
    requires ValidConfig(c) && Base(c, s) && IsParty(c, p) && IsParty(c, o) && Pc(s, o).size < Pc(s, p).size
    ensures Possible(c, s, Depart(o))
  {
    PartyOk(c, s, p);
    assert BarrierOk(c, s);
    hide Base;
    forall x | IsParty(c, x) ensures Pc(s, x).size > Pc(s, o).size || (Pc(s, x).size == Pc(s, o).size && Resting(c, Pc(s, x))) {
      assert Pc(s, p).size > Pc(s, x).size ==> Pc(s, p).size == Pc(s, x).size + 1 && Resting(c, Pc(s, x));
    }
  }

  predicate Behind(pc: PC, k: Key) { pc.size < k.size || (pc.size == k.size && pc.iter < k.iter) }

  /** A worker that has posted the last send of its window is done posting. */
  lemma LastPosted(c: Config, pc: PC, x: Key)
    requires PcOk(c, RoleOf(c, x.rank), pc) && Current(x, pc) && x.send && x.j + 1 == Window(c, RoleOf(c, x.rank), true)
    requires PostedAt(c, pc, x)
    ensures !IsPost(pc.phase)
  {
  }

  /** What holds of the partner's operations of an iteration that k's worker has left. */
  lemma Passed(c: Config, s: State, k: Key, x: Key)
    requires ValidConfig(c) && Inv(c, s) && Posted(c, s, k) && IsKey(c, x) && x.rank == Peer(c, k.rank) && x.w == k.w
    requires Before(x, k)
    ensures if x.send then x in s.got.Values && Posted(c, s, x) else Posted(c, s, Mate(c, x))
  {
    hide Inv, Earlier, Peer, PostedAt, MustPoll;
    PeerPeer(c, k.rank);
    MateFacts(c, x);
    hide IsKey;
    BeforePosted(c, Pc(s, Owner(k)), Mate(c, x), k);
    if x.send {
      PolledRecv(c, s, Mate(c, x));
    }
  }

  /** A worker that is an iteration behind its partner is not posting any more. */
  lemma BehindPolls(c: Config, s: State, k: Key, o: Party)
    requires ValidConfig(c) && Inv(c, s) && Posted(c, s, k) && o == Party(Peer(c, k.rank), k.w)
    requires IsParty(c, o) && Working(c, Pc(s, o)) && Behind(Pc(s, o), k)
    ensures !IsPost(Pc(s, o).phase)
  {
    var pc := Pc(s, o);
    var x := Key(o.rank, o.w, true, pc.size, pc.iter, Window(c, RoleOf(c, o.rank), true) - 1);
    hide Inv, Base, PostedAt, PcOk;
    InvParts(c, s);
    PartyOk(c, s, o);
    Passed(c, s, k, x);
    LastPosted(c, pc, x);
  }

  lemma BehindMoves(c: Config, s: State, k: Key, o: Party) returns (a: Action)
    requires ValidConfig(c) && Inv(c, s) && Posted(c, s, k) && o == Party(Peer(c, k.rank), k.w)
    requires IsParty(c, o) && Behind(Pc(s, o), k)
    ensures Possible(c, s, a)
  {
    hide Inv, Base, Possible, PostedAt;
    InvParts(c, s);
    PartyOk(c, s, o);
    if Resting(c, Pc(s, o)) {
      BehindAtBarrier(c, s, k, o);
      DepartPossible(c, s, Owner(k), o);
      a := Depart(o);
    } else {
      BehindPolls(c, s, k, o);
      var x := Awaited(c, s, o);
      hide Posted;
      Passed(c, s, k, x);
      a := Advance(c, s, x);
    }
  }

  lemma BehindAtBarrier(c: Config, s: State, k: Key, o: Party)
    requires Posted(c, s, k) && Behind(Pc(s, o), k) && Resting(c, Pc(s, o))
    ensures Pc(s, o).size < Pc(s, Owner(k)).size
  {
  }

  /** A receive that is not posted by a worker who has reached its iteration is being posted. */
  lemma BeingPosted(c: Config, pc: PC, q: Key)
    requires IsKey(c, q) && !q.send && !PostedAt(c, pc, q) && !Behind(pc, q)
    ensures Working(c, pc) && pc.phase == PostR
  {
  }

  /** A posted send gets completed: its receive is posted, or its partner can still post it,
      since receives are never throttled. */
  lemma SendMoves(c: Config, s: State, k: Key) returns (a: Action)
    requires ValidConfig(c) && Inv(c, s) && Posted(c, s, k) && k.send && k !in s.finished
    ensures Possible(c, s, a)
  {
    var q := Mate(c, k);
    hide Inv, Base, Possible, PostedAt;
    InvParts(c, s);
    MateFacts(c, k);
    if k in s.got.Values {
      CompletePossible(c, s, k);
      a := Complete(k);
    } else if Posted(c, s, q) {
      if q in s.got {
        GotKey(c, s, q);
      }
      MatchPossible(c, s, q);
      a := Match(q, k);
    } else if Behind(Pc(s, Owner(q)), k) {
      a := BehindMoves(c, s, k, Owner(q));
    } else {
      BeingPosted(c, Pc(s, Owner(q)), q);
      PostRPossible(c, s, Owner(q));
      a := Post(Owner(q));
    }
  }

  /** A worker that wants to post can, or the throttle holds it back and then a send can move. */
  lemma PostMoves(c: Config, s: State, p: Party) returns (a: Action)
    requires ValidConfig(c) && Inv(c, s) && IsParty(c, p) && Working(c, Pc(s, p)) && IsPost(Pc(s, p).phase)
    ensures Possible(c, s, a)
  {
    hide Inv, Base;
    InvParts(c, s);
    if Pc(s, p).phase.PostS? && c.pendingMax > 0 && |Pending(c, s, p.rank)| > c.pendingMax {
      var k :| k in Pending(c, s, p.rank);
      a := SendMoves(c, s, k);
    } else {
      a := Post(p);
    }
  }

  /** A receive whose partner is not posted yet: the other worker can move. */
  lemma RecvMoves(c: Config, s: State, k: Key) returns (a: Action)
    requires ValidConfig(c) && Inv(c, s) && IsKey(c, k) && !k.send && Open(s, k) && Posted(c, s, k)
    requires !Posted(c, s, Mate(c, k))
    ensures Possible(c, s, a)
  {
    var x := Mate(c, k);
    var o := Owner(x);
    MateFacts(c, k);
    hide Inv, Base, Possible;
    InvParts(c, s);
    if Behind(Pc(s, o), k) {
      a := BehindMoves(c, s, k, o);
    } else if IsPost(Pc(s, o).phase) {
      a := PostMoves(c, s, o);
    } else {
      var y := Awaited(c, s, o);
      MateFacts(c, y);
      a := Advance(c, s, y);
    }
  }

  lemma WorkingMoves(c: Config, s: State, p: Party) returns (a: Action)
    requires ValidConfig(c) && Inv(c, s) && IsParty(c, p) && Working(c, Pc(s, p))
    ensures Possible(c, s, a)
  {
    hide Inv, Base;
    InvParts(c, s);
    if IsPost(Pc(s, p).phase) {
      a := PostMoves(c, s, p);
    } else {
      var k := Awaited(c, s, p);
      hide Possible, Posted;
      if k in s.finished {
        PollPossible(c, s, k);
        a := Poll(Owner(k));
      } else if k.send {
        a := SendMoves(c, s, k);
      } else if Posted(c, s, Mate(c, k)) {
        a := Advance(c, s, k);
      } else {
        a := RecvMoves(c, s, k);
      }
    }
  }

  ghost predicate AllDone(c: Config, s: State) { forall p :: IsParty(c, p) ==> Done(c, Pc(s, p)) }

  /** Until everyone is done, some step is possible. */
  lemma SomeMove(c: Config, s: State) returns (a: Action)
    requires ValidConfig(c) && Inv(c, s) && !AllDone(c, s)
    ensures Possible(c, s, a)
  {
    hide Inv, Base;
    InvParts(c, s);
    var p :| IsParty(c, p) && !Done(c, Pc(s, p));
    if Working(c, Pc(s, p)) {
      a := WorkingMoves(c, s, p);
    } else if o :| IsParty(c, o) && !(Pc(s, o).size > Pc(s, p).size || (Pc(s, o).size == Pc(s, p).size && Resting(c, Pc(s, o)))) {
      if Pc(s, o).size < Pc(s, p).size {
        DepartPossible(c, s, p, o);
        a := Depart(o);
      } else {
        a := WorkingMoves(c, s, o);
      }
    } else {
      a := Depart(p);
    }
  }

  /** With tags within get_max_tag, every reachable state that is not final has a possible step, and that
      brings the end nearer. */
  lemma Progress(c: Config, s: State) returns (a: Action)
    requires Reachable(c, s) && TagsFit(c) && !AllDone(c, s)
    ensures Possible(c, s, a) && |Left(c, Do(c, s, a))| < |Left(c, s)|
  {
    hide Inv, Reachable, Left, AllDone, Base;
    ReachInv(c, s);
    InvParts(c, s);
    a := SomeMove(c, s);
    StepShrinks(c, s, a);
  }

  // ---------------------------------------------------------------- so it finishes

  /** Every run is finite, even without the bound on tags. */
  lemma {:induction false} RunsAreShort(c: Config, acts: seq<Action>)
    requires ValidConfig(c) && Run(c, acts).Some?
    ensures |acts| + |Left(c, Run(c, acts).value)| <= |Left(c, Init())|
    decreases |acts|
  {
    hide Enabled, Do, Left, Base;
    if acts != [] {
      RunsAreShort(c, acts[..|acts| - 1]);
      RunBase(c, acts[..|acts| - 1]);
      StepShrinks(c, Run(c, acts[..|acts| - 1]).value, acts[|acts| - 1]);
    }
  }

  /** Whatever the schedule: no run is longer than the number of tasks; and with tags within get_max_tag a
      run that cannot go on has finished, even one in which sends only complete after they were received. */
  lemma EveryRunEnds(c: Config, acts: seq<Action>)
    requires ValidConfig(c) && Run(c, acts).Some?
    ensures |acts| <= |Left(c, Init())|
    ensures TagsFit(c) && (forall a :: !Possible(c, Run(c, acts).value, a)) ==> AllDone(c, Run(c, acts).value)
  {
    hide Possible, Left, TagsFit;
    RunsAreShort(c, acts);
    var s := Run(c, acts).value;
    if TagsFit(c) && !AllDone(c, s) {
      assert Reachable(c, s);
      var a := Progress(c, s);
    }
  }

  /** At the end every operation was polled, and with tags within get_max_tag every receive got exactly
      its partner. */
  lemma AllPolledAtEnd(c: Config, s: State, k: Key)
    requires Reachable(c, s) && AllDone(c, s) && IsKey(c, k)
    ensures k in s.polled && k in s.finished && (!k.send ==> k in s.got)
    ensures TagsFit(c) && !k.send ==> s.got[k] == Mate(c, k)
  {
    var acts :| Run(c, acts) == Some(s);
    RunBase(c, acts);
    DonePolled(c, s, k);
    if TagsFit(c) && !k.send {
      hide TagsFit, Reachable;
      ReachInv(c, s);
      GotKey(c, s, k);
    }
  }

  /** What a worker has done at the end, in the terms of the command line: in every size and iteration each worker of the
      starting ranks has polled exactly send_window sends and recv_window receives, and each worker of
      the answering ranks the other way round. */
  lemma WindowsAtEnd(c: Config, s: State, k: Key)
    requires Reachable(c, s) && AllDone(c, s)
    requires k.rank < 2 * c.half && k.w < c.nworkers && k.size < |c.sizes| && k.iter < c.niters
    ensures k.rank < c.half && k.send ==> (k in s.polled <==> k.j < c.sendWindow)
    ensures k.rank < c.half && !k.send ==> (k in s.polled <==> k.j < c.recvWindow)
    ensures k.rank >= c.half && k.send ==> (k in s.polled <==> k.j < c.recvWindow)
    ensures k.rank >= c.half && !k.send ==> (k in s.polled <==> k.j < c.sendWindow)
  {
    var acts :| Run(c, acts) == Some(s);
    RunBase(c, acts);
    if IsKey(c, k) {
      DonePolled(c, s, k);
    }
    assert FinishedOk(c, s) && PolledOk(c, s);
    hide Base;
  }

  lemma DonePolled(c: Config, s: State, k: Key)
    requires Base(c, s) && AllDone(c, s) && IsKey(c, k)
    ensures k in s.polled && k in s.finished && (!k.send ==> k in s.got)
  {
    hide TakenOk, QueuesOk, BarrierOk, PcsOk, WireOk;
    assert Done(c, Pc(s, Owner(k)));
    assert Due(c, s, k);
  }

  // ---------------------------------------------------------------- the throttle

  /** A step adds to the pending sends of a rank only by posting one while they are within the limit. */
  lemma StepPending(c: Config, s: State, a: Action, r: nat)
    requires Base(c, s) && Enabled(c, s, a) && c.pendingMax > 0
    ensures |Pending(c, Do(c, s, a), r)| <= |Pending(c, s, r)| || |Pending(c, Do(c, s, a), r)| <= c.pendingMax + 1
  {
    var s', x := Do(c, s, a), Pending(c, s, r);
    if a.Post? {
      var k := KeyAt(a.p, Pc(s, a.p));
      PostPending(c, s, a.p, r);
      if k.send && k.rank == r {
        assert |Pending(c, s, r)| <= c.pendingMax;
        hide Base, Enabled, Do, Pending;
        Smaller(Pending(c, s', r), x + {k});
      } else {
        hide Base, Enabled, Do, Pending;
        Smaller(Pending(c, s', r), x);
      }
    } else {
      OtherPending(c, s, a, r);
      hide Base, Enabled, Do, Pending;
      Smaller(Pending(c, s', r), x);
    }
  }

  lemma PostPending(c: Config, s: State, p: Party, r: nat)
    requires Base(c, s) && Enabled(c, s, Post(p))
    ensures var k, x := KeyAt(p, Pc(s, p)), Pending(c, s, r);
            Pending(c, DoPost(c, s, p), r) <= if k.send && k.rank == r then x + {k} else x
  {
    var s' := DoPost(c, s, p);
    assert s'.finished == s.finished;
    hide Base, Enabled, DoPost, Universe;
    forall k | k in Pending(c, s', r) ensures Posted(c, s, k) || k == KeyAt(p, Pc(s, p)) {
      PostChanges(c, s, p, k);
    }
    hide Posted;
  }

  lemma OtherPending(c: Config, s: State, a: Action, r: nat)
    requires Base(c, s) && Enabled(c, s, a) && !a.Post?
    ensures Pending(c, Do(c, s, a), r) <= Pending(c, s, r)
  {
    BaseConfig(c, s);
    hide Universe;
    var s' := Do(c, s, a);
    match a {
      case Poll(p) =>
        PollPcs(c, s, p, p);
        forall k | k in Pending(c, s', r) ensures Posted(c, s, k) {
          PollChanges(c, s, p, k);
        }
      case Depart(p) =>
        forall k | k in Pending(c, s', r) ensures Posted(c, s, k) {
          DepartPc(c, s, p, k);
        }
      case Match(_, _) => SamePcs(c, s, s');
      case Steal(_) => SamePcs(c, s, s');
      case Complete(_) => SamePcs(c, s, s');
      case Post(_) =>
    }
    hide Base, Enabled, Do, Posted;
  }

  lemma {:induction false} RunPending(c: Config, acts: seq<Action>, r: nat)
    requires ValidConfig(c) && Run(c, acts).Some? && c.pendingMax > 0
    ensures |Pending(c, Run(c, acts).value, r)| <= c.pendingMax + 1
    decreases |acts|
  {
    if acts == [] {
      assert Pending(c, Init(), r) == {};
    } else {
      hide Enabled, Do, Pending, Base;
      RunPending(c, acts[..|acts| - 1], r);
      RunBase(c, acts[..|acts| - 1]);
      StepPending(c, Run(c, acts[..|acts| - 1]).value, acts[|acts| - 1], r);
    }
  }

  /** A worker may post a receive at any time, and a send exactly while the rank's pending sends are within the
      limit. */
  lemma PostAllowedIff(c: Config, s: State, p: Party)
    requires ValidConfig(c) && IsParty(c, p) && !Done(c, Pc(s, p)) && Pc(s, p).iter < c.niters && IsPost(Pc(s, p).phase)
    ensures Enabled(c, s, Post(p)) <==>
            Pc(s, p).phase == PostR || c.pendingMax == 0
            || |set k | k in Universe(c) && k.rank == p.rank && k.send && Posted(c, s, k) && k !in s.finished| <= c.pendingMax
  {
    hide Universe, Posted;
    assert Pending(c, s, p.rank)
           == set k | k in Universe(c) && k.rank == p.rank && k.send && Posted(c, s, k) && k !in s.finished;
  }

  /** With the throttle on, a rank never has more than one send above the limit posted and not completed. */
  lemma ThrottleKept(c: Config, s: State, r: nat)
    requires Reachable(c, s) && c.pendingMax > 0
    ensures |set k | k in Universe(c) && k.rank == r && k.send && Posted(c, s, k) && k !in s.finished| <= c.pendingMax + 1
  {
    var acts :| Run(c, acts) == Some(s);
    RunPending(c, acts, r);
    assert Pending(c, s, r) == set k | k in Universe(c) && k.rank == r && k.send && Posted(c, s, k) && k !in s.finished;
  }
}
