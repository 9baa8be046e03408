/**
 What the ping-pong keeps in every run, whatever the tags: each worker's program
 counter says exactly which of its operations are posted and which it has polled, and no
 message is taken twice.
 */
module PingPongBase {
  import opened Basics
  import opened Wrappers
  import opened Payload
  import opened PingPongModel
  import opened PingPongInvariant

  // ---------------------------------------------------------------- one operation, one worker

  lemma BaseConfig(c: Config, s: State)
    requires Base(c, s)
    ensures ValidConfig(c)
  {
  }

  /** An operation that is posted and not polled belongs to its worker's current iteration. */
  lemma Unpolled(c: Config, s: State, k: Key)
    requires Base(c, s) && Posted(c, s, k) && k !in s.polled
    ensures Live(s, k) && !Due(c, s, k)
  {
    hide TakenOk, QueuesOk, BarrierOk, PcsOk, WireOk, FinishedOk;
  }

  lemma PartyOk(c: Config, s: State, p: Party)
    requires Base(c, s) && IsParty(c, p)
    ensures ValidConfig(c) && PcOk(c, RoleOf(c, p.rank), Pc(s, p))
  {
    hide TakenOk, QueuesOk, BarrierOk, WireOk, FinishedOk, PolledOk;
  }

  /** Moving one worker within its size keeps the program counters good. */
  lemma PcsKept(c: Config, s: State, s': State, p: Party, pc: PC)
    requires PcsOk(c, s) && BarrierOk(c, s) && IsParty(c, p) && !Resting(c, Pc(s, p))
    requires forall o :: Pc(s', o) == if o == p then pc else Pc(s, o)
    requires PcOk(c, RoleOf(c, p.rank), pc) && pc.size == Pc(s, p).size
    ensures PcsOk(c, s') && BarrierOk(c, s')
  {
    hide PcOk, Pc;
  }

  /** The parts of the invariant that speak of sets of operations, when no less is posted and
      only what was polled is due. */
  lemma SetsKept(c: Config, s: State, s': State)
    requires ValidConfig(c) && WireOk(c, s) && FinishedOk(c, s) && PolledOk(c, s)
    requires s'.got == s.got && s'.stolen == s.stolen && s'.finished == s.finished && s.polled <= s'.polled
    requires forall k :: IsKey(c, k) && Posted(c, s, k) ==>
               Posted(c, s', k) && (Due(c, s, k) || Open(s, k) ==> Due(c, s', k) || Open(s', k))
    requires forall k :: k in s'.polled && k !in s.polled ==> k in s.finished && Open(s, k)
    requires forall k :: IsKey(c, k) && Due(c, s', k) ==> k in s'.polled
    ensures WireOk(c, s') && FinishedOk(c, s') && PolledOk(c, s')
  {
    assert forall k :: Posted(c, s, k) ==> IsKey(c, k);
    hide Posted, Due, Open, IsKey, Mate;
  }

  lemma SameQueues(s: State, s': State)
    requires QueuesOk(s) && s'.queues == s.queues && s'.finished == s.finished && s'.polled == s.polled
    ensures QueuesOk(s')
  {
    assert forall ch :: QueueOf(s', ch) == QueueOf(s, ch);
    hide QueueOf;
  }

  /** With the same program counters, the same is posted and due. */
  lemma SamePcs(c: Config, s: State, s': State)
    requires s'.pcs == s.pcs
    ensures forall k :: Posted(c, s', k) <==> Posted(c, s, k)
    ensures forall k :: (Due(c, s', k) <==> Due(c, s, k)) && (Open(s', k) <==> Open(s, k)) && (Live(s', k) <==> Live(s, k))
    ensures PcsOk(c, s) ==> PcsOk(c, s')
    ensures BarrierOk(c, s) ==> BarrierOk(c, s')
    ensures TakenOk(c, s) && s'.polled == s.polled ==> TakenOk(c, s')
  {
    assert forall p :: Pc(s', p) == Pc(s, p);
    hide Pc, PostedAt, MustPoll, Polling, Current, IsKey, Taken, PcOk;
  }

  lemma {:induction false} FullWindow(t: set<nat>, n: nat)
    requires forall j :: j in t ==> j < n
    ensures |t| <= n && (|t| == n ==> forall j: nat :: j < n ==> j in t)
  {
    if n > 0 {
      FullWindow(t - {n - 1}, n - 1);
      assert n - 1 in t ==> t == (t - {n - 1}) + {n - 1};
      assert n - 1 !in t ==> t == t - {n - 1};
    }
  }

  lemma TakenNone(c: Config, polled: set<Key>, p: Party, pc: PC)
    requires forall k :: Owner(k) == p && Polling(pc, k) && k.j < Window(c, RoleOf(c, p.rank), k.send) ==> k !in polled
    requires !IsPost(pc.phase)
    ensures Taken(c, polled, p, pc) == {}
  {
    forall j: nat | j < Length(c, RoleOf(c, p.rank), pc.phase) ensures KeyIn(p, pc, j) !in polled {
      assert Owner(KeyIn(p, pc, j)) == p && Polling(pc, KeyIn(p, pc, j));
    }
  }

  lemma TakenMore(c: Config, polled: set<Key>, p: Party, pc: PC, n: nat, j: nat)
    requires j < Length(c, RoleOf(c, p.rank), pc.phase) && KeyIn(p, pc, j) !in polled
    ensures Taken(c, polled + {KeyIn(p, pc, j)}, p, pc.(idx := n)) == Taken(c, polled, p, pc) + {j}
    ensures |Taken(c, polled, p, pc) + {j}| == |Taken(c, polled, p, pc)| + 1
  {
    hide Length;
    assert j !in Taken(c, polled, p, pc);
  }

  lemma TakenAll(c: Config, polled: set<Key>, p: Party, pc: PC, k: Key)
    requires |Taken(c, polled, p, pc)| == Length(c, RoleOf(c, p.rank), pc.phase)
    requires Owner(k) == p && Polling(pc, k) && k.j < Window(c, RoleOf(c, p.rank), k.send)
    ensures k in polled
  {
    FullWindow(Taken(c, polled, p, pc), Length(c, RoleOf(c, p.rank), pc.phase));
    assert k.j in Taken(c, polled, p, pc) && k == KeyIn(p, pc, k.j);
  }

  lemma TakenOther(c: Config, polled: set<Key>, x: Key, p: Party, pc: PC)
    requires Owner(x) != p
    ensures Taken(c, polled + {x}, p, pc) == Taken(c, polled, p, pc)
  {
    hide Length;
  }

  // ---------------------------------------------------------------- posting

  lemma PostPcs(c: Config, s: State, p: Party, o: Party)
    ensures Pc(DoPost(c, s, p), o) == if o == p then Next(c, RoleOf(c, p.rank), Pc(s, p)) else Pc(s, o)
  {
    hide Next, Prepared;
  }

  /** Exactly one operation more is posted; none more has to be polled. */
  lemma PostChanges(c: Config, s: State, p: Party, k: Key)
    requires Base(c, s) && Enabled(c, s, Post(p)) && IsKey(c, k)
    ensures var s', x := DoPost(c, s, p), KeyAt(p, Pc(s, p));
            && IsKey(c, x) && !Posted(c, s, x)
            && (Posted(c, s', k) <==> Posted(c, s, k) || k == x)
            && (Due(c, s', k) <==> Due(c, s, k))
            && (Open(s, k) ==> Open(s', k))
            && (Live(s', k) ==> Live(s, k))
  {
    PartyOk(c, s, p);
    PostPcs(c, s, p, Owner(k));
    hide Base;
    var role, pc := RoleOf(c, p.rank), Pc(s, p);
    hide DoPost;
    NextPosted(c, role, pc, KeyAt(p, pc));
    if Owner(k) == p {
      NextPosted(c, role, pc, k);
      NextPolled(c, role, pc, k);
    }
  }

  /** The new operation is unknown to the library. */
  lemma PostIsNew(c: Config, s: State, k: Key)
    requires Base(c, s) && !Posted(c, s, k)
    ensures k !in s.got && k !in s.finished && k !in s.polled && k !in s.got.Values
  {
    hide TakenOk, QueuesOk, BarrierOk, PcsOk, Posted;
  }

  lemma PostPcsOk(c: Config, s: State, p: Party)
    requires Base(c, s) && Enabled(c, s, Post(p))
    ensures PcsOk(c, DoPost(c, s, p)) && BarrierOk(c, DoPost(c, s, p))
  {
    var s' := DoPost(c, s, p);
    assert PcsOk(c, s) && BarrierOk(c, s) && ValidConfig(c);
    hide Base, DoPost, Next, PcOk, BarrierOk, PcsOk;
    forall o ensures Pc(s', o) == if o == p then Next(c, RoleOf(c, p.rank), Pc(s, p)) else Pc(s, o) {
      PostPcs(c, s, p, o);
    }
    PartyOk(c, s, p);
    NextOk(c, RoleOf(c, p.rank), Pc(s, p));
    PcsKept(c, s, s', p, Next(c, RoleOf(c, p.rank), Pc(s, p)));
  }

  lemma PostSets(c: Config, s: State, p: Party)
    requires Base(c, s) && Enabled(c, s, Post(p))
    ensures var s' := DoPost(c, s, p); WireOk(c, s') && FinishedOk(c, s') && PolledOk(c, s') && QueuesOk(s')
  {
    var s' := DoPost(c, s, p);
    assert ValidConfig(c) && WireOk(c, s) && FinishedOk(c, s) && PolledOk(c, s) && QueuesOk(s);
    assert s'.got == s.got && s'.finished == s.finished && s'.polled == s.polled && s'.queues == s.queues;
    hide Base, DoPost, Due, Open, Enabled, WireOk, FinishedOk, QueuesOk;
    forall k | IsKey(c, k)
      ensures Posted(c, s, k) ==> Posted(c, s', k)
      ensures Due(c, s', k) <==> Due(c, s, k)
      ensures Open(s, k) ==> Open(s', k)
    {
      PostChanges(c, s, p, k);
    }
    SetsKept(c, s, s');
    SameQueues(s, s');
  }

  /** A worker that has just started to poll has polled nothing of this window. */
  lemma PostTaken(c: Config, s: State, p: Party)
    requires Base(c, s) && Enabled(c, s, Post(p))
    ensures TakenOk(c, DoPost(c, s, p))
  {
    var s' := DoPost(c, s, p);
    assert TakenOk(c, s) && s'.polled == s.polled;
    hide Base, DoPost, Taken;
    forall o | IsParty(c, o) && Working(c, Pc(s', o)) && !IsPost(Pc(s', o).phase)
      ensures |Taken(c, s'.polled, o, Pc(s', o))| == Pc(s', o).idx
    {
      PostPcs(c, s, p, o);
      if o == p {
        forall k | Owner(k) == p && Polling(Pc(s', p), k) && k.j < Window(c, RoleOf(c, p.rank), k.send) ensures k !in s.polled {
          PostNotTaken(c, s, p, k);
        }
        TakenNone(c, s.polled, p, Pc(s', p));
        PartyOk(c, s, p);
      }
    }
  }

  lemma PostNotTaken(c: Config, s: State, p: Party, k: Key)
    requires Base(c, s) && Enabled(c, s, Post(p)) && Owner(k) == p && Polling(Next(c, RoleOf(c, p.rank), Pc(s, p)), k)
    requires k.j < Window(c, RoleOf(c, p.rank), k.send)
    ensures k !in s.polled
  {
    PartyOk(c, s, p);
    NextPolled(c, RoleOf(c, p.rank), Pc(s, p), k);
    assert PolledOk(c, s);
    hide Base;
  }

  lemma PostBase(c: Config, s: State, p: Party)
    requires Base(c, s) && Enabled(c, s, Post(p))
    ensures Base(c, DoPost(c, s, p))
  {
    PostPcsOk(c, s, p);
    PostSets(c, s, p);
    PostTaken(c, s, p);
    BaseConfig(c, s);
    hide PcsOk, BarrierOk, WireOk, FinishedOk, PolledOk, TakenOk, QueuesOk;
  }

  // ---------------------------------------------------------------- polling

  /** The operation that a poll returns. */
  function Head(s: State, p: Party): Key
    requires QueueOf(s, Channel(p, IsSend(Pc(s, p).phase))) != []
  {
    QueueOf(s, Channel(p, IsSend(Pc(s, p).phase)))[0]
  }

  /** Every completion a worker polls was posted by that worker in its current iteration. */
  lemma HeadFacts(c: Config, s: State, p: Party)
    requires Base(c, s) && Enabled(c, s, Poll(p))
    ensures var k := Head(s, p);
            && IsKey(c, k) && Owner(k) == p && k.send == IsSend(Pc(s, p).phase) && Polling(Pc(s, p), k)
            && k in s.finished && k !in s.polled && (!k.send ==> k in s.got)
  {
    var k := Head(s, p);
    assert QueuesOk(s) && FinishedOk(c, s);
    assert k in s.finished && k !in s.polled && Channel(Owner(k), k.send) == Channel(p, IsSend(Pc(s, p).phase));
    hide QueuesOk;
    Unpolled(c, s, k);
    hide Base;
  }

  lemma PollPhase(c: Config, s: State, p: Party)
    requires ValidConfig(c) && Enabled(c, s, Poll(p))
    ensures IsParty(c, p) && Working(c, Pc(s, p)) && !IsPost(Pc(s, p).phase)
  {
  }

  lemma PollPcs(c: Config, s: State, p: Party, o: Party)
    requires ValidConfig(c) && Enabled(c, s, Poll(p))
    ensures Pc(DoPoll(c, s, p), o) == if o == p then Next(c, RoleOf(c, p.rank), Pc(s, p)) else Pc(s, o)
    ensures var s' := DoPoll(c, s, p);
            && s'.polled == s.polled + {Head(s, p)} && s'.finished == s.finished && s'.got == s.got
            && s'.mem == s.mem && s'.sent == s.sent
  {
    hide Next;
  }

  lemma PollChanges(c: Config, s: State, p: Party, k: Key)
    requires Base(c, s) && Enabled(c, s, Poll(p)) && IsKey(c, k)
    ensures var s' := DoPoll(c, s, p);
            && (Posted(c, s', k) <==> Posted(c, s, k))
            && (Due(c, s', k) ==>
                  Due(c, s, k)
                  || (Owner(k) == p && Polling(Pc(s, p), k) && Pc(s, p).idx + 1 == Length(c, RoleOf(c, p.rank), Pc(s, p).phase)))
            && (Due(c, s, k) || Open(s, k) ==>
                  Due(c, s', k) || Open(s', k))
            && (Live(s', k) && Posted(c, s, k) ==> Live(s, k))
  {
    PartyOk(c, s, p);
    PollPcs(c, s, p, Owner(k));
    hide Base, DoPoll;
    if Owner(k) == p {
      NextPosted(c, RoleOf(c, p.rank), Pc(s, p), k);
      NextPolled(c, RoleOf(c, p.rank), Pc(s, p), k);
    }
  }

  lemma PollPcsOk(c: Config, s: State, p: Party)
    requires Base(c, s) && Enabled(c, s, Poll(p))
    ensures PcsOk(c, DoPoll(c, s, p)) && BarrierOk(c, DoPoll(c, s, p))
  {
    var s' := DoPoll(c, s, p);
    assert PcsOk(c, s) && BarrierOk(c, s) && ValidConfig(c);
    hide Base, DoPoll, Next, PcOk, BarrierOk, PcsOk;
    forall o ensures Pc(s', o) == if o == p then Next(c, RoleOf(c, p.rank), Pc(s, p)) else Pc(s, o) {
      PollPcs(c, s, p, o);
    }
    PartyOk(c, s, p);
    NextOk(c, RoleOf(c, p.rank), Pc(s, p));
    PcsKept(c, s, s', p, Next(c, RoleOf(c, p.rank), Pc(s, p)));
  }

  /** One more operation of the window is polled. */
  lemma PollTakes(c: Config, s: State, p: Party)
    requires Base(c, s) && Enabled(c, s, Poll(p))
    ensures forall n: nat :: |Taken(c, s.polled + {Head(s, p)}, p, Pc(s, p).(idx := n))| == Pc(s, p).idx + 1
  {
    HeadFacts(c, s, p);
    var k := Head(s, p);
    assert k == KeyIn(p, Pc(s, p), k.j);
    assert TakenOk(c, s);
    hide Base, Head, Taken;
    forall n: nat ensures |Taken(c, s.polled + {k}, p, Pc(s, p).(idx := n))| == Pc(s, p).idx + 1 {
      TakenMore(c, s.polled, p, Pc(s, p), n, k.j);
    }
  }

  lemma PollKey(c: Config, s: State, p: Party, k: Key)
    requires Base(c, s) && Enabled(c, s, Poll(p)) && IsKey(c, k)
    ensures var s' := DoPoll(c, s, p);
            && (Posted(c, s, k) ==> Posted(c, s', k))
            && (Due(c, s', k) ==> k in s'.polled)
            && (Due(c, s, k) || Open(s, k) ==>
                  Due(c, s', k) || Open(s', k))
  {
    BaseConfig(c, s);
    PollPcs(c, s, p, p);
    PollChanges(c, s, p, k);
    assert PolledOk(c, s);
    hide Base, DoPoll, Due, Taken, Head;
    if Due(c, DoPoll(c, s, p), k) && !Due(c, s, k) {
      PollTakes(c, s, p);
      assert Pc(s, p).(idx := Pc(s, p).idx) == Pc(s, p);
      TakenAll(c, s.polled + {Head(s, p)}, p, Pc(s, p), k);
    }
  }

  lemma HeadOpen(c: Config, s: State, p: Party)
    requires Base(c, s) && Enabled(c, s, Poll(p))
    ensures Open(s, Head(s, p)) && Head(s, p) in s.finished
  {
    HeadFacts(c, s, p);
    hide Base, Head;
  }

  lemma PollSets(c: Config, s: State, p: Party)
    requires Base(c, s) && Enabled(c, s, Poll(p))
    ensures var s' := DoPoll(c, s, p); WireOk(c, s') && FinishedOk(c, s') && PolledOk(c, s')
  {
    var s' := DoPoll(c, s, p);
    assert ValidConfig(c) && WireOk(c, s) && FinishedOk(c, s) && PolledOk(c, s);
    hide Base, DoPoll, Due, Enabled, WireOk, FinishedOk, PolledOk, Open, Head, Posted, IsKey, Pc;
    HeadOpen(c, s, p);
    PollPcs(c, s, p, p);
    forall k | IsKey(c, k)
      ensures Posted(c, s, k) ==> Posted(c, s', k)
      ensures Due(c, s', k) ==> k in s'.polled
      ensures Due(c, s, k) || Open(s, k) ==> Due(c, s', k) || Open(s', k)
    {
      PollKey(c, s, p, k);
    }
    SetsKept(c, s, s');
  }

  lemma PollQueues(c: Config, s: State, p: Party)
    requires Base(c, s) && Enabled(c, s, Poll(p))
    ensures QueuesOk(DoPoll(c, s, p))
  {
    BaseConfig(c, s);
    assert QueuesOk(s);
    hide Base;
    QueuesPop(s, DoPoll(c, s, p), Channel(p, IsSend(Pc(s, p).phase))) by {
      hide Next;
    }
  }

  lemma QueuesPop(s: State, s': State, ch: Channel)
    requires QueuesOk(s) && QueueOf(s, ch) != [] && s'.finished == s.finished
    requires s'.queues == s.queues[ch := QueueOf(s, ch)[1..]] && s'.polled == s.polled + {QueueOf(s, ch)[0]}
    ensures QueuesOk(s')
  {
    var x := QueueOf(s, ch)[0];
    assert Channel(Owner(x), x.send) == ch;
    forall d, i | 0 <= i < |QueueOf(s', d)|
      ensures var k := QueueOf(s', d)[i]; k in s'.finished && k !in s'.polled && Channel(Owner(k), k.send) == d
    {
      assert QueueOf(s', d)[i] == QueueOf(s, d)[if d == ch then i + 1 else i];
      assert Channel(Owner(QueueOf(s', d)[i]), QueueOf(s', d)[i].send) == d;
    }
    forall d, i, j | 0 <= i < |QueueOf(s', d)| && 0 <= j < |QueueOf(s', d)| && QueueOf(s', d)[i] == QueueOf(s', d)[j]
      ensures i == j
    {
      var n := if d == ch then 1 else 0;
      assert QueueOf(s, d)[i + n] == QueueOf(s, d)[j + n];
    }
    forall k | k in s'.finished && k !in s'.polled ensures k in QueueOf(s', Channel(Owner(k), k.send)) {
      assert k in QueueOf(s, Channel(Owner(k), k.send));
    }
  }

  /** Staying in a polling phase is one more poll; leaving it starts the next phase at zero. */
  lemma SamePhase(c: Config, role: Role, pc: PC)
    requires !IsPost(pc.phase) && Next(c, role, pc).phase == pc.phase
    ensures Next(c, role, pc) == pc.(idx := pc.idx + 1)
  {
  }

  lemma PollTakenAt(c: Config, s: State, p: Party)
    requires Base(c, s) && Enabled(c, s, Poll(p))
    ensures var pc := Next(c, RoleOf(c, p.rank), Pc(s, p));
            !IsPost(pc.phase) && Working(c, pc) ==> |Taken(c, s.polled + {Head(s, p)}, p, pc)| == pc.idx
  {
    var pc, polled := Next(c, RoleOf(c, p.rank), Pc(s, p)), s.polled + {Head(s, p)};
    hide Base, Taken, Head, Polling, Pc;
    BaseConfig(c, s);
    PollTakes(c, s, p);
    if pc.phase == Pc(s, p).phase {
      SamePhase(c, RoleOf(c, p.rank), Pc(s, p));
    } else if !IsPost(pc.phase) {
      forall k | Owner(k) == p && Polling(pc, k) && k.j < Window(c, RoleOf(c, p.rank), k.send) ensures k !in polled {
        PollNotTaken(c, s, p, k);
      }
      TakenNone(c, polled, p, pc);
    }
  }

  lemma PollTaken(c: Config, s: State, p: Party)
    requires Base(c, s) && Enabled(c, s, Poll(p))
    ensures TakenOk(c, DoPoll(c, s, p))
  {
    var s' := DoPoll(c, s, p);
    BaseConfig(c, s);
    PollTakenAt(c, s, p);
    HeadFacts(c, s, p);
    assert TakenOk(c, s);
    hide Base, DoPoll, Taken, Next, Head;
    forall o | IsParty(c, o) && Working(c, Pc(s', o)) && !IsPost(Pc(s', o).phase)
      ensures |Taken(c, s'.polled, o, Pc(s', o))| == Pc(s', o).idx
    {
      PollPcs(c, s, p, o);
      if o != p {
        TakenOther(c, s.polled, Head(s, p), o, Pc(s, o));
      }
    }
  }

  lemma PollNotTaken(c: Config, s: State, p: Party, k: Key)
    requires Base(c, s) && Enabled(c, s, Poll(p)) && Owner(k) == p && k.j < Window(c, RoleOf(c, p.rank), k.send)
    requires Polling(Next(c, RoleOf(c, p.rank), Pc(s, p)), k) && Next(c, RoleOf(c, p.rank), Pc(s, p)).phase != Pc(s, p).phase
    ensures k !in s.polled && k != Head(s, p)
  {
    assert PolledOk(c, s);
    hide Base, Head, Next, MustPoll, Polling, Enabled;
    PollPhase(c, s, p);
    HeadFacts(c, s, p);
    NextFresh(c, RoleOf(c, p.rank), Pc(s, p), k);
  }

  lemma PollBase(c: Config, s: State, p: Party)
    requires Base(c, s) && Enabled(c, s, Poll(p))
    ensures Base(c, DoPoll(c, s, p))
  {
    PollPcsOk(c, s, p);
    PollSets(c, s, p);
    PollQueues(c, s, p);
    PollTaken(c, s, p);
    BaseConfig(c, s);
    hide PcsOk, BarrierOk, WireOk, FinishedOk, PolledOk, TakenOk, QueuesOk;
  }

  // ---------------------------------------------------------------- the library

  /** The program counters and the queues stay; the sets grow as they may. */
  lemma LibraryBase(c: Config, s: State, s': State)
    requires Base(c, s) && s'.pcs == s.pcs && s'.polled == s.polled
    requires WireOk(c, s') && FinishedOk(c, s') && QueuesOk(s') && s.finished <= s'.finished
    ensures Base(c, s')
  {
    hide Posted, Due, Open, Live, IsKey, WireOk, FinishedOk, QueuesOk, PcsOk, BarrierOk, TakenOk;
    SamePcs(c, s, s');
  }

  lemma MatchWire(c: Config, s: State, s': State, q: Key, k: Key)
    requires WireOk(c, s) && FinishedOk(c, s) && s'.pcs == s.pcs && s'.got == s.got[q := k] && s'.stolen == s.stolen
    requires s'.finished == s.finished && !q.send && k.send && Posted(c, s, q) && Posted(c, s, k)
    requires q !in s.got && k !in s.got.Values && k !in s.stolen
    ensures WireOk(c, s') && FinishedOk(c, s')
  {
    hide Posted, Due, Open, Live, IsKey;
    SamePcs(c, s, s');
  }

  lemma MatchBase(c: Config, s: State, q: Key, k: Key)
    requires Base(c, s) && Enabled(c, s, Match(q, k))
    ensures Base(c, DoMatch(c, s, q, k))
  {
    var s' := DoMatch(c, s, q, k);
    assert ValidConfig(c) && WireOk(c, s) && FinishedOk(c, s) && QueuesOk(s);
    hide Base, Posted, WireOk, FinishedOk, QueuesOk, SameWire, Message;
    MatchWire(c, s, s', q, k);
    SameQueues(s, s');
    LibraryBase(c, s, s');
  }

  lemma StealWire(c: Config, s: State, s': State, k: Key)
    requires WireOk(c, s) && FinishedOk(c, s) && s'.pcs == s.pcs && s'.got == s.got && s'.stolen == s.stolen + {k}
    requires s'.finished == s.finished && k.send && Posted(c, s, k) && k !in s.got.Values
    ensures WireOk(c, s') && FinishedOk(c, s')
  {
    hide Posted, Due, Open, Live, IsKey;
    SamePcs(c, s, s');
  }

  lemma StealBase(c: Config, s: State, k: Key)
    requires Base(c, s) && Enabled(c, s, Steal(k))
    ensures Base(c, Do(c, s, Steal(k)))
  {
    var s' := Do(c, s, Steal(k));
    assert ValidConfig(c) && WireOk(c, s) && FinishedOk(c, s) && QueuesOk(s);
    hide Base, Posted, WireOk, FinishedOk, QueuesOk;
    StealWire(c, s, s', k);
    SameQueues(s, s');
    LibraryBase(c, s, s');
  }

  lemma QueuesPush(s: State, s': State, k: Key)
    requires QueuesOk(s) && k !in s.finished && k !in s.polled && s'.finished == s.finished + {k} && s'.polled == s.polled
    requires var ch := Channel(Owner(k), k.send); s'.queues == s.queues[ch := QueueOf(s, ch) + [k]]
    ensures QueuesOk(s')
  {
    var ch := Channel(Owner(k), k.send);
    forall d, i | 0 <= i < |QueueOf(s', d)|
      ensures var x := QueueOf(s', d)[i]; x in s'.finished && x !in s'.polled && Channel(Owner(x), x.send) == d
    {
      if d != ch || i < |QueueOf(s, ch)| {
        assert QueueOf(s', d)[i] == QueueOf(s, d)[i];
        assert Channel(Owner(QueueOf(s', d)[i]), QueueOf(s', d)[i].send) == d;
      }
    }
    forall d, i, j | 0 <= i < |QueueOf(s', d)| && 0 <= j < |QueueOf(s', d)| && QueueOf(s', d)[i] == QueueOf(s', d)[j]
      ensures i == j
    {
      if d == ch {
        assert i < |QueueOf(s, d)| ==> QueueOf(s', d)[i] == QueueOf(s, d)[i];
        assert j < |QueueOf(s, d)| ==> QueueOf(s', d)[j] == QueueOf(s, d)[j];
      } else {
        assert QueueOf(s', d) == QueueOf(s, d);
      }
    }
    forall x | x in s'.finished && x !in s'.polled ensures x in QueueOf(s', Channel(Owner(x), x.send)) {
      if x == k {
        assert QueueOf(s', ch)[|QueueOf(s, ch)|] == k;
      } else {
        assert x in QueueOf(s, Channel(Owner(x), x.send));
      }
    }
  }

  lemma CompleteWire(c: Config, s: State, s': State, k: Key)
    requires WireOk(c, s) && FinishedOk(c, s) && s'.pcs == s.pcs && s'.got == s.got && s'.stolen == s.stolen
    requires s'.finished == s.finished + {k} && Posted(c, s, k) && (!k.send ==> k in s.got)
    ensures WireOk(c, s') && FinishedOk(c, s')
  {
    hide Posted, Due, Open, Live, IsKey;
    SamePcs(c, s, s');
  }

  lemma CompleteBase(c: Config, s: State, k: Key)
    requires Base(c, s) && Enabled(c, s, Complete(k))
    ensures Base(c, DoComplete(c, s, k))
  {
    var s' := DoComplete(c, s, k);
    assert ValidConfig(c) && WireOk(c, s) && FinishedOk(c, s) && QueuesOk(s);
    assert k !in s.polled by {
      assert PolledOk(c, s);
    }
    hide Base, Posted, WireOk, FinishedOk, QueuesOk, Mem;
    CompleteWire(c, s, s', k);
    QueuesPush(s, s', k);
    LibraryBase(c, s, s');
  }

  // ---------------------------------------------------------------- the barrier

  lemma DepartPc(c: Config, s: State, p: Party, k: Key)
    requires Base(c, s) && Enabled(c, s, Depart(p)) && IsKey(c, k)
    ensures var s' := DoDepart(s, p);
            && (Posted(c, s', k) <==> Posted(c, s, k)) && (Due(c, s', k) <==> Due(c, s, k))
            && (Open(s, k) ==> Open(s', k)) && (Live(s', k) && Posted(c, s, k) ==> Live(s, k))
  {
    PartyOk(c, s, p);
    hide Base;
  }

  lemma DepartSets(c: Config, s: State, p: Party)
    requires Base(c, s) && Enabled(c, s, Depart(p))
    ensures var s' := DoDepart(s, p); WireOk(c, s') && FinishedOk(c, s') && PolledOk(c, s') && QueuesOk(s')
  {
    var s' := DoDepart(s, p);
    assert ValidConfig(c) && WireOk(c, s) && FinishedOk(c, s) && PolledOk(c, s) && QueuesOk(s);
    assert s'.got == s.got && s'.finished == s.finished && s'.polled == s.polled && s'.queues == s.queues;
    hide Base, DoDepart, Due, Open, Enabled, WireOk, FinishedOk, QueuesOk;
    forall k | IsKey(c, k)
      ensures Posted(c, s, k) ==> Posted(c, s', k)
      ensures Due(c, s', k) <==> Due(c, s, k)
      ensures Open(s, k) ==> Open(s', k)
    {
      DepartPc(c, s, p, k);
    }
    SetsKept(c, s, s');
    SameQueues(s, s');
  }

  lemma DepartPcsOk(c: Config, s: State, p: Party)
    requires Base(c, s) && Enabled(c, s, Depart(p))
    ensures PcsOk(c, DoDepart(s, p)) && BarrierOk(c, DoDepart(s, p)) && TakenOk(c, DoDepart(s, p))
  {
    var s' := DoDepart(s, p);
    PartyOk(c, s, p);
    assert PcsOk(c, s) && BarrierOk(c, s) && TakenOk(c, s) && s'.polled == s.polled;
    forall o ensures Pc(s', o) == if o == p then PC(Pc(s, p).size + 1, 0, PostR, 0) else Pc(s, o) {
    }
    hide Base, DoDepart, Pc, Taken;
  }

  lemma DepartBase(c: Config, s: State, p: Party)
    requires Base(c, s) && Enabled(c, s, Depart(p))
    ensures Base(c, DoDepart(s, p))
  {
    DepartSets(c, s, p);
    DepartPcsOk(c, s, p);
    BaseConfig(c, s);
    hide PcsOk, BarrierOk, WireOk, FinishedOk, PolledOk, TakenOk, QueuesOk;
  }

  // ---------------------------------------------------------------- every run

  lemma InitBase(c: Config)
    requires ValidConfig(c)
    ensures Base(c, Init())
  {
  }

  /** Every action keeps the base invariant. */
  lemma StepBase(c: Config, s: State, a: Action)
    requires Base(c, s) && Enabled(c, s, a)
    ensures Base(c, Do(c, s, a))
  {
    hide Base, Enabled;
    match a
    case Post(p) => PostBase(c, s, p);
    case Poll(p) => PollBase(c, s, p);
    case Match(q, k) => MatchBase(c, s, q, k);
    case Steal(k) => StealBase(c, s, k);
    case Complete(k) => CompleteBase(c, s, k);
    case Depart(p) => DepartBase(c, s, p);
  }

  lemma {:induction false} RunBase(c: Config, acts: seq<Action>)
    requires ValidConfig(c) && Run(c, acts).Some?
    ensures Base(c, Run(c, acts).value)
    decreases |acts|
  {
    hide Base, Enabled, Do;
    if acts == [] {
      InitBase(c);
    } else {
      RunBase(c, acts[..|acts| - 1]);
      StepBase(c, Run(c, acts[..|acts| - 1]).value, acts[|acts| - 1]);
    }
  }
}
