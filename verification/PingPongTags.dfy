/**
 The exact bound on tags.  Every device keeps a put receive posted on the largest tag, from
 any source, and MPI may give it a message of the ping-pong that carries this tag.
 That can happen exactly if the tags of the exchange are not all within get_max_tag, and
 then the exchange cannot finish.
 */
module PingPongTags {
  import opened Wrappers
  import opened Payload
  import opened Layout
  import opened PingPongModel
  import opened PingPongInvariant
  import opened PingPongBase
  import opened PingPongSafety
  import opened PingPongProgress

  /** There is something to send. */
  predicate Busy(c: Config) { c.sizes != [] && c.niters > 0 }

  // ---------------------------------------------------------------- a theft is fatal

  lemma {:induction false} InjectiveCard<T>(a: set<T>, b: set<T>, m: map<T, T>)
    requires a <= m.Keys && (forall x :: x in a ==> m[x] in b)
    requires forall x, y :: x in a && y in a && m[x] == m[y] ==> x == y
    ensures |a| <= |b|
  {
    if a != {} {
      var x :| x in a;
      InjectiveCard(a - {x}, b - {m[x]}, m);
    }
  }

  /** All operations of one kind. */
  ghost function Planned(c: Config, send: bool): set<Key> { set k | k in Universe(c) && IsKey(c, k) && k.send == send }

  lemma InPlan(c: Config, k: Key)
    ensures k in Planned(c, k.send) <==> IsKey(c, k)
  {
    if IsKey(c, k) {
      KeyInUniverse(c, k);
    }
    hide Universe;
  }

  /** As many receives as sends are planned. */
  lemma AsManySends(c: Config)
    requires ValidConfig(c)
    ensures |Planned(c, true)| <= |Planned(c, false)|
  {
    var a, b := Planned(c, true), Planned(c, false);
    var m := map k | k in a :: Mate(c, k);
    forall k | k in a ensures m[k] in b && Mate(c, m[k]) == k {
      InPlan(c, k);
      MateFacts(c, k);
      InPlan(c, Mate(c, k));
    }
    hide Planned, Mate;
    InjectiveCard(a, b, m);
  }

  /** At the end, every receive has taken a message of its own that no put receive took. */
  lemma TakenFromRest(c: Config, s: State, k: Key, q: Key)
    requires Base(c, s) && AllDone(c, s) && k in s.stolen && q in Planned(c, false)
    ensures q in s.got && s.got[q] in Planned(c, true) - {k}
  {
    InPlan(c, q);
    DonePolled(c, s, q);
    assert WireOk(c, s);
    hide Base, AllDone, Planned;
    InPlan(c, s.got[q]);
  }

  lemma TakenOnce(c: Config, s: State)
    requires Base(c, s)
    ensures forall p, q :: p in s.got && q in s.got && s.got[p] == s.got[q] ==> p == q
    ensures forall k :: k in s.stolen ==> k in Planned(c, true)
  {
    assert WireOk(c, s);
    hide Base, Planned;
    forall k | k in s.stolen ensures k in Planned(c, true) {
      InPlan(c, k);
    }
  }

  lemma Pigeonholes(c: Config, s: State, k: Key)
    requires Base(c, s) && AllDone(c, s) && k in s.stolen
    ensures |Planned(c, false)| < |Planned(c, true)|
  {
    hide Base, AllDone, Planned;
    var a, b := Planned(c, false), Planned(c, true);
    TakenOnce(c, s);
    forall q | q in a ensures q in s.got && s.got[q] in b - {k} {
      TakenFromRest(c, s, k, q);
    }
    InjectiveCard(a, b - {k}, s.got);
  }

  /** If a put receive took a message, some receive is never matched: the exchange cannot have finished. */
  lemma TheftHangs(c: Config, s: State)
    requires Base(c, s) && s.stolen != {}
    ensures !AllDone(c, s)
  {
    hide Base, AllDone, Planned;
    BaseConfig(c, s);
    AsManySends(c);
    if AllDone(c, s) {
      var k :| k in s.stolen;
      Pigeonholes(c, s, k);
    }
  }

  // ---------------------------------------------------------------- when it can happen

  /** Some message carries the put receive's tag. */
  lemma KeyOfPutTag(c: Config) returns (k: Key)
    requires ValidConfig(c) && Busy(c) && !TagsFit(c)
    ensures IsKey(c, k) && k.send && Tag(c, k.w, k.j) == PutTag(c)
  {
    var n, j := c.nworkers, c.maxTag / c.nworkers;
    QuotientIs(c.maxTag, n, j);
    assert n * Widest(c) == Widest(c) * n;
    assert c.maxTag == j * n + c.maxTag % n;
    MulLess(j, Widest(c), n);
    k := Key(if c.sendWindow >= c.recvWindow then 0 else c.half, c.maxTag % n, true, 0, 0, j);
  }

  /** A message that has just been posted is free for any receive to take. */
  lemma JustPosted(c: Config, s: State, a: Action, k: Key)
    requires Inv(c, s) && Enabled(c, s, a) && !a.Steal? && IsKey(c, k) && !Posted(c, s, k) && Posted(c, Do(c, s, a), k)
    ensures k !in Do(c, s, a).got.Values && k !in Do(c, s, a).stolen
  {
    InvParts(c, s);
    hide Inv, Base, MemOk, MatesOk;
    PostIsNew(c, s, k);
    match a {
      case Post(p) => hide Next, Prepared, Enabled, Posted;
      case Poll(p) =>
        PollPcs(c, s, p, p);
        hide DoPoll, Enabled, Posted, Head;
      case Match(q, x) => hide SameWire, Message;
      case Complete(x) => hide Mem, Enabled, Posted;
      case Depart(p) => hide Enabled, Posted;
      case Steal(_) =>
    }
  }

  lemma RunExtends(c: Config, acts: seq<Action>, a: Action)
    requires ValidConfig(c) && Run(c, acts).Some? && Enabled(c, Run(c, acts).value, a)
    ensures Run(c, acts + [a]) == Some(Do(c, Run(c, acts).value, a))
  {
    hide Enabled, Do;
    assert (acts + [a])[..|acts + [a]| - 1] == acts;
  }

  /** Let the exchange run until the message is posted: then the put receive may take it. */
  lemma {:induction false} TheftReached(c: Config, acts: seq<Action>, k: Key) returns (more: seq<Action>)
    requires ValidConfig(c) && Run(c, acts).Some? && Inv(c, Run(c, acts).value)
    requires IsKey(c, k) && k.send && Tag(c, k.w, k.j) == PutTag(c) && !Posted(c, Run(c, acts).value, k)
    ensures Run(c, more).Some? && Enabled(c, Run(c, more).value, Steal(k))
    decreases |Left(c, Run(c, acts).value)|
  {
    var s := Run(c, acts).value;
    NotDoneYet(c, s, k);
    hide Inv, Base, Left, AllDone, Posted, IsKey, Do, Run, Tag;
    InvParts(c, s);
    var a := SomeMove(c, s);
    hide Enabled;
    RunExtends(c, acts, a);
    StepShrinks(c, s, a);
    StepInv(c, s, a);
    if Posted(c, Do(c, s, a), k) {
      more := acts + [a];
      JustPosted(c, s, a, k);
      StealEnabled(c, Do(c, s, a), k);
    } else {
      more := TheftReached(c, acts + [a], k);
    }
  }

  lemma NotDoneYet(c: Config, s: State, k: Key)
    requires IsKey(c, k) && !Posted(c, s, k)
    ensures !AllDone(c, s)
  {
    assert AllDone(c, s) ==> Done(c, Pc(s, Owner(k)));
  }

  lemma StealEnabled(c: Config, s: State, k: Key)
    requires ValidConfig(c) && Posted(c, s, k) && k.send && Tag(c, k.w, k.j) == PutTag(c)
    requires k !in s.got.Values && k !in s.stolen
    ensures Enabled(c, s, Steal(k))
  {
  }

  ghost predicate TheftPossible(c: Config)
    requires ValidConfig(c)
  {
    exists acts, k :: Run(c, acts).Some? && Enabled(c, Run(c, acts).value, Steal(k))
  }

  /** A put receive can take a message of the exchange if and only if some tag is above get_max_tag. */
  lemma TheftIff(c: Config)
    requires ValidConfig(c) && Busy(c)
    ensures TheftPossible(c) <==> !TagsFit(c)
  {
    if TagsFit(c) {
      forall acts, k | Run(c, acts).Some? ensures !Enabled(c, Run(c, acts).value, Steal(k)) {
        if Enabled(c, Run(c, acts).value, Steal(k)) {
          NoTheft(c, Run(c, acts).value, Steal(k));
        }
      }
    } else {
      var k := KeyOfPutTag(c);
      InitInv(c);
      hide Inv, TagsFit, Tag, Enabled;
      var more := TheftReached(c, [], k);
      assert Run(c, more).Some? && Enabled(c, Run(c, more).value, Steal(k));
    }
  }

  // ---------------------------------------------------------------- when the exchange always finishes

  ghost predicate Stuck(c: Config, s: State)
    requires ValidConfig(c)
  {
    forall a :: !Enabled(c, s, a)
  }

  lemma StolenStays(c: Config, s: State, a: Action)
    requires s.stolen != {}
    ensures Do(c, s, a).stolen != {}
  {
    hide Next, Prepared, Message, Mem;
  }

  /** A run after a theft goes on until it is stuck, short of the end. */
  lemma {:induction false} HangsAfterTheft(c: Config, acts: seq<Action>) returns (more: seq<Action>)
    requires ValidConfig(c) && Run(c, acts).Some? && Run(c, acts).value.stolen != {}
    ensures Run(c, more).Some? && Stuck(c, Run(c, more).value) && !AllDone(c, Run(c, more).value)
    decreases |Left(c, Run(c, acts).value)|
  {
    var s := Run(c, acts).value;
    hide Enabled, Left, Base, AllDone, Do;
    RunBase(c, acts);
    if a :| Enabled(c, s, a) {
      StepShrinks(c, s, a);
      RunExtends(c, acts, a);
      StolenStays(c, s, a);
      more := HangsAfterTheft(c, acts + [a]);
    } else {
      more := acts;
      TheftHangs(c, s);
    }
  }

  /** Without the bound, some run gets stuck before the end. */
  lemma SomeRunHangs(c: Config) returns (acts: seq<Action>)
    requires ValidConfig(c) && Busy(c) && !TagsFit(c)
    ensures Run(c, acts).Some? && Stuck(c, Run(c, acts).value) && !AllDone(c, Run(c, acts).value)
  {
    TheftIff(c);
    hide TagsFit, Enabled, AllDone, Stuck;
    var first, k :| Run(c, first).Some? && Enabled(c, Run(c, first).value, Steal(k));
    RunExtends(c, first, Steal(k));
    acts := HangsAfterTheft(c, first + [Steal(k)]);
  }

  /** The exchange always finishes if and only if its tags are within get_max_tag, that is, if the number
      of workers times the wider window is at most MPI_TAG_UB. */
  lemma FinishesIff(c: Config)
    requires ValidConfig(c) && Busy(c)
    ensures (forall acts :: Run(c, acts).Some? && Stuck(c, Run(c, acts).value) ==> AllDone(c, Run(c, acts).value))
            <==> TagsFit(c)
  {
    hide AllDone;
    if TagsFit(c) {
      forall acts | Run(c, acts).Some? && Stuck(c, Run(c, acts).value) ensures AllDone(c, Run(c, acts).value) {
        hide TagsFit, Enabled;
        EveryRunEnds(c, acts);
        assert forall a :: !Possible(c, Run(c, acts).value, a);
      }
    } else {
      hide TagsFit, Stuck;
      var acts := SomeRunHangs(c);
    }
  }

  /** For instance: with the smallest MPI_TAG_UB that MPI allows, 128 workers and windows of 256 messages
      use one tag too many, and some run hangs. */
  lemma HangsAt128By256(gen: Seed -> Draw) returns (c: Config, acts: seq<Action>)
    ensures c == Config(1, 128, 1, 256, 256, 1, [8], 0, 32767, gen) && ValidConfig(c) && !TagsFit(c)
    ensures Run(c, acts).Some? && Stuck(c, Run(c, acts).value) && !AllDone(c, Run(c, acts).value)
  {
    c := Config(1, 128, 1, 256, 256, 1, [8], 0, 32767, gen);
    hide Run, Stuck, AllDone;
    acts := SomeRunHangs(c);
  }
}
