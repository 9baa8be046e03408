/**
 The throttle's bound is tight: for every limit and every number of threads, some
 run exceeds the limit by exactly the number of threads.
 */
module EngineBound {
  import opened Basics
  import opened EngineModel
  import opened EngineReach
  import opened EngineLedger

  /** One device, one queue, n threads of one process. */
  function Racers(n: nat, max: nat): Config {
    Config(seq(n, _ => 0), [DevCfg(0, 0, 10, 0, 0, 0)], [0], [CompCfg(0, true)], false, max)
  }

  const SEND_OP := OpInfo(Record(SEND, 0, 0, 0, User(0), 0, 0), 0, [])

  // ---------------------------------------------------------------- one thread sends up to the limit

  ghost predicate Calm(c: Config, s: State, n: int) {
    Reachable(c, s) && s.locks == map[] && (forall t: nat :: Fr(s, t).at == Idle) && Pending(s.g, 0) == n
  }

  /** Thread 0 is alone in a send, at location `a`, and holds the manager lock or nothing. */
  ghost predicate Alone(c: Config, s: State, a: Loc, n: int) {
    && Reachable(c, s) && |c.threads| > 0 && !c.useStream && Fr(s, 0).at == a && Fr(s, 0).e.dev == 0
    && s.locks == (if a == Pushing then map[MgrLock(Dev(c, 0).mgr) := 0] else map[])
    && (forall t: nat :: t != 0 ==> Fr(s, t).at == Idle) && Pending(s.g, 0) == n
  }

  lemma Admitted(n: nat, max: nat, s: State, k: nat) returns (s': State)
    requires n > 0 && max > 0 && k <= max && Calm(Racers(n, max), s, k)
    ensures Alone(Racers(n, max), s', Ready, k + 1)
  {
    var c := Racers(n, max);
    hide Reachable;
    s' := Advance(c, s, 0, DoPost(SEND_OP));
    s' := Advance(c, s', 0, Go(false));
  }

  function After(a: Loc): Loc {
    match a
    case Ready => Posting
    case Posting => Adding
    case Adding => Pushing
    case _ => Started
  }

  lemma PostStep(c: Config, s: State, a: Loc, n: int) returns (s': State)
    requires Alone(c, s, a, n) && (a.Ready? || a.Posting? || a.Adding? || a.Pushing?)
    ensures Alone(c, s', After(a), n)
  {
    hide Reachable, Load, Deque, Dev;
    s' := Advance(c, s, 0, Go(false));
  }

  lemma LastStep(c: Config, s: State, n: int) returns (s': State)
    requires Alone(c, s, Started, n)
    ensures Calm(c, s', n)
  {
    hide Reachable, Ctr, StartOf;
    s' := Advance(c, s, 0, Go(false));
  }

  lemma SendOne(n: nat, max: nat, s: State, k: nat) returns (s': State)
    requires n > 0 && max > 0 && k <= max && Calm(Racers(n, max), s, k)
    ensures Calm(Racers(n, max), s', k + 1)
  {
    var c := Racers(n, max);
    hide Calm, Alone, Racers;
    s' := Admitted(n, max, s, k);
    s' := PostStep(c, s', Ready, k + 1);
    s' := PostStep(c, s', Posting, k + 1);
    s' := PostStep(c, s', Adding, k + 1);
    s' := PostStep(c, s', Pushing, k + 1);
    s' := LastStep(c, s', k + 1);
  }

  lemma {:induction false} SendUpTo(n: nat, max: nat, k: nat) returns (s: State)
    requires n > 0 && max > 0 && k <= max
    ensures Calm(Racers(n, max), s, k)
  {
    hide Calm;
    if k == 0 {
      s := Init(Racers(n, max));
      InitCalm(n, max);
    } else {
      s := SendUpTo(n, max, k - 1);
      s := SendOne(n, max, s, k - 1);
    }
  }

  lemma InitCalm(n: nat, max: nat)
    ensures Calm(Racers(n, max), Init(Racers(n, max)), 0)
  {
    ReachInit(Racers(n, max));
  }

  // ---------------------------------------------------------------- then all of them race

  /** The first i threads have incremented, the next ones up to j have only passed the check. */
  ghost predicate Raced(n: nat, max: nat, s: State, i: nat, j: nat) {
    && Reachable(Racers(n, max), s) && i <= j <= n && Pending(s.g, 0) == max + i
    && (forall t: nat :: i <= t < j ==> Fr(s, t).at == Loaded && Fr(s, t).o == SEND_OP)
    && (forall t: nat :: t >= j ==> Fr(s, t).at == Idle)
  }

  lemma LoadOne(n: nat, max: nat, s: State, j: nat) returns (s': State)
    requires n > 0 && max > 0 && j < n && Raced(n, max, s, 0, j)
    ensures Raced(n, max, s', 0, j + 1)
  {
    var c := Racers(n, max);
    hide Reachable;
    assert MoveOf(c, s.g, RankOf(c, j), Fr(s, j), DoPost(SEND_OP)) == Move(NoLock, s.g, IDLE.(at := Loaded, o := SEND_OP));
    hide MoveOf, Racers;
    s' := Advance(c, s, j, DoPost(SEND_OP));
  }

  lemma {:induction false} LoadAll(n: nat, max: nat, j: nat) returns (s: State)
    requires n > 0 && max > 0 && j <= n
    ensures Raced(n, max, s, 0, j)
  {
    hide Reachable;
    if j == 0 {
      s := SendUpTo(n, max, max);
    } else {
      hide Raced;
      s := LoadAll(n, max, j - 1);
      s := LoadOne(n, max, s, j - 1);
    }
  }

  lemma {:induction false} AddAll(n: nat, max: nat, i: nat) returns (s: State)
    requires n > 0 && max > 0 && i <= n
    ensures Raced(n, max, s, i, n)
  {
    hide Reachable;
    if i == 0 {
      s := LoadAll(n, max, n);
    } else {
      s := AddAll(n, max, i - 1);
      s := Advance(Racers(n, max), s, i - 1, Go(false));
    }
  }

  lemma {:induction false} AllRacers(n: nat, max: nat, k: nat)
    requires k <= n
    ensures ThreadsOf(Racers(n, max), 0, k) == k
  {
    if k > 0 {
      AllRacers(n, max, k - 1);
    }
  }

  /** The bound of the pending counter is reached, for every limit and number of threads. */
  lemma BoundReached(n: nat, max: nat) returns (s: State)
    requires n > 0 && max > 0
    ensures Reachable(Racers(n, max), s)
    ensures Pending(s.g, 0) == max + ThreadsOf(Racers(n, max), 0, n) == max + n
  {
    s := AddAll(n, max, n);
    AllRacers(n, max, n);
  }
}
