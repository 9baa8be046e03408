/**
 The device sequence control of the ping-pong: a shared counter that makes the
 responsible workers allocate the devices one after the other, and later free them in
 the same order.  Incrementing the counter and resetting it are separate atomic
 operations.  Device d's responsible worker is thread d; there are `served` of
 them, which are the first devices' (see Layout).
 */
module DeviceSequence {
  import opened Wrappers
  import opened Layout

  datatype Round = Alloc | Release

  /** Spinning on the counter; allocating or freeing; about to reset the counter; done with the
      round. */
  datatype Stage = Wait(r: Round) | Work(r: Round) | Reset(r: Round) | Passed(r: Round)

  datatype Config = Config(devices: nat, served: nat)

  /** `acquired` and `released` are histories. */
  datatype State = State(control: nat, stages: map<nat, Stage>, acquired: seq<nat>, released: seq<nat>)

  predicate ValidConfig(c: Config) { 0 < c.served <= c.devices }

  function At(s: State, d: nat): Stage { if d in s.stages then s.stages[d] else Wait(Alloc) }

  datatype Action = Enter(d: nat) | Advance(d: nat) | Clear(d: nat) | Depart(d: nat)

  ghost predicate Enabled(c: Config, s: State, a: Action) {
    a.d < c.served
    && match a
       case Enter(d) => At(s, d).Wait? && s.control == d
       case Advance(d) => At(s, d).Work?
       case Clear(d) => At(s, d).Reset?
       case Depart(d) =>  // the barrier between the rounds
         At(s, d) == Passed(Alloc) && forall e: nat :: e < c.served ==> At(s, e) == Passed(Alloc) || At(s, e).r == Release
  }

  function Do(c: Config, s: State, a: Action): State {
    match a
    case Enter(d) => s.(stages := s.stages[d := Work(At(s, d).r)])
    case Advance(d) =>
      var r := At(s, d).r;
      var s1 := if r == Alloc then s.(acquired := s.acquired + [d]) else s.(released := s.released + [d]);
      s1.(control := s.control + 1,
          stages := s.stages[d := if s.control + 1 == c.devices then Reset(r) else Passed(r)])
    case Clear(d) => s.(control := 0, stages := s.stages[d := Passed(At(s, d).r)])
    case Depart(d) => s.(stages := s.stages[d := Wait(Release)])
  }

  function Init(): State { State(0, map[], [], []) }

  ghost function Run(c: Config, acts: seq<Action>): Option<State>
    decreases |acts|
  {
    if acts == [] then Some(Init())
    else
      var p, a := Run(c, acts[..|acts| - 1]), acts[|acts| - 1];
      if p.Some? && Enabled(c, p.value, a) then Some(Do(c, p.value, a)) else None
  }

  ghost predicate Reachable(c: Config, s: State) { ValidConfig(c) && exists acts :: Run(c, acts) == Some(s) }

  // ---------------------------------------------------------------- the invariant

  function UpTo(n: nat): seq<nat> { seq(n, i => i) }

  /** What a thread's stage says, when i devices are allocated and j released. */
  predicate StageOk(c: Config, control: nat, d: nat, x: Stage, i: nat, j: nat) {
    match x
    case Wait(r) => if r == Alloc then i <= d else i == c.served && j <= d
    case Work(r) => control == d && if r == Alloc then i == d else i == c.served && j == d
    case Reset(r) => d + 1 == c.devices == control && if r == Alloc then i == c.devices else i == c.served && j == c.devices
    case Passed(r) => if r == Alloc then d < i else i == c.served && d < j
  }

  ghost predicate SomeReset(c: Config, s: State) { exists d: nat :: d < c.served && At(s, d).Reset? }

  ghost predicate Inv(c: Config, s: State) {
    var i, j := |s.acquired|, |s.released|;
    && ValidConfig(c) && s.acquired == UpTo(i) && s.released == UpTo(j) && i <= c.served && j <= c.served
    && (forall d: nat :: d < c.served ==> StageOk(c, s.control, d, At(s, d), i, j))
    // no one frees while the counter is about to be reset after the allocations
    && (forall d: nat, e: nat :: d < c.served && e < c.served && At(s, d).r == Release ==> At(s, e) != Reset(Alloc))
    && (forall d: nat :: d < j ==> At(s, d).r == Release)
    && (i < c.served ==> s.control == i && j == 0)
    && (i == c.served < c.devices ==> s.control == i && j == 0)
    && (i == c.devices ==> s.control == if SomeReset(c, s) then c.devices else if j < c.devices then j else 0)
  }

  lemma InitInv(c: Config)
    requires ValidConfig(c)
    ensures Inv(c, Init())
  {
  }

  lemma AtAfter(s: State, s': State, d: nat, x: Stage, e: nat)
    requires s'.stages == s.stages[d := x]
    ensures At(s', e) == if e == d then x else At(s, e)
  {
  }

  lemma EnterInv(c: Config, s: State, d: nat)
    requires Inv(c, s) && Enabled(c, s, Enter(d))
    ensures Inv(c, Do(c, s, Enter(d)))
  {
    var s' := Do(c, s, Enter(d));
    forall e: nat ensures At(s', e) == if e == d then Work(At(s, d).r) else At(s, e) {
      AtAfter(s, s', d, Work(At(s, d).r), e);
    }
    assert SomeReset(c, s') <==> SomeReset(c, s) by {
      assert forall e: nat :: e < c.served ==> (At(s', e).Reset? <==> At(s, e).Reset?);
    }
  }

  lemma AdvanceInv(c: Config, s: State, d: nat)
    requires Inv(c, s) && Enabled(c, s, Advance(d))
    ensures Inv(c, Do(c, s, Advance(d)))
  {
    var s', r := Do(c, s, Advance(d)), At(s, d).r;
    var x := if s.control + 1 == c.devices then Reset(r) else Passed(r);
    forall e: nat ensures At(s', e) == if e == d then x else At(s, e) {
      AtAfter(s, s', d, x, e);
    }
    assert StageOk(c, s.control, d, At(s, d), |s.acquired|, |s.released|);
    assert s.control == d;
    forall e: nat | e < c.served ensures !At(s, e).Reset? {
      assert StageOk(c, s.control, e, At(s, e), |s.acquired|, |s.released|);
    }
    assert !SomeReset(c, s);
    assert SomeReset(c, s') <==> x.Reset? by {
      assert At(s', d) == x;
    }
    assert UpTo(d) + [d] == UpTo(d + 1);
  }

  lemma ClearInv(c: Config, s: State, d: nat)
    requires Inv(c, s) && Enabled(c, s, Clear(d))
    ensures Inv(c, Do(c, s, Clear(d)))
  {
    var s', x := Do(c, s, Clear(d)), Passed(At(s, d).r);
    forall e: nat ensures At(s', e) == if e == d then x else At(s, e) {
      AtAfter(s, s', d, x, e);
    }
    assert StageOk(c, s.control, d, At(s, d), |s.acquired|, |s.released|);
    forall e: nat | e < c.served && e != d ensures !At(s, e).Reset? && !At(s, e).Work? {
      assert StageOk(c, s.control, e, At(s, e), |s.acquired|, |s.released|);
    }
    assert !SomeReset(c, s');
    assert |s.released| > 0 ==> At(s, 0).r == Release;
  }

  lemma DepartInv(c: Config, s: State, d: nat)
    requires Inv(c, s) && Enabled(c, s, Depart(d))
    ensures Inv(c, Do(c, s, Depart(d)))
  {
    var s', x := Do(c, s, Depart(d)), Wait(Release);
    forall e: nat ensures At(s', e) == if e == d then x else At(s, e) {
      AtAfter(s, s', d, x, e);
    }
    assert StageOk(c, s.control, d, At(s, d), |s.acquired|, |s.released|);
    var last := c.served - 1;
    assert StageOk(c, s.control, last, At(s, last), |s.acquired|, |s.released|);
    assert SomeReset(c, s') <==> SomeReset(c, s) by {
      assert forall e: nat :: e < c.served ==> (At(s', e).Reset? <==> At(s, e).Reset?);
    }
  }

  lemma StepInv(c: Config, s: State, a: Action)
    requires Inv(c, s) && Enabled(c, s, a)
    ensures Inv(c, Do(c, s, a))
  {
    hide Inv, Enabled, Do;
    match a
    case Enter(d) => EnterInv(c, s, d);
    case Advance(d) => AdvanceInv(c, s, d);
    case Clear(d) => ClearInv(c, s, d);
    case Depart(d) => DepartInv(c, s, d);
  }

  lemma {:induction false} RunInv(c: Config, acts: seq<Action>)
    requires ValidConfig(c) && Run(c, acts).Some?
    ensures Inv(c, Run(c, acts).value)
    decreases |acts|
  {
    hide Inv, Enabled, Do;
    if acts == [] {
      InitInv(c);
    } else {
      RunInv(c, acts[..|acts| - 1]);
      StepInv(c, Run(c, acts[..|acts| - 1]).value, acts[|acts| - 1]);
    }
  }

  lemma ReachInv(c: Config, s: State)
    requires Reachable(c, s)
    ensures Inv(c, s)
  {
    var acts :| Run(c, acts) == Some(s);
    RunInv(c, acts);
  }

  // ---------------------------------------------------------------- what that means

  ghost predicate AllPassed(c: Config, s: State, r: Round) { forall d: nat :: d < c.served ==> At(s, d) == Passed(r) }

  /** In every interleaving the devices are allocated in order, one at a time, and freed in the same
      order, after all of them were allocated. */
  lemma InOrder(c: Config, s: State)
    requires Reachable(c, s)
    ensures s.acquired == UpTo(|s.acquired|) && s.released == UpTo(|s.released|)
    ensures (forall i :: 0 <= i < |s.acquired| ==> s.acquired[i] == i) && (forall i :: 0 <= i < |s.released| ==> s.released[i] == i)
    ensures |s.released| > 0 ==> |s.acquired| == c.served
    ensures forall d: nat, e: nat :: d < c.served && e < c.served && At(s, d).Work? && At(s, e).Work? ==> d == e
  {
    ReachInv(c, s);
    forall d: nat, e: nat | d < c.served && e < c.served && At(s, d).Work? && At(s, e).Work? ensures d == e {
      assert StageOk(c, s.control, d, At(s, d), |s.acquired|, |s.released|);
      assert StageOk(c, s.control, e, At(s, e), |s.acquired|, |s.released|);
    }
  }

  /** After each round the counter is back at zero exactly if every device has a responsible worker. */
  lemma BackAtZero(c: Config, s: State, r: Round)
    requires Reachable(c, s) && AllPassed(c, s, r)
    ensures |s.acquired| == c.served && (r == Release ==> |s.released| == c.served)
    ensures s.control == 0 <==> c.served == c.devices
  {
    ReachInv(c, s);
    assert At(s, c.served - 1) == Passed(r) && At(s, 0) == Passed(r);
    assert StageOk(c, s.control, c.served - 1, At(s, c.served - 1), |s.acquired|, |s.released|);
    assert !SomeReset(c, s);
  }

  /** Without a responsible worker for every device the second round never starts: no device is freed. */
  lemma NoneFreed(c: Config, s: State)
    requires Reachable(c, s) && c.served < c.devices
    ensures s.released == [] && forall d: nat :: d < c.served ==> At(s, d) != Work(Release) && At(s, d) != Passed(Release)
  {
    ReachInv(c, s);
    forall d: nat | d < c.served ensures At(s, d) != Work(Release) && At(s, d) != Passed(Release) {
      assert StageOk(c, s.control, d, At(s, d), |s.acquired|, |s.released|);
    }
  }

  /** The end of both rounds if every device has a responsible worker; else the end of the first, with
      everyone spinning in the second. */
  ghost predicate AtEnd(c: Config, s: State) {
    if c.served == c.devices then AllPassed(c, s, Release)
    else |s.acquired| == c.served && forall d: nat :: d < c.served ==> At(s, d) == Wait(Release)
  }

  /** The barrier opens once everyone is through the first round. */
  lemma BarrierOpens(c: Config, s: State, d: nat)
    requires Inv(c, s) && d < c.served && At(s, d) == Passed(Alloc) && |s.acquired| == c.served
    requires forall e: nat :: e < c.served ==> !At(s, e).Work? && !At(s, e).Reset?
    ensures Enabled(c, s, Depart(d))
  {
    forall e: nat | e < c.served ensures At(s, e) == Passed(Alloc) || At(s, e).r == Release {
      assert StageOk(c, s.control, e, At(s, e), |s.acquired|, |s.released|);
    }
  }

  /** Until then some thread can go on. */
  lemma SomeoneGoes(c: Config, s: State) returns (a: Action)
    requires Inv(c, s) && !AtEnd(c, s)
    ensures Enabled(c, s, a)
  {
    var i, j := |s.acquired|, |s.released|;
    assert forall d: nat :: d < c.served ==> StageOk(c, s.control, d, At(s, d), i, j);
    if d: nat :| d < c.served && At(s, d).Work? {
      a := Advance(d);
    } else if d: nat :| d < c.served && At(s, d).Reset? {
      a := Clear(d);
    } else if i < c.served {
      assert StageOk(c, s.control, i, At(s, i), i, j);
      a := Enter(i);
    } else if d: nat :| d < c.served && At(s, d) == Passed(Alloc) {
      BarrierOpens(c, s, d);
      a := Depart(d);
    } else {
      assert !SomeReset(c, s);
      assert j < c.served && StageOk(c, s.control, j, At(s, j), i, j);
      a := Enter(j);
    }
  }

  lemma StuckOnlyAtEnd(c: Config, s: State)
    requires Reachable(c, s) && forall a :: !Enabled(c, s, a)
    ensures AtEnd(c, s)
  {
    ReachInv(c, s);
    hide Inv, Enabled;
    if !AtEnd(c, s) {
      var a := SomeoneGoes(c, s);
    }
  }

  // ---------------------------------------------------------------- every run ends

  function Left(x: Stage): nat {
    match x
    case Wait(r) => if r == Alloc then 7 else 3
    case Work(r) => if r == Alloc then 6 else 2
    case Reset(r) => if r == Alloc then 5 else 1
    case Passed(r) => if r == Alloc then 4 else 0
  }

  function Remaining(s: State, n: nat): nat {
    if n == 0 then 0 else Remaining(s, n - 1) + Left(At(s, n - 1))
  }

  lemma {:induction false} Shrinks(s: State, s': State, d: nat, x: Stage, n: nat)
    requires s'.stages == s.stages[d := x] && Left(x) < Left(At(s, d))
    ensures Remaining(s', n) <= Remaining(s, n) && (d < n ==> Remaining(s', n) < Remaining(s, n))
  {
    if n > 0 {
      Shrinks(s, s', d, x, n - 1);
      AtAfter(s, s', d, x, n - 1);
    }
  }

  lemma {:induction false} RunsAreShort(c: Config, acts: seq<Action>)
    requires Run(c, acts).Some?
    ensures |acts| + Remaining(Run(c, acts).value, c.served) <= 7 * c.served
    decreases |acts|
  {
    var s := Run(c, acts).value;
    if acts == [] {
      StartRemaining(c.served);
    } else {
      var p, a := Run(c, acts[..|acts| - 1]).value, acts[|acts| - 1];
      RunsAreShort(c, acts[..|acts| - 1]);
      assert s == Do(c, p, a);
      Shrinks(p, s, a.d, At(s, a.d), c.served);
    }
  }

  lemma {:induction false} StartRemaining(n: nat)
    ensures Remaining(Init(), n) == 7 * n
  {
    if n > 0 {
      StartRemaining(n - 1);
    }
  }

  /** With the ping-pong's own layout: a run that cannot go on has allocated and freed all devices in order and
      left the counter at zero, if and only if the last device has a worker. */
  lemma LayoutDecides(nworkers: nat, ndevices: nat, acts: seq<Action>)
    requires nworkers > 0 && ndevices > 0
    requires var c := Config(ndevices, Served(nworkers, ndevices));
             Run(c, acts).Some? && forall a :: !Enabled(c, Run(c, acts).value, a)
    ensures var s := Run(Config(ndevices, Served(nworkers, ndevices)), acts).value;
            (s.acquired == UpTo(ndevices) == s.released && s.control == 0)
            <==> (ndevices - 1) * WorkersPerDevice(nworkers, ndevices) < nworkers
  {
    var c := Config(ndevices, Served(nworkers, ndevices));
    var s := Run(c, acts).value;
    ServedDevices(nworkers, ndevices, ndevices - 1);
    ResponsibleIff(nworkers, ndevices, ndevices - 1);
    assert Reachable(c, s);
    StuckOnlyAtEnd(c, s);
    InOrder(c, s);
    if c.served == c.devices {
      BackAtZero(c, s, Release);
    } else {
      NoneFreed(c, s);
    }
  }

  // ---------------------------------------------------------------- an input at which devices are not freed

  lemma RunExtends(c: Config, acts: seq<Action>, a: Action)
    requires Run(c, acts).Some? && Enabled(c, Run(c, acts).value, a)
    ensures Run(c, acts + [a]) == Some(Do(c, Run(c, acts).value, a))
  {
    hide Enabled, Do;
    assert (acts + [a])[..|acts + [a]| - 1] == acts;
  }

  /** Every run goes on until it is stuck. */
  lemma {:induction false} GoesOn(c: Config, acts: seq<Action>) returns (more: seq<Action>)
    requires Run(c, acts).Some?
    ensures Run(c, more).Some? && forall a :: !Enabled(c, Run(c, more).value, a)
    decreases 7 * c.served - |acts|
  {
    hide Enabled, Do;
    if a :| Enabled(c, Run(c, acts).value, a) {
      RunExtends(c, acts, a);
      RunsAreShort(c, acts + [a]);
      more := GoesOn(c, acts + [a]);
    } else {
      more := acts;
    }
  }

  /** Five workers on four devices: groups of two, so the last device has no worker.  Some run gets stuck with
      the other three allocated and none freed. */
  lemma StuckAtFiveOnFour() returns (acts: seq<Action>)
    ensures WorkersPerDevice(5, 4) == 2 && Served(5, 4) == 3
    ensures var c := Config(4, 3);
            && Run(c, acts).Some? && (forall a :: !Enabled(c, Run(c, acts).value, a))
            && Run(c, acts).value.acquired == UpTo(3) && Run(c, acts).value.released == []
  {
    var c := Config(4, Served(5, 4));
    acts := GoesOn(c, []);
    var s := Run(c, acts).value;
    assert Reachable(c, s);
    StuckOnlyAtEnd(c, s);
    NoneFreed(c, s);
    InOrder(c, s);
  }
}
