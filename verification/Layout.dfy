/**
 How the ping-pong lays out devices over workers, spawns its threads, and divides the
 devices among the progress threads.
 */
module Layout {

  // ---------------------------------------------------------------- division facts

  /** The rounded-up quotient, as the program computes it. */
  function Ceil(a: nat, b: nat): nat
    requires b > 0
  {
    (a + b - 1) / b
  }

  lemma MulMonotone(a: int, b: int, n: int)
    requires n >= 0 && a <= b
    ensures a * n <= b * n
  {
    assert (b - a) * n >= 0;
    assert b * n == (b - a) * n + a * n;
  }

  lemma MulLess(a: int, b: int, n: int)
    requires n > 0 && a * n < b * n
    ensures a < b
  {
    if a >= b {
      MulMonotone(b, a, n);
    }
  }

  /** Quotients are characterized by the multiples around them. */
  lemma QuotientIs(a: nat, b: nat, q: int)
    requires b > 0
    ensures a / b == q <==> q * b <= a < (q + 1) * b
  {
    var p := a / b;
    assert a == p * b + a % b;
    assert (p + 1) * b == p * b + b && (q + 1) * b == q * b + b;
    if q * b <= a < (q + 1) * b {
      MulLess(q, p + 1, b);
      MulLess(p, q + 1, b);
    }
  }

  lemma CeilIs(a: nat, b: nat, q: int)
    requires b > 0
    ensures Ceil(a, b) == q <==> (q - 1) * b < a <= q * b
  {
    QuotientIs(a + b - 1, b, q);
    assert (q + 1) * b == q * b + b && (q - 1) * b == q * b - b;
  }

  lemma CeilCovers(a: nat, b: nat)
    requires b > 0
    ensures (Ceil(a, b) - 1) * b < a <= Ceil(a, b) * b && (a > 0 ==> Ceil(a, b) > 0)
  {
    CeilIs(a, b, Ceil(a, b));
  }

  // ---------------------------------------------------------------- devices and workers

  function WorkersPerDevice(nworkers: nat, ndevices: nat): (n: nat)
    requires nworkers > 0 && ndevices > 0
    ensures n > 0
  {
    CeilCovers(nworkers, ndevices);
    Ceil(nworkers, ndevices)
  }

  function DeviceIndex(nworkers: nat, ndevices: nat, w: nat): nat
    requires nworkers > 0 && ndevices > 0
  {
    w / WorkersPerDevice(nworkers, ndevices)
  }

  /** Workers share devices in consecutive groups. */
  lemma DeviceIndexIs(nworkers: nat, ndevices: nat, w: nat, d: nat)
    requires nworkers > 0 && ndevices > 0
    ensures var n := WorkersPerDevice(nworkers, ndevices); DeviceIndex(nworkers, ndevices, w) == d <==> d * n <= w < (d + 1) * n
    ensures var n := WorkersPerDevice(nworkers, ndevices); (n - 1) * ndevices < nworkers <= n * ndevices
  {
    QuotientIs(w, WorkersPerDevice(nworkers, ndevices), d);
    CeilCovers(nworkers, ndevices);
  }

  /** The worker that allocates and frees the device of its group. */
  predicate Responsible(nworkers: nat, ndevices: nat, w: nat, d: nat)
    requires nworkers > 0 && ndevices > 0
  {
    w < nworkers && w % WorkersPerDevice(nworkers, ndevices) == 0 && DeviceIndex(nworkers, ndevices, w) == d
  }

  /** The source's assertion: every worker's device exists. */
  lemma DeviceInRange(nworkers: nat, ndevices: nat, w: nat)
    requires nworkers > 0 && ndevices > 0 && w < nworkers
    ensures DeviceIndex(nworkers, ndevices, w) < ndevices
  {
    var n := WorkersPerDevice(nworkers, ndevices);
    CeilCovers(nworkers, ndevices);
    QuotientIs(w, n, w / n);
    assert n * ndevices == ndevices * n;
    MulLess(w / n, ndevices, n);
  }

  /** A device has exactly one responsible worker if its group is not empty, and else none. */
  lemma ResponsibleIff(nworkers: nat, ndevices: nat, d: nat)
    requires nworkers > 0 && ndevices > 0
    ensures var n := WorkersPerDevice(nworkers, ndevices);
            && ((exists w: nat :: Responsible(nworkers, ndevices, w, d)) <==> d * n < nworkers)
            && (forall w: nat :: Responsible(nworkers, ndevices, w, d) ==> w == d * n)
  {
    var n := WorkersPerDevice(nworkers, ndevices);
    assert d * n >= 0 by {
      MulMonotone(0, d, n);
    }
    forall w: nat | Responsible(nworkers, ndevices, w, d) ensures w == d * n {
      assert w == w / n * n + w % n;
    }
    if d * n < nworkers {
      QuotientIs(d * n, n, d);
      assert (d + 1) * n == d * n + n;
      assert d * n == d * n / n * n + d * n % n;
      assert Responsible(nworkers, ndevices, d * n, d);
    }
  }

  /** How many devices have a responsible worker; they are the first ones. */
  function Served(nworkers: nat, ndevices: nat): nat
    requires nworkers > 0 && ndevices > 0
  {
    Ceil(nworkers, WorkersPerDevice(nworkers, ndevices))
  }

  lemma ServedDevices(nworkers: nat, ndevices: nat, d: nat)
    requires nworkers > 0 && ndevices > 0
    ensures 0 < Served(nworkers, ndevices) <= ndevices
    ensures d < Served(nworkers, ndevices) <==> exists w: nat :: Responsible(nworkers, ndevices, w, d)
  {
    var n, k := WorkersPerDevice(nworkers, ndevices), Served(nworkers, ndevices);
    CeilCovers(nworkers, n);
    CeilCovers(nworkers, ndevices);
    assert n * ndevices == ndevices * n;
    MulLess(k - 1, ndevices, n);
    ResponsibleIff(nworkers, ndevices, d);
    if d < k {
      MulMonotone(d, k - 1, n);
    } else {
      MulMonotone(k, d, n);
    }
  }

  // ---------------------------------------------------------------- spawning

  /** The threads that the loop in main starts, in order: true for a progress thread. */
  method Spawn(nthreads: nat, nprgthreads: nat) returns (kinds: seq<bool>, progress: nat, workers: nat)
    requires 0 < nthreads && nprgthreads < nthreads
    ensures |kinds| == nthreads == progress + workers
    ensures nprgthreads == 0 ==> progress == 0
    ensures nprgthreads > 0 ==> nthreads / nprgthreads > 0 && progress == Ceil(nthreads, nthreads / nprgthreads)
    ensures workers == nthreads - nprgthreads <==> nprgthreads == 0 || nthreads % nprgthreads == 0
    ensures forall i :: 0 <= i < nthreads ==>
              (kinds[i] <==> nprgthreads > 0 && nthreads / nprgthreads > 0 && i % (nthreads / nprgthreads) == 0)
  {
    var per := 0;
    if nprgthreads != 0 {
      per := nthreads / nprgthreads;
      GroupNotEmpty(nthreads, nprgthreads);
    }
    kinds, progress, workers := [], 0, 0;
    for i := 0 to nthreads
      invariant |kinds| == i == progress + workers
      invariant nprgthreads == 0 ==> progress == 0
      invariant nprgthreads > 0 ==> per > 0 && progress == Ceil(i, per)
      invariant forall j :: 0 <= j < i ==> (kinds[j] <==> nprgthreads > 0 && per > 0 && j % per == 0)
    {
      if nprgthreads > 0 {
        NextCeil(i, per);
      }
      if nprgthreads > 0 && i % per == 0 {
        kinds, progress := kinds + [true], progress + 1;
      } else {
        kinds, workers := kinds + [false], workers + 1;
      }
    }
    if nprgthreads > 0 {
      SpawnCount(nthreads, nprgthreads);
    }
  }

  /** For instance, five threads of which two should be progress threads: three are, and the two workers are
      fewer than the three that the worker barrier waits for. */
  method SpawnFive() returns (progress: nat, workers: nat)
    ensures progress == 3 && workers == 2 && workers != 5 - 2
  {
    var kinds;
    kinds, progress, workers := Spawn(5, 2);
    assert Ceil(5, 5 / 2) == 3;
  }

  lemma NextCeil(i: nat, n: nat)
    requires n > 0
    ensures Ceil(i + 1, n) == Ceil(i, n) + if i % n == 0 then 1 else 0
  {
    var q := i / n;
    assert i == q * n + i % n;
    assert (q + 1) * n == q * n + n && (q - 1) * n == q * n - n;
    CeilIs(i + 1, n, q + 1);
    if i % n == 0 {
      CeilIs(i, n, q);
    } else {
      CeilIs(i, n, q + 1);
    }
  }

  lemma GroupNotEmpty(nthreads: nat, nprgthreads: nat)
    requires 0 < nprgthreads < nthreads
    ensures nthreads / nprgthreads > 0
    ensures nthreads == nprgthreads * (nthreads / nprgthreads) + nthreads % nprgthreads
  {
    var per := nthreads / nprgthreads;
    assert 1 * nprgthreads == nprgthreads;
    QuotientIs(nthreads, nprgthreads, per);
    if per <= 0 {
      MulMonotone(per + 1, 1, nprgthreads);
    }
  }

  /** At least as many progress threads as asked for, and exactly as many iff that number divides the
      number of threads; so only then is the worker barrier's count the number of workers. */
  lemma SpawnCount(nthreads: nat, nprgthreads: nat)
    requires 0 < nprgthreads < nthreads
    ensures nthreads / nprgthreads > 0
    ensures Ceil(nthreads, nthreads / nprgthreads) >= nprgthreads
    ensures Ceil(nthreads, nthreads / nprgthreads) == nprgthreads <==> nthreads % nprgthreads == 0
  {
    GroupNotEmpty(nthreads, nprgthreads);
    GroupsCover(nthreads, nprgthreads, nthreads / nprgthreads, nthreads % nprgthreads);
  }

  /** n full groups and a rest take n groups, or more if the rest is not empty. */
  lemma GroupsCover(total: nat, n: nat, per: nat, rest: nat)
    requires n > 0 && per > 0 && total == n * per + rest
    ensures Ceil(total, per) >= n && (Ceil(total, per) == n <==> rest == 0)
  {
    var k := Ceil(total, per);
    CeilCovers(total, per);
    CeilIs(total, per, n);
    assert (n - 1) * per == n * per - per;
    if k < n {
      MulMonotone(k, n - 1, per);
    }
  }

  // ---------------------------------------------------------------- progress threads

  /** One round of the loop in progress_thread_fn. */
  method Round(ndevices: nat, nprgthreads: nat, id: nat) returns (visited: seq<nat>)
    requires nprgthreads > 0
    ensures forall d :: d in visited <==> d < ndevices && id * Ceil(ndevices, nprgthreads) <= d < (id + 1) * Ceil(ndevices, nprgthreads)
    ensures forall i, j :: 0 <= i < j < |visited| ==> visited[i] < visited[j]
  {
    var per := Ceil(ndevices, nprgthreads);
    assert id * per >= 0 by {
      MulMonotone(0, id, per);
    }
    assert (id + 1) * per == id * per + per;
    visited := [];
    var i := 0;
    while i < per
      invariant 0 <= i <= per && |visited| == i
      invariant forall j :: 0 <= j < i ==> visited[j] == id * per + j < ndevices
    {
      var d := id * per + i;
      if d >= ndevices {
        break;
      }
      visited, i := visited + [d], i + 1;
    }
    forall d: nat | d < ndevices && id * per <= d < (id + 1) * per ensures d in visited {
      assert visited[d - id * per] == d;
    }
  }

  predicate InRound(ndevices: nat, nprgthreads: nat, id: nat, d: nat)
    requires nprgthreads > 0
  {
    d < ndevices && id * Ceil(ndevices, nprgthreads) <= d < (id + 1) * Ceil(ndevices, nprgthreads)
  }

  /** The rounds of the progress threads visit every device, each in exactly one thread, and threads
      beyond the number asked for visit none. */
  lemma EveryDeviceOnce(ndevices: nat, nprgthreads: nat, d: nat)
    requires nprgthreads > 0 && d < ndevices
    ensures exists id: nat :: id < nprgthreads && InRound(ndevices, nprgthreads, id, d)
    ensures forall a: nat, b: nat :: InRound(ndevices, nprgthreads, a, d) && InRound(ndevices, nprgthreads, b, d) ==> a == b
    ensures forall id: nat :: InRound(ndevices, nprgthreads, id, d) ==> id < nprgthreads
  {
    var per := Ceil(ndevices, nprgthreads);
    CeilCovers(ndevices, nprgthreads);
    assert per * nprgthreads == nprgthreads * per;
    QuotientIs(d, per, d / per);
    MulLess(d / per, nprgthreads, per);
    assert InRound(ndevices, nprgthreads, d / per, d);
    forall id: nat | InRound(ndevices, nprgthreads, id, d) ensures id == d / per {
      QuotientIs(d, per, id);
    }
  }
}
