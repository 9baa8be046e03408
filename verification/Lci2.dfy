/**
 The LCI2 backend's ownership of request contexts.  Every post allocates a context
 on the heap and gives it to the library; it comes back with the completion, or is
 freed at once if the library asks for a retry.  A completion without a context is a
 put from a remote process.
 */
module Lci2 {
  import opened Basics
  import opened Wrappers

  /** `device` is missing in put signals. */
  datatype Request = Request(op: Op, device: Option<nat>, rank: int, tag: int, buffer: nat, length: int, ctx: int)

  /** What LCI hands over with a completion. */
  datatype Status = Status(context: Option<nat>, rank: int, tag: int, buffer: nat, size: int)

  // ---------------------------------------------------------------- where a context is

  datatype Place = Held | Queued(i: nat) | Freed(i: nat)

  /** The contexts that the library holds, the completion queue, and the contexts deleted so far. */
  datatype Books = Books(held: set<nat>, queue: seq<Status>, freed: seq<nat>)

  predicate In(b: Books, x: Place, p: nat) {
    match x
    case Held => p in b.held
    case Queued(i) => i < |b.queue| && b.queue[i].context == Some(p)
    case Freed(i) => i < |b.freed| && b.freed[i] == p
  }

  ghost predicate Somewhere(b: Books, p: nat) { exists x :: In(b, x, p) }

  /** Exactly the first n contexts were allocated, and each is in exactly one place. */
  ghost predicate Once(b: Books, n: nat) {
    && (forall p: nat :: Somewhere(b, p) <==> p < n)
    && (forall p: nat, x, y :: In(b, x, p) && In(b, y, p) ==> x == y)
  }

  /** Moving the places of all contexts but p, and putting p in place z alone. */
  lemma OnceMoved(b: Books, b': Books, n: nat, n': nat, p: nat, z: Place, before: Place -> Place)
    requires Once(b, n) && n' == (if p < n then n else n + 1) && p <= n
    requires forall q: nat, x :: q != p ==> (In(b', x, q) ==> In(b, before(x), q))
    requires forall q: nat :: q != p && Somewhere(b, q) ==> Somewhere(b', q)
    requires forall x, y :: before(x) == before(y) ==> x == y
    requires forall x :: In(b', x, p) <==> x == z
    ensures Once(b', n')
  {
    assert In(b', z, p);
    forall q: nat ensures Somewhere(b', q) <==> q < n' {
      assert Somewhere(b, q) <==> q < n;
      if q != p && Somewhere(b', q) {
        var x :| In(b', x, q);
        assert In(b, before(x), q) && Somewhere(b, q);
      }
    }
    forall q: nat, x, y | In(b', x, q) && In(b', y, q) ensures x == y {
      if q != p {
        assert In(b, before(x), q) && In(b, before(y), q);
      }
    }
  }

  lemma Kept(b: Books, b': Books, q: nat, after: Place -> Place)
    requires Somewhere(b, q) && forall x :: In(b, x, q) ==> In(b', after(x), q)
    ensures Somewhere(b', q)
  {
    var x :| In(b, x, q);
    assert In(b', after(x), q);
  }

  lemma PostOnce(b: Books, n: nat)
    requires Once(b, n)
    ensures Once(b.(held := b.held + {n}), n + 1) && Once(b.(freed := b.freed + [n]), n + 1)
  {
    var b1, b2 := b.(held := b.held + {n}), b.(freed := b.freed + [n]);
    assert forall x :: !In(b, x, n) by {
      assert !Somewhere(b, n);
    }
    forall q: nat | q != n && Somewhere(b, q) ensures Somewhere(b1, q) && Somewhere(b2, q) {
      Kept(b, b1, q, x => x);
      Kept(b, b2, q, x => x);
    }
    forall x ensures (In(b1, x, n) <==> x == Held) && (In(b2, x, n) <==> x == Freed(|b.freed|)) {
      assert !In(b, x, n);
    }
    OnceMoved(b, b1, n, n + 1, n, Held, x => x);
    OnceMoved(b, b2, n, n + 1, n, Freed(|b.freed|), x => x);
  }

  lemma NotFreedYet(b: Books, n: nat)
    requires Once(b, n)
    ensures n !in b.freed
  {
    forall i: nat | i < |b.freed| ensures b.freed[i] != n {
      assert In(b, Freed(i), b.freed[i]) && Somewhere(b, b.freed[i]);
    }
  }

  lemma CompleteOnce(b: Books, n: nat, s: Status, p: nat)
    requires Once(b, n) && p in b.held && s.context == Some(p)
    ensures Once(b.(held := b.held - {p}, queue := b.queue + [s]), n)
  {
    var b', z := b.(held := b.held - {p}, queue := b.queue + [s]), Queued(|b.queue|);
    assert In(b, Held, p) && Somewhere(b, p);
    forall x ensures In(b', x, p) <==> x == z {
      if x != Held && x != z && In(b', x, p) {
        assert In(b, x, p);
      }
    }
    forall q: nat | q != p && Somewhere(b, q) ensures Somewhere(b', q) {
      Kept(b, b', q, x => x);
    }
    OnceMoved(b, b', n, n, p, z, x => x);
  }

  /** A completion without a context changes nothing. */
  lemma SignalOnce(b: Books, n: nat, s: Status)
    requires Once(b, n) && s.context.None?
    ensures Once(b.(queue := b.queue + [s]), n)
  {
    var b' := b.(queue := b.queue + [s]);
    assert forall x, q: nat :: In(b', x, q) <==> In(b, x, q);
    forall q: nat ensures Somewhere(b', q) <==> Somewhere(b, q) {
      if Somewhere(b, q) {
        Kept(b, b', q, x => x);
      }
      if Somewhere(b', q) {
        Kept(b', b, q, x => x);
      }
    }
  }

  /** Where a context was before the queue's first completion was popped, and where it is after. */
  function Back(x: Place): Place { if x.Queued? then Queued(x.i + 1) else x }

  function Front(x: Place): Place { if x.Queued? && x.i > 0 then Queued(x.i - 1) else x }

  lemma PollOnce(b: Books, n: nat, p: nat)
    requires Once(b, n) && b.queue != [] && b.queue[0].context == Some(p)
    ensures p < n && p !in b.freed && Once(b.(queue := b.queue[1..], freed := b.freed + [p]), n)
  {
    var b', z := b.(queue := b.queue[1..], freed := b.freed + [p]), Freed(|b.freed|);
    assert In(b, Queued(0), p) && Somewhere(b, p);
    assert forall y :: In(b, y, p) ==> y == Queued(0);
    forall i: nat | i < |b.freed| ensures b.freed[i] != p {
      assert !In(b, Freed(i), p);
    }
    forall x ensures In(b', x, p) <==> x == z {
      assert !In(b, Back(x), p);
    }
    forall q: nat | q != p && Somewhere(b, q) ensures Somewhere(b', q) {
      Kept(b, b', q, Front);
    }
    OnceMoved(b, b', n, n, p, z, Back);
  }

  lemma PopSignalOnce(b: Books, n: nat)
    requires Once(b, n) && b.queue != [] && b.queue[0].context.None?
    ensures Once(b.(queue := b.queue[1..]), n)
  {
    var b' := b.(queue := b.queue[1..]);
    assert forall x, q: nat :: In(b', x, q) ==> In(b, Back(x), q);
    forall q: nat ensures Somewhere(b', q) <==> Somewhere(b, q) {
      if Somewhere(b, q) {
        Kept(b, b', q, Front);
      }
      if Somewhere(b', q) {
        Kept(b', b, q, Back);
      }
    }
    forall q: nat, x, y | In(b', x, q) && In(b', y, q) ensures x == y {
      assert In(b, Back(x), q) && In(b, Back(y), q);
    }
  }

  // ---------------------------------------------------------------- the backend

  /** `posted` and `freed` are histories: the request of every context ever allocated, and the
      contexts deleted so far. */
  class Backend {
    var heap: map<nat, Request>
    var next: nat
    var held: set<nat>
    var queue: seq<Status>
    ghost var posted: map<nat, Request>
    ghost var freed: seq<nat>

    ghost function Contexts(): Books reads this { Books(held, queue, freed) }

    /** Every context is with the library, in the queue or freed, once; and the live records are those
        not freed, as they were posted. */
    ghost predicate Valid() reads this {
      && Once(Contexts(), next)
      && (forall p: nat :: p in heap <==> p < next && p !in freed)
      && (forall p: nat :: p in posted <==> p < next)
      && (forall p :: p in heap ==> p in posted && heap[p] == posted[p])
      && (forall p :: p in posted ==> posted[p].op != PUT_SIGNAL)
    }

    constructor ()
      ensures Valid() && next == 0 && queue == []
    {
      heap, next, held, queue, posted, freed := map[], 0, {}, [], map[], [];
    }

    /** send, recv and put: `retry` is the library's answer.  The new context is held by the library
        or already freed, and nothing else changes. */
    method Post(r: Request, retry: bool) returns (ok: bool)
      requires Valid() && r.op != PUT_SIGNAL
      modifies this
      ensures Valid() && ok == !retry && next == old(next) + 1 && queue == old(queue)
      ensures posted == old(posted)[old(next) := r]
      ensures ok ==> held == old(held) + {old(next)} && freed == old(freed)
      ensures !ok ==> held == old(held) && freed == old(freed) + [old(next)]
    {
      hide Once;
      var p := next;
      PostOnce(Contexts(), next);
      NotFreedYet(Contexts(), next);
      heap, next, posted := heap[p := r], next + 1, posted[p := r];
      if retry {
        heap, freed := heap - {p}, freed + [p];
      } else {
        held := held + {p};
      }
      return !retry;
    }

    /** The library completes an operation, or delivers a remote put. */
    method Complete(s: Status)
      requires Valid() && (s.context.Some? ==> s.context.value in held)
      modifies this`held, this`queue
      ensures Valid() && queue == old(queue) + [s]
      ensures held == if s.context.Some? then old(held) - {s.context.value} else old(held)
    {
      hide Once;
      if s.context.Some? {
        CompleteOnce(Contexts(), next, s, s.context.value);
        held := held - {s.context.value};
      } else {
        SignalOnce(Contexts(), next, s);
      }
      queue := queue + [s];
    }

    /** poll_cq with get_request_from_status: the first completion's context is freed, once, and its
        record is the posted one, except for the length of a receive.  Put signals are exactly the
        completions without a context. */
    method Poll() returns (r: Option<Request>)
      requires Valid()
      modifies this
      ensures Valid() && posted == old(posted) && next == old(next) && held == old(held)
      ensures old(queue) == [] ==> r == None && queue == [] && freed == old(freed)
      ensures old(queue) != [] ==>
                var s := old(queue)[0];
                && queue == old(queue)[1..] && r.Some?
                && (r.value.op == PUT_SIGNAL <==> s.context.None?)
                && (s.context.None? ==>
                      freed == old(freed) && r.value == Request(PUT_SIGNAL, None, s.rank, s.tag, s.buffer, s.size, 0))
                && (s.context.Some? ==>
                      && s.context.value !in old(freed) && freed == old(freed) + [s.context.value]
                      && s.context.value in posted
                      && var p, x := posted[s.context.value], r.value;
                         && x.op == p.op && x.device == p.device && x.rank == p.rank && x.tag == p.tag
                         && x.buffer == p.buffer && x.ctx == p.ctx && x.length == if p.op == RECV then s.size else p.length)
    {
      hide Once;
      if queue == [] {
        return None;
      }
      var s := queue[0];
      if s.context.None? {
        PopSignalOnce(Contexts(), next);
        queue := queue[1..];
        return Some(Request(PUT_SIGNAL, None, s.rank, s.tag, s.buffer, s.size, 0));
      }
      var p := s.context.value;
      PollOnce(Contexts(), next, p);
      var q := heap[p];
      queue := queue[1..];
      heap, freed := heap - {p}, freed + [p];
      if q.op == RECV || q.op == PUT_SIGNAL {
        q := q.(length := s.size);
      }
      return Some(q);
    }
  }
}
