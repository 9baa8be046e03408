/**
 The copying completion queue: signal puts a heap copy of a record into a
 first-in first-out queue, poll takes the oldest copy out, hands its contents over and
 deletes it.
 */
module CompletionQueue {
  import opened Wrappers
  import opened Managers

  predicate Live(heap: map<nat, Request>, cells: seq<nat>) { forall i :: 0 <= i < |cells| ==> cells[i] in heap }

  function Records(heap: map<nat, Request>, cells: seq<nat>): (s: seq<Request>)
    requires Live(heap, cells)
    ensures |s| == |cells|
  {
    seq(|cells|, i requires 0 <= i < |cells| => heap[cells[i]])
  }

  predicate Distinct(cells: seq<nat>) { forall i, j :: 0 <= i < j < |cells| ==> cells[i] != cells[j] }

  lemma PopRecords(heap: map<nat, Request>, cells: seq<nat>)
    requires Live(heap, cells) && Distinct(cells) && cells != []
    ensures var h, rest := heap - {cells[0]}, cells[1..];
            && Live(h, rest) && Distinct(rest) && |h| == |heap| - 1
            && Records(heap, cells) == [heap[cells[0]]] + Records(h, rest)
  {
    var h := heap - {cells[0]};
    assert heap.Keys == h.Keys + {cells[0]};
  }

  class Queue {
    var cells: seq<nat>
    var heap: map<nat, Request>
    var next: nat
    ghost var signalled: seq<Request>
    ghost var polled: seq<Request>

    /** Exactly the queued copies are alive; and what was signalled is what was polled, in order, followed
        by what is queued. */
    ghost predicate Valid() reads this {
      && Live(heap, cells)
      && Distinct(cells)
      && (forall p :: p in heap ==> p in cells && p < next)
      && signalled == polled + Contents()
    }

    ghost function Contents(): (s: seq<Request>)
      reads this
      requires Live(heap, cells)
    {
      Records(heap, cells)
    }

    constructor ()
      ensures Valid() && signalled == [] && polled == [] && heap == map[]
    {
      cells, heap, next, signalled, polled := [], map[], 0, [], [];
    }

    method Signal(r: Request)
      requires Valid()
      modifies this
      ensures Valid() && signalled == old(signalled) + [r] && polled == old(polled) && |heap| == |old(heap)| + 1
      ensures Contents() == old(Contents()) + [r]
    {
      var p := next;
      heap, next, cells, signalled := heap[p := r], next + 1, cells + [p], signalled + [r];
      assert Contents() == old(Contents()) + [r];
    }

    method Poll() returns (r: Option<Request>)
      requires Valid()
      modifies this
      ensures Valid() && signalled == old(signalled)
      ensures r.None? <==> old(Contents()) == []
      ensures r.None? ==> Contents() == [] && polled == old(polled) && heap == old(heap)
      ensures r.Some? ==> old(Contents()) == [r.value] + Contents() && polled == old(polled) + [r.value]
      ensures r.Some? ==> |heap| == |old(heap)| - 1
    {
      if cells == [] {
        return None;
      }
      PopRecords(heap, cells);
      var p := cells[0];
      r := Some(heap[p]);
      assert polled + ([heap[p]] + Records(heap - {p}, cells[1..])) == (polled + [heap[p]]) + Records(heap - {p}, cells[1..]);
      hide Records, Live, Distinct;
      cells, heap, polled := cells[1..], heap - {p}, polled + [heap[p]];
      return r;
    }
  }
}
