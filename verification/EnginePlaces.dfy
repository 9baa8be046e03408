/**
 How moves rearrange operations and records between places, and why every
 rearrangement keeps each of them in exactly one place.
 */
module EnginePlaces {
  import opened Wrappers
  import opened EngineModel
  import opened EngineInvariant
  import opened EngineRows

  /** The state after thread `t` made move `m`. */
  ghost predicate Moved(s: State, t: nat, m: Move, s': State) {
    && m.Move? && s'.g == m.g
    && (forall u: nat :: Fr(s', u) == if u == t then m.f else Fr(s, u))
    && match m.lock
       case NoLock => s'.locks == s.locks
       case Take(l) => l !in s.locks && s'.locks == s.locks[l := t]
       case Drop(l) => s'.locks == s.locks - {l}
  }

  // ---------------------------------------------------------------- shifts

  /** How tokens are rearranged: not at all, one appears, one is carried from one place to
      another, one disappears.  Taking the front of a deque or a queue shifts the rest. */
  datatype Shift = Stay | Grow(p: Place, n: nat) | Carry(a: Place, b: Place) | Loss(a: Place)

  predicate Front(p: Place) { p.Deq? || p.Cel? }

  /** Where the content of place `p` was before the front of `a` was taken. */
  function Before(a: Place, p: Place): Place {
    if a.Deq? && p.Deq? && p.m == a.m then Deq(p.m, p.i + 1)
    else if a.Cel? && p.Cel? && p.q == a.q then Cel(p.q, p.i + 1)
    else p
  }

  function Shifted(s: State, v: View, x: Shift, p: Place): Option<nat> {
    match x
    case Stay => Look(s, v, p)
    case Grow(q, n) => if p == q then Some(n) else Look(s, v, p)
    case Carry(a, b) =>
      if p == b then Look(s, v, a) else if p == a && !Front(a) then None else Look(s, v, Before(a, p))
    case Loss(a) => if p == a && !Front(a) then None else Look(s, v, Before(a, p))
  }

  predicate ShiftOk(s: State, v: View, x: Shift) {
    match x
    case Stay => true
    case Grow(q, n) => Look(s, v, q).None? && !Exists(s.g, v, n)
    case Carry(a, b) =>
      && Look(s, v, a).Some? && Look(s, v, Before(a, b)).None? && (Front(a) ==> a.i == 0 && !Front(b))
    case Loss(a) => Look(s, v, a).Some? && (Front(a) ==> a.i == 0)
  }

  ghost predicate ExistsOk(s: State, v: View, x: Shift, g': Data) {
    match x
    case Grow(_, k) => forall n: nat :: Exists(g', v, n) <==> Exists(s.g, v, n) || n == k
    case Loss(a) => forall n: nat :: Exists(g', v, n) <==> Exists(s.g, v, n) && Look(s, v, a) != Some(n)
    case _ => forall n: nat :: Exists(g', v, n) <==> Exists(s.g, v, n)
  }

  ghost predicate ShiftBy(s: State, v: View, x: Shift, s': State) {
    && ShiftOk(s, v, x) && ExistsOk(s, v, x, s'.g) && forall p :: Look(s', v, p) == Shifted(s, v, x, p)
  }

  /** Where the token of place `p` came from. */
  function Origin(x: Shift, p: Place): Place {
    match x
    case Carry(a, b) => if p == b then a else Before(a, p)
    case Loss(a) => Before(a, p)
    case _ => p
  }

  /** Where the token of place `p` goes. */
  function Goal(x: Shift, p: Place): Place {
    match x
    case Carry(a, b) => if p == a then b else After(a, p)
    case Loss(a) => After(a, p)
    case _ => p
  }

  function After(a: Place, p: Place): Place {
    if a.Deq? && p.Deq? && p.m == a.m && p.i > 0 then Deq(p.m, p.i - 1)
    else if a.Cel? && p.Cel? && p.q == a.q && p.i > 0 then Cel(p.q, p.i - 1)
    else p
  }

  lemma OriginOf(s: State, v: View, x: Shift, s': State, p: Place)
    requires ShiftBy(s, v, x, s') && Look(s', v, p).Some? && !(x.Grow? && p == x.p)
    ensures Look(s, v, Origin(x, p)) == Look(s', v, p)
    ensures !(x.Loss? && Origin(x, p) == x.a) && (x.Carry? && Origin(x, p) == x.a ==> p == x.b)
  {
    hide Look;
    assert Look(s', v, p) == Shifted(s, v, x, p);
  }

  lemma OriginInjective(s: State, v: View, x: Shift, s': State, p: Place, q: Place)
    requires ShiftBy(s, v, x, s') && Look(s', v, p).Some? && Look(s', v, q).Some?
    requires !(x.Grow? && (p == x.p || q == x.p)) && Origin(x, p) == Origin(x, q)
    ensures p == q
  {
    hide Look, ExistsOk, Exists;
    OriginOf(s, v, x, s', p);
    OriginOf(s, v, x, s', q);
    hide ShiftBy;
  }

  lemma ShiftUnique(s: State, v: View, x: Shift, s': State)
    requires ShiftBy(s, v, x, s') && Unique(s, v) && Total(s, v)
    ensures Unique(s', v)
  {
    forall p, q | Look(s', v, p).Some? && Look(s', v, p) == Look(s', v, q) ensures p == q {
      if x.Grow? && (p == x.p || q == x.p) {
        assert Look(s', v, x.p) == Some(x.n) && !Somewhere(s, v, x.n);
        if p != x.p {
          OriginOf(s, v, x, s', p);
        }
        if q != x.p {
          OriginOf(s, v, x, s', q);
        }
      } else {
        OriginOf(s, v, x, s', p);
        OriginOf(s, v, x, s', q);
        hide ExistsOk, Look;
        assert Origin(x, p) == Origin(x, q);
        OriginInjective(s, v, x, s', p, q);
      }
    }
  }

  lemma GoalOf(s: State, v: View, x: Shift, s': State, p: Place)
    requires ShiftBy(s, v, x, s') && Look(s, v, p).Some? && !(x.Loss? && p == x.a)
    ensures Look(s', v, Goal(x, p)) == Look(s, v, p)
  {
    hide Look, ExistsOk;
    assert Look(s', v, Goal(x, p)) == Shifted(s, v, x, Goal(x, p));
  }

  lemma ShiftTotal(s: State, v: View, x: Shift, s': State)
    requires ShiftBy(s, v, x, s') && Unique(s, v) && Total(s, v)
    ensures Total(s', v)
  {
    forall n: nat ensures Exists(s'.g, v, n) <==> Somewhere(s', v, n) {
      assert Exists(s.g, v, n) <==> Somewhere(s, v, n);
      if Exists(s'.g, v, n) {
        if x.Grow? && n == x.n {
          assert Look(s', v, x.p) == Shifted(s, v, x, x.p);
        } else {
          var p :| Look(s, v, p) == Some(n);
          GoalOf(s, v, x, s', p);
        }
      }
      if Somewhere(s', v, n) {
        var p :| Look(s', v, p) == Some(n);
        if x.Grow? && p == x.p {
          assert Look(s', v, p) == Shifted(s, v, x, p);
        } else {
          OriginOf(s, v, x, s', p);
          assert Look(s, v, Origin(x, p)) == Some(n);
        }
      }
    }
  }

  // ---------------------------------------------------------------- items

  /** A move of thread `t` that touches at most the operation and the pointer at place `w`. */
  ghost predicate Local(c: Config, s: State, t: nat, m: Move, s': State, z: nat, x: nat, w: Place) {
    && DataInv(c, s.g) && ItemsOk(c, s) && Unique(s, Ids) && Unique(s, Ptrs) && Total(s, Ids) && Total(s, Ptrs)
    && Moved(s, t, m, s') && Footprint(s.g, m.g, z, x) && Hands(c, m.g, m.f)
    && (z == |s.g.ops| || Look(s, Ids, w) == Some(z)) && (x == s.g.nextPtr || Look(s, Ptrs, w) == Some(x))
  }

  ghost predicate Placed(c: Config, s: State) {
    ItemsOk(c, s) && Unique(s, Ids) && Unique(s, Ptrs) && Total(s, Ids) && Total(s, Ptrs)
  }

  lemma InHeap(c: Config, g: Data, y: Item)
    requires ItemOk(c, g, y)
    ensures !y.stage.Gone? ==> y.ptr in g.heap
    ensures !y.stage.Husk? ==> y.id < |g.ops|
  {
  }

  /** The item of any other place stays good. */
  lemma OtherItem(c: Config, s: State, t: nat, m: Move, s': State, z: nat, x: nat, w: Place, p: Place)
    requires Local(c, s, t, m, s', z, x, w) && p != w && ItemAt(s, p).Some?
    ensures ItemOk(c, m.g, ItemAt(s, p).value)
  {
    var y := ItemAt(s, p).value;
    InHeap(c, s.g, y);
    assert !y.stage.Husk? ==> Look(s, Ids, p) == Some(y.id);
    assert !y.stage.Gone? ==> Look(s, Ptrs, p) == Some(y.ptr);
    hide ItemOk, ItemAt;
    ItemStable(c, s.g, m.g, z, x, y);
  }

  /** Outside the mover's hands and place `b`, items are where they were, or shifted by
      taking the front of `a`. */
  ghost predicate Boxes(s: State, m: Move, a: Place, b: Place)
    requires m.Move?
  {
    forall p: Place :: !p.Hand? && p != b ==>
      DataItem(m.g, p) == if p == a && !Front(a) then None else DataItem(s.g, Before(a, p))
  }

  /** The item at a place outside the mover's hands and box `b` comes from another place. */
  lemma FromBefore(s: State, t: nat, m: Move, s': State, a: Place, b: Place, p: Place)
    requires Moved(s, t, m, s') && Boxes(s, m, a, b) && ItemAt(s', p).Some? && p != b && !(p.Hand? && p.t == t)
    requires (Front(a) ==> a.i == 0) && (a.Hand? ==> a.t == t)
    ensures ItemAt(s, Before(a, p)) == ItemAt(s', p) && Before(a, p) != a
  {
    hide HandItem, DataItem;
    if p.Hand? {
    } else {
    }
  }

  lemma AllItems(c: Config, s: State, t: nat, m: Move, s': State, z: nat, x: nat, w: Place, a: Place, b: Place)
    requires Local(c, s, t, m, s', z, x, w) && Boxes(s, m, a, b)
    requires !b.Hand? && DataItem(m.g, b).Some? ==> ItemOk(c, m.g, DataItem(m.g, b).value)
    requires w == a || (w.Hand? && w.t == t)
    requires (Front(a) ==> a.i == 0) && (a.Hand? ==> a.t == t) && (b.Hand? ==> b.t == t)
    ensures ItemsOk(c, s')
  {
    forall p | ItemAt(s', p).Some? ensures ItemOk(c, s'.g, ItemAt(s', p).value) {
      if p.Hand? && p.t == t {
        assert HandOk(c, m.g, m.f, p.other);
        hide ItemOk, HandItem, DataItem, Boxes;
      } else if p == b {
        hide ItemOk, HandItem, DataItem, Boxes;
      } else {
        FromBefore(s, t, m, s', a, b, p);
        assert s'.g == m.g;
        hide ItemOk, ItemAt, Boxes, Local, Moved;
        OtherItem(c, s, t, m, s', z, x, w, Before(a, p));
      }
    }
  }

  lemma Rearranged(c: Config, s: State, t: nat, m: Move, s': State, z: nat, x: nat, w: Place, xi: Shift, xp: Shift)
    requires Local(c, s, t, m, s', z, x, w) && ItemsOk(c, s') && ShiftBy(s, Ids, xi, s') && ShiftBy(s, Ptrs, xp, s')
    ensures Placed(c, s')
  {
    ShiftUnique(s, Ids, xi, s');
    ShiftUnique(s, Ptrs, xp, s');
    ShiftTotal(s, Ids, xi, s');
    ShiftTotal(s, Ptrs, xp, s');
  }

  predicate SameHand(s: State, t: nat, m: Move, v: View, i: bool)
    requires m.Move?
  {
    TokenOf(v, HandItem(m.f, i)) == Look(s, v, Hand(t, i))
  }

  /** Nothing is born, freed or handed over: the log and the live pointers are the same. */
  predicate SamePop(g: Data, g': Data) { |g'.ops| == |g.ops| && g'.heap.Keys == g.heap.Keys }

  predicate Own(t: nat, p: Place) { p.Hand? && p.t == t }

  /** A shift that only involves the mover's hands, box `b`, and taking from box `a`. */
  predicate Involves(t: nat, y: Shift, a: Place, b: Place) {
    match y
    case Stay => Own(t, a)
    case Grow(q, _) => Own(t, a) && (q == b || Own(t, q))
    case Carry(a1, b1) => (a1 == a || (Own(t, a1) && Own(t, a))) && (b1 == b || Own(t, b1))
    case Loss(a1) => a1 == a || (Own(t, a1) && Own(t, a))
  }

  function Plain(s: State, v: View, a: Place, p: Place): Option<nat> {
    if p == a && !Front(a) then None else Look(s, v, Before(a, p))
  }

  lemma OtherLook(s: State, t: nat, m: Move, s': State, v: View, a: Place, b: Place, p: Place)
    requires Moved(s, t, m, s') && Boxes(s, m, a, b) && !Own(t, p) && p != b && (a.Hand? ==> Own(t, a))
    ensures Look(s', v, p) == Plain(s, v, a, p)
  {
    hide HandItem, DataItem;
    if p.Hand? {
    } else {
    }
  }

  lemma OtherShift(s: State, t: nat, v: View, y: Shift, a: Place, b: Place, p: Place)
    requires Involves(t, y, a, b) && !Own(t, p) && p != b
    ensures Shifted(s, v, y, p) == Plain(s, v, a, p)
  {
    hide Look;
    match y
    case Stay =>
    case Grow(_, _) =>
    case Carry(_, _) =>
    case Loss(_) =>
  }

  lemma HandLook(s: State, t: nat, m: Move, s': State, v: View, i: bool)
    requires Moved(s, t, m, s')
    ensures Look(s', v, Hand(t, i)) == TokenOf(v, HandItem(m.f, i))
  {
    hide HandItem, TokenOf;
  }

  /** It is enough to look at the mover's hands and box `b`. */
  lemma EnoughToLook(s: State, t: nat, m: Move, s': State, v: View, y: Shift, a: Place, b: Place, p: Place)
    requires Moved(s, t, m, s') && Boxes(s, m, a, b) && Involves(t, y, a, b) && (a.Hand? ==> Own(t, a))
    requires TokenOf(v, HandItem(m.f, false)) == Shifted(s, v, y, Hand(t, false))
    requires TokenOf(v, HandItem(m.f, true)) == Shifted(s, v, y, Hand(t, true))
    requires b.Hand? || TokenOf(v, DataItem(m.g, b)) == Shifted(s, v, y, b)
    requires b.Hand? ==> b.t == t
    ensures Look(s', v, p) == Shifted(s, v, y, p)
  {
    if p.Hand? && p.t == t {
      HandLook(s, t, m, s', v, p.other);
      assert p == Hand(t, p.other);
      hide HandItem, DataItem, Shifted, Boxes, Moved, Look;
    } else if p == b {
      hide HandItem, DataItem, Shifted, Boxes;
    } else {
      hide HandItem, DataItem, Look, Shifted, Plain, Moved, Boxes;
      OtherLook(s, t, m, s', v, a, b, p);
      OtherShift(s, t, v, y, a, b, p);
    }
  }

  lemma LocalParts(c: Config, s: State, t: nat, m: Move, s': State, z: nat, x: nat, w: Place)
    requires Local(c, s, t, m, s', z, x, w)
    ensures Moved(s, t, m, s') && DataInv(c, s.g)
  {
  }

  lemma NewPtr(c: Config, s: State)
    requires DataInv(c, s.g)
    ensures !Exists(s.g, Ids, |s.g.ops|) && !Exists(s.g, Ptrs, s.g.nextPtr)
  {
  }

  lemma MakeShift(s: State, t: nat, m: Move, s': State, v: View, y: Shift, a: Place, b: Place)
    requires Moved(s, t, m, s') && Boxes(s, m, a, b) && Involves(t, y, a, b) && (a.Hand? ==> Own(t, a))
    requires TokenOf(v, HandItem(m.f, false)) == Shifted(s, v, y, Hand(t, false))
    requires TokenOf(v, HandItem(m.f, true)) == Shifted(s, v, y, Hand(t, true))
    requires b.Hand? || TokenOf(v, DataItem(m.g, b)) == Shifted(s, v, y, b)
    requires b.Hand? ==> b.t == t
    requires ShiftOk(s, v, y) && ExistsOk(s, v, y, m.g)
    ensures ShiftBy(s, v, y, s')
  {
    hide Boxes, Involves, HandItem, DataItem, Shifted, ShiftOk, ExistsOk, Look;
    forall p ensures Look(s', v, p) == Shifted(s, v, y, p) {
      EnoughToLook(s, t, m, s', v, y, a, b, p);
    }
  }

  lemma SameExists(g: Data, g': Data, v: View)
    requires if v == Ids then |g'.ops| == |g.ops| else g'.heap.Keys == g.heap.Keys
    ensures forall n: nat :: Exists(g', v, n) <==> Exists(g, v, n)
  {
    forall n: nat ensures Exists(g', v, n) <==> Exists(g, v, n) {
      KeyIn(g, n);
      KeyIn(g', n);
    }
  }

  lemma MoreExists(g: Data, g': Data, v: View, k: nat)
    requires if v == Ids then |g'.ops| == |g.ops| + 1 && k == |g.ops| else OneMore(g, g') && k == g.nextPtr
    ensures forall n: nat :: Exists(g', v, n) <==> Exists(g, v, n) || n == k
  {
    forall n: nat ensures Exists(g', v, n) <==> Exists(g, v, n) || n == k {
      KeyIn(g, n);
      KeyIn(g', n);
    }
  }

  lemma LessExists(g: Data, g': Data, k: nat)
    requires OneLess(g, g', k)
    ensures forall n: nat :: Exists(g', Ptrs, n) <==> Exists(g, Ptrs, n) && n != k
  {
    forall n: nat ensures Exists(g', Ptrs, n) <==> Exists(g, Ptrs, n) && n != k {
      KeyIn(g, n);
      KeyIn(g', n);
    }
  }

  /** The live pointers after an allocation and after a delete. */
  predicate OneMore(g: Data, g': Data) { g'.heap.Keys == g.heap.Keys + {g.nextPtr} }

  predicate OneLess(g: Data, g': Data, x: nat) { g'.heap.Keys == g.heap.Keys - {x} }

  lemma KeyIn(g: Data, x: nat)
    ensures x in g.heap <==> x in g.heap.Keys
  {
  }

  /** The operation in hand changes, but moves nowhere. */
  lemma KeepStay(c: Config, s: State, t: nat, m: Move, s': State, z: nat, x: nat)
    requires Local(c, s, t, m, s', z, x, Hand(t, false)) || Local(c, s, t, m, s', z, x, Hand(t, true))
    requires Boxes(s, m, Hand(t, false), Hand(t, false)) && SamePop(s.g, m.g)
    requires SameHand(s, t, m, Ids, false) && SameHand(s, t, m, Ids, true) && SameHand(s, t, m, Ptrs, false) && SameHand(s, t, m, Ptrs, true)
    ensures Placed(c, s')
  {
    var w := if Local(c, s, t, m, s', z, x, Hand(t, false)) then Hand(t, false) else Hand(t, true);
    hide Local, ItemsOk, ItemOk, Boxes, Moved, HandItem, DataItem, DataInv;
    LocalParts(c, s, t, m, s', z, x, w);
    AllItems(c, s, t, m, s', z, x, w, Hand(t, false), Hand(t, false));
    SameExists(s.g, m.g, Ids);
    SameExists(s.g, m.g, Ptrs);
    MakeShift(s, t, m, s', Ids, Stay, Hand(t, false), Hand(t, false));
    MakeShift(s, t, m, s', Ptrs, Stay, Hand(t, false), Hand(t, false));
    Rearranged(c, s, t, m, s', z, x, w, Stay, Stay);
  }

  /** An operation is born in hand `i`. */
  lemma KeepGrow(c: Config, s: State, t: nat, m: Move, s': State, z: nat, x: nat, i: bool)
    requires Local(c, s, t, m, s', z, x, Hand(t, false))
    requires Boxes(s, m, Hand(t, false), Hand(t, false)) && |m.g.ops| == |s.g.ops| + 1 && OneMore(s.g, m.g)
    requires HandItem(Fr(s, t), i).None? && HandItem(m.f, i).Some?
    requires TokenOf(Ids, HandItem(m.f, i)) == Some(|s.g.ops|) && TokenOf(Ptrs, HandItem(m.f, i)) == Some(s.g.nextPtr)
    requires SameHand(s, t, m, Ids, !i) && SameHand(s, t, m, Ptrs, !i)
    ensures Placed(c, s')
  {
    hide Local, ItemsOk, ItemOk, Boxes, Moved, HandItem, DataItem, DataInv;
    LocalParts(c, s, t, m, s', z, x, Hand(t, false));
    AllItems(c, s, t, m, s', z, x, Hand(t, false), Hand(t, false), Hand(t, false));
    MoreExists(s.g, m.g, Ids, |s.g.ops|);
    MoreExists(s.g, m.g, Ptrs, s.g.nextPtr);
    NewPtr(c, s);
    MakeShift(s, t, m, s', Ids, Grow(Hand(t, i), |s.g.ops|), Hand(t, false), Hand(t, false));
    MakeShift(s, t, m, s', Ptrs, Grow(Hand(t, i), s.g.nextPtr), Hand(t, false), Hand(t, false));
    Rearranged(c, s, t, m, s', z, x, Hand(t, false), Grow(Hand(t, i), |s.g.ops|), Grow(Hand(t, i), s.g.nextPtr));
  }

  /** The item in hand `i` is put into box `b`. */
  lemma KeepOut(c: Config, s: State, t: nat, m: Move, s': State, z: nat, x: nat, i: bool, b: Place)
    requires Local(c, s, t, m, s', z, x, Hand(t, i))
    requires Boxes(s, m, Hand(t, false), b) && SamePop(s.g, m.g) && !b.Hand?
    requires HandItem(Fr(s, t), i).Some? && HandItem(m.f, i).None? && DataItem(s.g, b).None?
    requires DataItem(m.g, b) == HandItem(Fr(s, t), i) && ItemOk(c, m.g, DataItem(m.g, b).value)
    requires forall v :: Look(s, v, Hand(t, i)).Some?
    requires SameHand(s, t, m, Ids, !i) && SameHand(s, t, m, Ptrs, !i)
    ensures Placed(c, s')
  {
    hide Local, ItemsOk, ItemOk, Boxes, Moved, HandItem, DataItem, DataInv;
    LocalParts(c, s, t, m, s', z, x, Hand(t, i));
    AllItems(c, s, t, m, s', z, x, Hand(t, i), Hand(t, false), b);
    SameExists(s.g, m.g, Ids);
    SameExists(s.g, m.g, Ptrs);
    MakeShift(s, t, m, s', Ids, Carry(Hand(t, i), b), Hand(t, false), b);
    MakeShift(s, t, m, s', Ptrs, Carry(Hand(t, i), b), Hand(t, false), b);
    Rearranged(c, s, t, m, s', z, x, Hand(t, i), Carry(Hand(t, i), b), Carry(Hand(t, i), b));
  }

  /** The item of box `a` is taken into hand 0. */
  lemma KeepIn(c: Config, s: State, t: nat, m: Move, s': State, z: nat, x: nat, a: Place)
    requires Local(c, s, t, m, s', z, x, a) && !a.Hand? && (Front(a) ==> a.i == 0)
    requires Boxes(s, m, a, Hand(t, false)) && SamePop(s.g, m.g)
    requires HandItem(Fr(s, t), false).None?
    requires forall v :: Look(s, v, a).Some? && TokenOf(v, HandItem(m.f, false)) == Look(s, v, a)
    requires SameHand(s, t, m, Ids, true) && SameHand(s, t, m, Ptrs, true)
    ensures Placed(c, s')
  {
    hide Local, ItemsOk, ItemOk, Boxes, Moved, HandItem, DataItem, DataInv;
    LocalParts(c, s, t, m, s', z, x, a);
    AllItems(c, s, t, m, s', z, x, a, a, Hand(t, false));
    SameExists(s.g, m.g, Ids);
    SameExists(s.g, m.g, Ptrs);
    MakeShift(s, t, m, s', Ids, Carry(a, Hand(t, false)), a, Hand(t, false));
    MakeShift(s, t, m, s', Ptrs, Carry(a, Hand(t, false)), a, Hand(t, false));
    Rearranged(c, s, t, m, s', z, x, a, Carry(a, Hand(t, false)), Carry(a, Hand(t, false)));
  }

  /** The operation in hand goes to a queue cell, whose record is a new copy, or to the
      user; the old record stays in hand. */
  lemma KeepPush(c: Config, s: State, t: nat, m: Move, s': State, z: nat, x: nat, b: Place)
    requires Local(c, s, t, m, s', z, x, Hand(t, false)) && (b.Cel? || b.Don?)
    requires Boxes(s, m, Hand(t, false), b) && |m.g.ops| == |s.g.ops|
    requires if b.Cel? then OneMore(s.g, m.g) else SamePop(s.g, m.g)
    requires DataItem(s.g, b).None? && DataItem(m.g, b).Some? && ItemOk(c, m.g, DataItem(m.g, b).value)
    requires Look(s, Ids, Hand(t, false)).Some? && TokenOf(Ids, DataItem(m.g, b)) == Look(s, Ids, Hand(t, false))
    requires TokenOf(Ptrs, DataItem(m.g, b)) == if b.Cel? then Some(s.g.nextPtr) else None
    requires TokenOf(Ids, HandItem(m.f, false)).None? && SameHand(s, t, m, Ptrs, false)
    requires SameHand(s, t, m, Ids, true) && SameHand(s, t, m, Ptrs, true)
    ensures Placed(c, s')
  {
    hide Local, ItemsOk, ItemOk, Boxes, Moved, HandItem, DataItem, DataInv;
    LocalParts(c, s, t, m, s', z, x, Hand(t, false));
    AllItems(c, s, t, m, s', z, x, Hand(t, false), Hand(t, false), b);
    SameExists(s.g, m.g, Ids);
    var xi := Carry(Hand(t, false), b);
    MakeShift(s, t, m, s', Ids, xi, Hand(t, false), b);
    if b.Cel? {
      MoreExists(s.g, m.g, Ptrs, s.g.nextPtr);
      NewPtr(c, s);
      MakeShift(s, t, m, s', Ptrs, Grow(b, s.g.nextPtr), Hand(t, false), b);
      Rearranged(c, s, t, m, s', z, x, Hand(t, false), xi, Grow(b, s.g.nextPtr));
    } else {
      SameExists(s.g, m.g, Ptrs);
      MakeShift(s, t, m, s', Ptrs, Stay, Hand(t, false), b);
      Rearranged(c, s, t, m, s', z, x, Hand(t, false), xi, Stay);
    }
  }

  /** The record in hand is deleted. */
  lemma KeepFree(c: Config, s: State, t: nat, m: Move, s': State, z: nat, x: nat)
    requires Local(c, s, t, m, s', z, x, Hand(t, false))
    requires Boxes(s, m, Hand(t, false), Hand(t, false)) && |m.g.ops| == |s.g.ops| && OneLess(s.g, m.g, x)
    requires Look(s, Ptrs, Hand(t, false)) == Some(x) && Look(s, Ids, Hand(t, false)).None? && HandItem(m.f, false).None?
    requires SameHand(s, t, m, Ids, true) && SameHand(s, t, m, Ptrs, true)
    ensures Placed(c, s')
  {
    hide Local, ItemsOk, ItemOk, Boxes, Moved, HandItem, DataItem, DataInv;
    LocalParts(c, s, t, m, s', z, x, Hand(t, false));
    AllItems(c, s, t, m, s', z, x, Hand(t, false), Hand(t, false), Hand(t, false));
    SameExists(s.g, m.g, Ids);
    LessExists(s.g, m.g, x);
    MakeShift(s, t, m, s', Ids, Stay, Hand(t, false), Hand(t, false));
    MakeShift(s, t, m, s', Ptrs, Loss(Hand(t, false)), Hand(t, false), Hand(t, false));
    Rearranged(c, s, t, m, s', z, x, Hand(t, false), Stay, Loss(Hand(t, false)));
  }

  /** The front of queue `q` is handed to the user and its record deleted. */
  lemma KeepPoll(c: Config, s: State, t: nat, m: Move, s': State, z: nat, x: nat, q: nat, b: Place)
    requires Local(c, s, t, m, s', z, x, Cel(q, 0)) && b.Don?
    requires Boxes(s, m, Cel(q, 0), b) && |m.g.ops| == |s.g.ops| && OneLess(s.g, m.g, x)
    requires Look(s, Ptrs, Cel(q, 0)) == Some(x) && Look(s, Ids, Cel(q, 0)) == Some(z)
    requires DataItem(s.g, b).None? && DataItem(m.g, b).Some? && ItemOk(c, m.g, DataItem(m.g, b).value)
    requires TokenOf(Ids, DataItem(m.g, b)) == Some(z) && TokenOf(Ptrs, DataItem(m.g, b)).None?
    requires SameHand(s, t, m, Ids, false) && SameHand(s, t, m, Ptrs, false) && SameHand(s, t, m, Ids, true) && SameHand(s, t, m, Ptrs, true)
    ensures Placed(c, s')
  {
    hide Local, ItemsOk, ItemOk, Boxes, Moved, HandItem, DataItem, DataInv;
    LocalParts(c, s, t, m, s', z, x, Cel(q, 0));
    AllItems(c, s, t, m, s', z, x, Cel(q, 0), Cel(q, 0), b);
    SameExists(s.g, m.g, Ids);
    LessExists(s.g, m.g, x);
    MakeShift(s, t, m, s', Ids, Carry(Cel(q, 0), b), Cel(q, 0), b);
    MakeShift(s, t, m, s', Ptrs, Loss(Cel(q, 0)), Cel(q, 0), b);
    Rearranged(c, s, t, m, s', z, x, Cel(q, 0), Carry(Cel(q, 0), b), Loss(Cel(q, 0)));
  }
}
