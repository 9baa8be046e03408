/**
 Messages longer than an int can count.  Datatypes are modelled by the type maps of
 section 4.1.2 of MPI-3.1; every basic type here is MPI_BYTE, so a type map is the sequence
 of its byte displacements.
 */
module BigCount {
  import opened Wrappers

  const INT_MAX: int := 0x7fff_ffff
  const SIZE_MAX: int := 0xffff_ffff_ffff_ffff
  const AINT_MAX: int := 0x7fff_ffff_ffff_ffff

  /** The derived datatypes in use; a structure has two blocks. */
  datatype Type =
    | Byte
    | Contiguous(count: nat, base: Type)
    | Vector(count: nat, blocklength: nat, stride: int, base: Type)
    | Struct(first: Block, second: Block)

  datatype Block = Block(length: nat, displacement: int, base: Type)

  type TypeMap = seq<int>

  function Shifted(m: TypeMap, d: int): (r: TypeMap)
    ensures |r| == |m|
  {
    seq(|m|, i requires 0 <= i < |m| => m[i] + d)
  }

  function Lower(m: TypeMap): int
    requires m != []
  {
    if |m| == 1 || m[0] <= Lower(m[1..]) then m[0] else Lower(m[1..])
  }

  function Upper(m: TypeMap): int
    requires m != []
  {
    if |m| == 1 || m[0] >= Upper(m[1..]) then m[0] else Upper(m[1..])
  }

  /** From the first byte to one past the last. */
  function Extent(m: TypeMap): int { if m == [] then 0 else Upper(m) - Lower(m) + 1 }

  /** n copies, each `step` after the one before. */
  function Copies(m: TypeMap, step: int, n: nat): TypeMap {
    if n == 0 then [] else Copies(m, step, n - 1) + Shifted(m, (n - 1) * step)
  }

  function MapOf(t: Type): TypeMap {
    match t
    case Byte => [0]
    case Contiguous(n, base) => Copies(MapOf(base), Extent(MapOf(base)), n)
    case Vector(n, len, stride, base) =>
      var e := Extent(MapOf(base));
      Copies(Copies(MapOf(base), e, len), stride * e, n)
    case Struct(a, b) => BlockMap(a) + BlockMap(b)
  }

  function BlockMap(b: Block): TypeMap {
    Shifted(Copies(MapOf(b.base), Extent(MapOf(b.base)), b.length), b.displacement)
  }

  /** The bytes from..from+n-1 in order, each once. */
  function Bytes(from: int, n: nat): TypeMap { seq(n, i => from + i) }

  // ---------------------------------------------------------------- type_contiguous

  /** What type_contiguous builds. */
  function Chunked(c: nat, r: nat): Type {
    Struct(Block(1, 0, Vector(c, INT_MAX, INT_MAX, Byte)), Block(1, c * INT_MAX, Contiguous(r, Byte)))
  }

  lemma ByteExtent()
    ensures MapOf(Byte) == [0] && Extent([0]) == 1
  {
    assert Lower([0]) == 0 && Upper([0]) == 0;
  }

  lemma BytesJoin(from: int, a: nat, b: nat)
    ensures Bytes(from, a) + Bytes(from + a, b) == Bytes(from, a + b)
  {
  }

  lemma ShiftBytes(from: int, n: nat, d: int)
    ensures Shifted(Bytes(from, n), d) == Bytes(from + d, n)
  {
  }

  lemma {:induction false} SingleBytes(n: nat)
    ensures Copies([0], 1, n) == Bytes(0, n)
  {
    if n > 0 {
      SingleBytes(n - 1);
      assert [0] == Bytes(0, 1);
      ShiftBytes(0, 1, (n - 1) * 1);
      BytesJoin(0, n - 1, 1);
    }
  }

  /** Blocks laid end to end leave no gap and no overlap. */
  lemma {:induction false} BlocksOfBytes(len: nat, n: nat)
    ensures n * len >= 0 && Copies(Bytes(0, len), len, n) == Bytes(0, n * len)
  {
    if n > 0 {
      BlocksOfBytes(len, n - 1);
      assert n * len == (n - 1) * len + len;
      ShiftBytes(0, len, (n - 1) * len);
      BytesJoin(0, (n - 1) * len, len);
    }
  }

  lemma OneCopy(m: TypeMap, step: int)
    ensures Copies(m, step, 1) == m
  {
    assert Copies(m, step, 0) == [];
    assert 0 * step == 0;
    assert Shifted(m, 0) == m;
  }

  lemma VectorMap(c: nat)
    ensures c * INT_MAX >= 0 && MapOf(Vector(c, INT_MAX, INT_MAX, Byte)) == Bytes(0, c * INT_MAX)
  {
    ByteExtent();
    SingleBytes(INT_MAX);
    BlocksOfBytes(INT_MAX, c);
    assert INT_MAX * 1 == INT_MAX;
  }

  lemma RemainderMap(r: nat)
    ensures MapOf(Contiguous(r, Byte)) == Bytes(0, r)
  {
    ByteExtent();
    SingleBytes(r);
  }

  lemma OneBlock(t: Type, disp: int, n: nat)
    requires MapOf(t) == Bytes(0, n)
    ensures BlockMap(Block(1, disp, t)) == Bytes(disp, n)
  {
    hide MapOf, Extent;
    OneCopy(MapOf(t), Extent(MapOf(t)));
    ShiftBytes(0, n, disp);
  }

  /** The type denotes exactly the bytes of the message: all, in order, each once. */
  lemma ChunkedMap(c: nat, r: nat)
    ensures c * INT_MAX >= 0 && MapOf(Chunked(c, r)) == Bytes(0, c * INT_MAX + r)
  {
    var n := c * INT_MAX;
    hide BlockMap, Bytes;
    VectorMap(c);
    RemainderMap(r);
    OneBlock(Vector(c, INT_MAX, INT_MAX, Byte), 0, n);
    OneBlock(Contiguous(r, Byte), n, r);
    BytesJoin(0, n, r);
  }

  /** The two assertions of type_contiguous pass exactly below INT_MAX squared; then all counts are
      ints and the displacement is an MPI_Aint. */
  lemma AssertionBound(nbytes: nat)
    ensures nbytes % INT_MAX < INT_MAX
    ensures nbytes / INT_MAX < INT_MAX <==> nbytes < INT_MAX * INT_MAX
    ensures nbytes < INT_MAX * INT_MAX ==> nbytes / INT_MAX * INT_MAX <= AINT_MAX
    ensures nbytes / INT_MAX * INT_MAX + nbytes % INT_MAX == nbytes
  {
  }

  // ---------------------------------------------------------------- the calls, with the types they create

  /** The datatypes alive in the MPI library, by handle, and the last message handed to it. */
  class Library {
    var types: map<nat, Type>
    var nextType: nat
    var message: TypeMap

    ghost predicate Valid() reads this { forall h :: h in types ==> h < nextType }

    constructor ()
      ensures Valid() && types == map[]
    {
      types, nextType, message := map[], 0, [];
    }

    method Create(t: Type) returns (h: nat)
      requires Valid()
      modifies this
      ensures Valid() && h !in old(types) && types == old(types)[h := t] && message == old(message)
    {
      h := nextType;
      types, nextType := types[h := t], nextType + 1;
    }

    method Free(h: nat)
      requires Valid() && h in types
      modifies this
      ensures Valid() && types == old(types) - {h} && message == old(message)
    {
      types := types - {h};
    }

    /** Fails where the source's assertion does; otherwise exactly one more type is alive, and it
        denotes the bytes 0..nbytes-1. */
    method TypeContiguous(nbytes: nat) returns (r: Option<nat>)
      requires Valid() && nbytes <= SIZE_MAX
      modifies this
      ensures Valid()
      ensures r.Some? <==> nbytes < INT_MAX * INT_MAX
      ensures r.None? ==> types == old(types)
      ensures r.Some? ==> r.value !in old(types) && r.value in types && types - {r.value} == old(types)
      ensures r.Some? ==> MapOf(types[r.value]) == Bytes(0, nbytes)
    {
      AssertionBound(nbytes);
      var c, rest := nbytes / INT_MAX, nbytes % INT_MAX;
      if c >= INT_MAX || rest >= INT_MAX {
        return None;
      }
      ChunkedMap(c, rest);
      ghost var before := types;
      var chunks := Create(Vector(c, INT_MAX, INT_MAX, Byte));
      var remainder := Create(Contiguous(rest, Byte));
      var disp := c * INT_MAX;
      var whole := Create(Struct(Block(1, 0, types[chunks]), Block(1, disp, types[remainder])));
      assert types[whole] == Chunked(c, rest);
      hide MapOf, Chunked, Bytes;
      Free(chunks);
      Free(remainder);
      assert types == before[whole := types[whole]];
      return Some(whole);
    }

    /** isend and irecv: a byte count if it fits in an int, else one element of a derived type, which is
        freed again.  Either way the message is the bytes 0..size-1, so both ends of a transfer of
        equal size agree on the type signature. */
    method Post(size: nat) returns (ok: bool)
      requires Valid() && size <= SIZE_MAX
      modifies this
      ensures Valid() && types == old(types)
      ensures ok <==> size < INT_MAX * INT_MAX
      ensures ok ==> message == Bytes(0, size)
    {
      if size > INT_MAX {
        var t := TypeContiguous(size);
        if t.None? {
          return false;
        }
        OneCopy(MapOf(types[t.value]), Extent(MapOf(types[t.value])));
        message := Copies(MapOf(types[t.value]), Extent(MapOf(types[t.value])), 1);
        Free(t.value);
      } else {
        ByteExtent();
        SingleBytes(size);
        message := Copies(MapOf(Byte), Extent(MapOf(Byte)), size);
      }
      return true;
    }
  }
}
