/**
 The test payload of the ping-pong benchmark: a buffer starts with its own seed and
 continues with what a generator draws from it.  Nothing depends on the generator, which
 is a parameter.
 */
module Payload {
  import opened Basics

  type Seed = x: int | 0 <= x < 0x1_0000_0000

  /** One call of rand_r: the byte kept of the number drawn, and the new seed. */
  datatype Draw = Draw(next: Seed, byte: Byte)

  const SEED_SIZE: nat := 4

  // ---------------------------------------------------------------- the seed as bytes

  function Encode(x: Seed): (b: Bytes)
    ensures |b| == SEED_SIZE
  {
    var n := x as int;
    [n % 256, n / 256 % 256, n / 65536 % 256, n / 16777216]
  }

  function Decode(b: Bytes): (x: Seed)
    requires |b| == SEED_SIZE
  {
    (b[0] as int) + 256 * (b[1] as int) + 65536 * (b[2] as int) + 16777216 * (b[3] as int)
  }

  lemma DecodeEncode(x: Seed)
    ensures Decode(Encode(x)) == x
  {
    var n := x as int;
    var z := n / 256 / 256;
    assert n / 65536 == z && n / 16777216 == z / 256;
  }

  lemma EncodeDecode(b: Bytes)
    requires |b| == SEED_SIZE
    ensures Encode(Decode(b)) == b
  {
    var n, b1, b2, b3 := Decode(b) as int, b[1] as int, b[2] as int, b[3] as int;
    assert n / 256 == b1 + 256 * b2 + 65536 * b3;
    assert n / 65536 == b2 + 256 * b3;
    assert n / 16777216 == b3;
  }

  // ---------------------------------------------------------------- what a buffer should hold

  /** The n bytes drawn from a seed. */
  function Stream(gen: Seed -> Draw, seed: Seed, n: nat): (b: Bytes)
    ensures |b| == n
    decreases n
  {
    if n == 0 then [] else [gen(seed).byte] + Stream(gen, gen(seed).next, n - 1)
  }

  /** The seed after n draws. */
  function After(gen: Seed -> Draw, seed: Seed, n: nat): Seed
    decreases n
  {
    if n == 0 then seed else After(gen, gen(seed).next, n - 1)
  }

  function Written(gen: Seed -> Draw, seed: Seed, size: nat): (b: Bytes)
    requires size > SEED_SIZE
    ensures |b| == size
  {
    Encode(seed) + Stream(gen, seed, size - SEED_SIZE)
  }

  /** A buffer with the payload of a seed; buffers that cannot hold more than a seed are left alone. */
  function Filled(gen: Seed -> Draw, b: Bytes, seed: Seed): (r: Bytes)
    ensures |r| == |b|
  {
    if |b| <= SEED_SIZE then b else Written(gen, seed, |b|)
  }

  /** Some seed's payload. */
  ghost predicate Genuine(gen: Seed -> Draw, b: Bytes) {
    |b| <= SEED_SIZE || exists seed :: b == Written(gen, seed, |b|)
  }

  lemma {:induction false} StreamSplits(gen: Seed -> Draw, seed: Seed, n: nat)
    ensures Stream(gen, seed, n + 1) == Stream(gen, seed, n) + [gen(After(gen, seed, n)).byte]
    ensures After(gen, seed, n + 1) == gen(After(gen, seed, n)).next
    decreases n
  {
    if n > 0 {
      StreamSplits(gen, gen(seed).next, n - 1);
    }
  }

  lemma {:induction false} StreamPrefix(gen: Seed -> Draw, seed: Seed, k: nat, n: nat)
    requires k < n
    ensures Stream(gen, seed, n)[..k] == Stream(gen, seed, k) && Stream(gen, seed, n)[k] == gen(After(gen, seed, k)).byte
    decreases k
  {
    if k > 0 {
      StreamPrefix(gen, gen(seed).next, k - 1, n - 1);
    }
  }

  /** The seed of a genuine buffer is the one in its first four bytes. */
  lemma SeedIsInFront(gen: Seed -> Draw, b: Bytes, seed: Seed)
    requires |b| > SEED_SIZE && b == Written(gen, seed, |b|)
    ensures Decode(b[..SEED_SIZE]) == seed
  {
    assert b[..SEED_SIZE] == Encode(seed);
    DecodeEncode(seed);
  }

  /** A buffer is genuine exactly when it is the payload of the seed it starts with, and two
      seeds never give the same payload. */
  lemma GenuineIff(gen: Seed -> Draw, b: Bytes)
    requires |b| > SEED_SIZE
    ensures Genuine(gen, b) <==> b == Written(gen, Decode(b[..SEED_SIZE]), |b|)
    ensures forall x, y :: b == Written(gen, x, |b|) && b == Written(gen, y, |b|) ==> x == y
  {
    forall x | b == Written(gen, x, |b|) ensures x == Decode(b[..SEED_SIZE]) {
      SeedIsInFront(gen, b, x);
    }
  }

  // ---------------------------------------------------------------- write_buffer and check_buffer

  lemma FilledIsGenuine(gen: Seed -> Draw, b: Bytes, seed: Seed)
    ensures Genuine(gen, Filled(gen, b, seed))
  {
  }

  lemma NoDraw(gen: Seed -> Draw, seed: Seed)
    ensures After(gen, seed, 0) == seed
  {
  }

  lemma WrittenAt(gen: Seed -> Draw, seed: Seed, size: nat, i: nat)
    requires size > SEED_SIZE && i < size
    ensures Written(gen, seed, size)[i] ==
            if i < SEED_SIZE then Encode(seed)[i] else gen(After(gen, seed, i - SEED_SIZE)).byte
  {
    if i >= SEED_SIZE {
      StreamPrefix(gen, seed, i - SEED_SIZE, size - SEED_SIZE);
    }
  }

  /** Fills buf[start..start+size] with what passes the check, and touches nothing else. */
  method WriteBuffer(gen: Seed -> Draw, buf: array<Byte>, start: nat, size: nat, seed: Seed)
    requires start + size <= buf.Length
    modifies buf
    ensures buf[start..start + size] == Filled(gen, old(buf[start..start + size]), seed)
    ensures Genuine(gen, buf[start..start + size])
    ensures buf[..start] == old(buf[..start]) && buf[start + size..] == old(buf[start + size..])
  {
    hide Written, Stream, After, Genuine;
    NoDraw(gen, seed);
    FilledIsGenuine(gen, buf[start..start + size], seed);
    if size <= SEED_SIZE {
      return;
    }
    ghost var target := Written(gen, seed, size);
    var head := Encode(seed);
    for i := 0 to SEED_SIZE
      invariant forall k :: 0 <= k < i ==> buf[start + k] == target[k]
      invariant forall k :: 0 <= k < buf.Length && !(start <= k < start + size) ==> buf[k] == old(buf[k])
    {
      WrittenAt(gen, seed, size, i);
      buf[start + i] := head[i];
    }
    var s := seed;
    for i := SEED_SIZE to size
      invariant forall k :: 0 <= k < i ==> buf[start + k] == target[k]
      invariant s == After(gen, seed, i - SEED_SIZE)
      invariant forall k :: 0 <= k < buf.Length && !(start <= k < start + size) ==> buf[k] == old(buf[k])
    {
      WrittenAt(gen, seed, size, i);
      StreamSplits(gen, seed, i - SEED_SIZE);
      var d := gen(s);
      buf[start + i], s := d.byte, d.next;
    }
    assert buf[start..start + size] == target;
  }

  /** Accepts exactly the genuine buffers. */
  method CheckBuffer(gen: Seed -> Draw, buf: array<Byte>, start: nat, size: nat) returns (ok: bool)
    requires start + size <= buf.Length
    ensures ok <==> Genuine(gen, buf[start..start + size])
  {
    if size <= SEED_SIZE {
      return true;
    }
    ghost var b := buf[start..start + size];
    var first := Decode(buf[start..start + SEED_SIZE]);
    assert b[..SEED_SIZE] == buf[start..start + SEED_SIZE];
    EncodeDecode(b[..SEED_SIZE]);
    GenuineIff(gen, b);
    var s := first;
    for i := SEED_SIZE to size
      invariant b == buf[start..start + size]
      invariant b[..i] == Encode(first) + Stream(gen, first, i - SEED_SIZE)
      invariant s == After(gen, first, i - SEED_SIZE)
    {
      StreamSplits(gen, first, i - SEED_SIZE);
      var d := gen(s);
      if buf[start + i] != d.byte {
        WrongByte(gen, b, first, i);
        return false;
      }
      s := d.next;
      assert b[..i + 1] == b[..i] + [d.byte];
    }
    assert b[..size] == b;
    return true;
  }

  lemma WrongByte(gen: Seed -> Draw, b: Bytes, seed: Seed, i: nat)
    requires SEED_SIZE <= i < |b| && b[i] != gen(After(gen, seed, i - SEED_SIZE)).byte
    ensures b != Written(gen, seed, |b|)
  {
    StreamPrefix(gen, seed, i - SEED_SIZE, |b| - SEED_SIZE);
  }
}
