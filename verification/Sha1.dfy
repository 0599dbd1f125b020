/**
 Streaming SHA-1. `Sha1Spec` is the algorithm of FIPS PUB 180-1; `Sha1Stream` holds the class `CSHA1`, which keeps a
 64-byte buffer and a split bit counter, rewrites a 16-word schedule in place and unrolls the 80 rounds with
 renamed registers.
 */
module Sha1Spec {

  type Byte = bv8
  type Word = bv32

  datatype Regs = Regs(a: Word, b: Word, c: Word, d: Word, e: Word)

  /** The circular left shift of section 3. */
  function Rol(x: Word, n: bv6): Word
    requires n < 32
  {
    (x << n) | (x >> (32 - n))
  }

  /** The logical functions of section 5. */
  function F(t: nat, b: Word, c: Word, d: Word): Word {
    if t < 20 then (b & c) | (!b & d)
    else if t < 40 then b ^ c ^ d
    else if t < 60 then (b & c) | (b & d) | (c & d)
    else b ^ c ^ d
  }

  /** The constants of section 6. */
  function K(t: nat): Word {
    if t < 20 then 0x5A827999 else if t < 40 then 0x6ED9EBA1 else if t < 60 then 0x8F1BBCDC else 0xCA62C1D6
  }

  function BigEndian(p: Byte, q: Byte, r: Byte, s: Byte): Word {
    ((p as Word) << 24) | ((q as Word) << 16) | ((r as Word) << 8) | (s as Word)
  }

  /** The first 16 words are the block, big-endian. */
  function BlockWord(b: seq<Byte>, t: nat): Word
    requires |b| == 64 && t < 16
  {
    BigEndian(b[4 * t], b[4 * t + 1], b[4 * t + 2], b[4 * t + 3])
  }

  function Mix(p: Word, q: Word, r: Word, s: Word): Word {
    Rol(p ^ q ^ r ^ s, 1)
  }

  /** The 80-word schedule of section 7. */
  function W(b: seq<Byte>, t: nat): Word
    requires |b| == 64
  {
    if t < 16 then BlockWord(b, t) else Mix(W(b, t - 3), W(b, t - 8), W(b, t - 14), W(b, t - 16))
  }

  /** The sum TEMP of section 7. */
  function Temp(v: Word, f: Word, e: Word, w: Word, k: Word): Word {
    v + f + e + w + k
  }

  /** One step of section 7. */
  function Step(r: Regs, t: nat, w: Word): Regs {
    Regs(Temp(Rol(r.a, 5), F(t, r.b, r.c, r.d), r.e, w, K(t)), r.a, Rol(r.b, 30), r.c, r.d)
  }

  function Rounds(h: Regs, b: seq<Byte>, t: nat): Regs
    requires |b| == 64
  {
    if t == 0 then h else Step(Rounds(h, b, t - 1), t - 1, W(b, t - 1))
  }

  /** Addition modulo 2^32. */
  function Plus(x: Word, y: Word): Word {
    x + y
  }

  function Compress(h: Regs, b: seq<Byte>): Regs
    requires |b| == 64
  {
    var r := Rounds(h, b, 80);
    Regs(Plus(h.a, r.a), Plus(h.b, r.b), Plus(h.c, r.c), Plus(h.d, r.d), Plus(h.e, r.e))
  }

  const INITIAL := Regs(0x67452301, 0xEFCDAB89, 0x98BADCFE, 0x10325476, 0xC3D2E1F0)

  /** The blocks of a message, one after the other. */
  function Blocks(s: seq<Byte>): Regs
    requires |s| % 64 == 0
  {
    if s == [] then INITIAL else Compress(Blocks(s[..|s| - 64]), s[|s| - 64..])
  }

  const TWO_TO_THE_32: nat := 0x1_0000_0000

  function NatBytes(w: nat): (r: seq<Byte>)
    requires w < TWO_TO_THE_32
    ensures |r| == 4
  {
    [(w / 0x100_0000) as Byte, (w / 0x1_0000 % 256) as Byte, (w / 0x100 % 256) as Byte, (w % 256) as Byte]
  }

  function Zeros(n: nat): seq<Byte> {
    seq(n, _ => 0)
  }

  /** The number of zero bytes of section 4. */
  function ZeroCount(n: nat): nat {
    (119 - n % 64) % 64
  }

  /** The padding of section 4: a one bit, zeros, and the bit length as two words. */
  function Padding(n: nat): seq<Byte>
    requires n < 0x2000_0000_0000_0000
  {
    [0x80] + Zeros(ZeroCount(n)) + NatBytes(8 * n / TWO_TO_THE_32) + NatBytes(8 * n % TWO_TO_THE_32)
  }

  /** With the one bit and the zeros a block is used up to its last eight bytes. */
  lemma ZeroSum(n: nat)
    ensures n + 1 + ZeroCount(n) == 64 * (n / 64) + if n % 64 < 56 then 56 else 120
  {
  }

  lemma PaddedLength(n: nat)
    requires n < 0x2000_0000_0000_0000
    ensures |Padding(n)| == 9 + ZeroCount(n) && (n + |Padding(n)|) % 64 == 0
  {
    hide NatBytes, ZeroCount;
    ZeroSum(n);
  }

  function WordBytes(w: Word): (r: seq<Byte>)
    ensures |r| == 4
  {
    [(w >> 24) as Byte, ((w >> 16) & 0xFF) as Byte, ((w >> 8) & 0xFF) as Byte, (w & 0xFF) as Byte]
  }

  function Digest(r: Regs): seq<Byte> {
    WordBytes(r.a) + WordBytes(r.b) + WordBytes(r.c) + WordBytes(r.d) + WordBytes(r.e)
  }

  /** The message digest of a message of less than 2^61 bytes. */
  function Sha1(m: seq<Byte>): seq<Byte>
    requires |m| < 0x2000_0000_0000_0000
  {
    PaddedLength(|m|);
    Digest(Blocks(m + Padding(|m|)))
  }

  lemma BlocksSnoc(s: seq<Byte>, b: seq<Byte>)
    requires |s| % 64 == 0 && |b| == 64
    ensures Blocks(s + b) == Compress(Blocks(s), b)
  {
    assert (s + b)[..|s|] == s && (s + b)[|s|..] == b;
  }
}

module Sha1Rounds {
  import opened Sha1Spec

  /** The macros' forms of the logical functions. */
  function CodeF(t: nat, w: Word, x: Word, y: Word): Word {
    if t < 20 then (w & (x ^ y)) ^ y
    else if t < 40 then w ^ x ^ y
    else if t < 60 then ((w | x) & y) | (w & x)
    else w ^ x ^ y
  }

  lemma ChForm(w: Word, x: Word, y: Word)
    ensures (w & (x ^ y)) ^ y == (w & x) | (!w & y)
  {
  }

  lemma MajForm(w: Word, x: Word, y: Word)
    ensures ((w | x) & y) | (w & x) == (w & x) | (w & y) | (x & y)
  {
  }

  lemma CodeFIsF(t: nat, w: Word, x: Word, y: Word)
    ensures CodeF(t, w, x, y) == F(t, w, x, y)
  {
    ChForm(w, x, y);
    MajForm(w, x, y);
  }

  /** `z += f + m + k + v`, as the macros add. */
  function Accumulate(z: Word, f: Word, m: Word, k: Word, v: Word): Word {
    z + (f + m + k + v)
  }

  lemma SumForm(z: Word, f: Word, m: Word, k: Word, v: Word)
    ensures Accumulate(z, f, m, k, v) == Temp(v, f, z, m, k)
  {
  }

  /** A step of the standard, in the forms that the macros use. */
  lemma RoundForm(r: Regs, t: nat, m: Word)
    ensures Step(r, t, m) ==
            Regs(Accumulate(r.e, CodeF(t, r.b, r.c, r.d), m, K(t), Rol(r.a, 5)), r.a, Rol(r.b, 30), r.c, r.d)
  {
    hide F, CodeF, K, Rol, Temp, Accumulate;
    CodeFIsF(t, r.b, r.c, r.d);
    SumForm(r.e, F(t, r.b, r.c, r.d), m, K(t), Rol(r.a, 5));
  }

  /** A word as `memcpy` leaves it on a little-endian machine. */
  function Raw(b: seq<Byte>, t: nat): Word
    requires |b| == 64 && t < 16
  {
    LittleEndian(b[4 * t], b[4 * t + 1], b[4 * t + 2], b[4 * t + 3])
  }

  function LittleEndian(p: Byte, q: Byte, r: Byte, s: Byte): Word {
    (p as Word) | ((q as Word) << 8) | ((r as Word) << 16) | ((s as Word) << 24)
  }

  /** SHABLK0: the byte swap. */
  function Swap(x: Word): Word {
    (Rol(x, 24) & 0xFF00FF00) | (Rol(x, 8) & 0x00FF00FF)
  }

  lemma SwapBytes(p: Byte, q: Byte, r: Byte, s: Byte)
    ensures Swap(LittleEndian(p, q, r, s)) == BigEndian(p, q, r, s)
  {
  }

  lemma SwapRaw(b: seq<Byte>, t: nat)
    requires |b| == 64 && t < 16
    ensures Swap(Raw(b, t)) == BlockWord(b, t)
  {
    hide Swap, LittleEndian, BigEndian;
    SwapBytes(b[4 * t], b[4 * t + 1], b[4 * t + 2], b[4 * t + 3]);
  }

  /** The in-place schedule before round `i`: the latest value of each word, raw where it has not been used yet. */
  ghost predicate Scheduled(l: seq<Word>, b: seq<Byte>, i: nat)
    requires |b| == 64
  {
    && |l| == 16
    && (forall t | i <= t < 16 :: l[t] == Raw(b, t))
    && (forall t {:trigger W(b, t)} | i - 16 <= t < i && 0 <= t :: l[t % 16] == W(b, t))
  }

  /** SHABLK0 and SHABLK: the word for round `i`, stored in place. */
  function NextWord(l: seq<Word>, i: nat): Word
    requires |l| == 16
  {
    if i < 16 then Swap(l[i]) else Mix(l[(i + 13) % 16], l[(i + 8) % 16], l[(i + 2) % 16], l[i % 16])
  }

  lemma Slots(i: nat)
    requires i >= 16
    ensures (i + 13) % 16 == (i - 3) % 16 && (i + 8) % 16 == (i - 8) % 16 && (i + 2) % 16 == (i - 14) % 16 &&
      i % 16 == (i - 16) % 16
  {
    OneAround(i - 3);
    OneAround(i - 8);
    OneAround(i - 14);
    OneAround(i - 16);
  }

  lemma OneAround(n: nat)
    ensures (n + 16) % 16 == n % 16
  {
  }

  lemma OtherSlot(t: nat, i: nat)
    requires i - 16 < t < i
    ensures t % 16 != i % 16
  {
  }

  lemma NextWordIsW(l: seq<Word>, b: seq<Byte>, i: nat)
    requires |b| == 64 && Scheduled(l, b, i)
    ensures NextWord(l, i) == W(b, i)
    ensures Scheduled(l[i % 16 := W(b, i)], b, i + 1)
  {
    hide Mix, Swap, BlockWord, Raw;
    if i < 16 {
      SwapRaw(b, i);
    } else {
      Slots(i);
      assert l[(i - 3) % 16] == W(b, i - 3) && l[(i - 8) % 16] == W(b, i - 8) && l[(i - 14) % 16] == W(b, i - 14) &&
        l[(i - 16) % 16] == W(b, i - 16);
    }
    var m := l[i % 16 := W(b, i)];
    forall t | i + 1 - 16 <= t < i + 1 && 0 <= t
      ensures m[t % 16] == W(b, t)
    {
      if t != i {
        OtherSlot(t, i);
      }
    }
  }
}

module Sha1Stream {
  import opened Sha1Spec
  import opened Sha1Rounds

  /** The complete blocks of a message, and what is left over. */
  function Whole(m: seq<Byte>): seq<Byte> {
    m[..|m| - |m| % 64]
  }

  function Partial(m: seq<Byte>): seq<Byte> {
    m[|m| - |m| % 64..]
  }

  /** Two 32-bit words count the bits of n bytes, modulo 2^64. */
  predicate Counts(c0: nat, c1: nat, n: nat) {
    c1 * TWO_TO_THE_32 + c0 == 8 * n % (TWO_TO_THE_32 * TWO_TO_THE_32)
  }

  class CSHA1 {
    const state: array<Word>
    const buffer: array<Byte>
    const block: array<Word>
    const digest: array<Byte>
    var count0: nat
    var count1: nat
    /** Everything given to `Update` since the last `Reset`. */
    ghost var message: seq<Byte>

    ghost predicate Shaped()
      reads this
    {
      && state.Length == 5 && buffer.Length == 64 && block.Length == 16 && digest.Length == 20
      && state != block && buffer != digest && count0 < TWO_TO_THE_32 && count1 < TWO_TO_THE_32
    }

    function RegsOf(): Regs
      requires state.Length == 5
      reads state
    {
      Regs(state[0], state[1], state[2], state[3], state[4])
    }

    /** The fields are what the message so far makes them; the bit count is kept modulo 2^64. */
    ghost predicate Valid()
      reads this, state, buffer
    {
      && Shaped()
      && RegsOf() == Blocks(Whole(message))
      && buffer[..|message| % 64] == Partial(message)
      && Counts(count0, count1, |message|)
    }

    constructor ()
      ensures Valid() && message == [] && fresh(state) && fresh(buffer) && fresh(block) && fresh(digest)
    {
      state := new Word[5];
      buffer := new Byte[64];
      block := new Word[16];
      digest := new Byte[20];
      count0, count1 := 0, 0;
      message := [];
      new;
      Reset();
    }

    method Reset()
      requires Shaped()
      modifies this, state
      ensures Valid() && message == []
    {
      state[0], state[1], state[2], state[3], state[4] := 0x67452301, 0xEFCDAB89, 0x98BADCFE, 0x10325476, 0xC3D2E1F0;
      count0, count1 := 0, 0;
      message := [];
    }

    /** One of the macros _R0 to _R4, which only rename the registers. */
    method Round(v: Word, w: Word, x: Word, y: Word, z: Word, i: nat, ghost h: Regs, ghost b: seq<Byte>)
      returns (z': Word, w': Word)
      requires block.Length == 16 && |b| == 64 && Scheduled(block[..], b, i) && Rounds(h, b, i) == Regs(v, w, x, y, z)
      modifies block
      ensures Scheduled(block[..], b, i + 1) && Rounds(h, b, i + 1) == Regs(z', v, w', x, y)
    {
      hide Scheduled, Rol, Mix, Swap, W, CodeF, K, F, Accumulate, Temp;
      ghost var l := block[..];
      NextWordIsW(l, b, i);
      RoundForm(Rounds(h, b, i), i, W(b, i));
      if i < 16 {
        block[i] := Swap(block[i]);
      } else {
        block[i % 16] := Mix(block[(i + 13) % 16], block[(i + 8) % 16], block[(i + 2) % 16], block[i % 16]);
      }
      assert block[i % 16] == NextWord(l, i);
      assert block[..] == l[i % 16 := W(b, i)];
      z' := Accumulate(z, CodeF(i, w, x, y), block[i % 16], K(i), Rol(v, 5));
      w' := Rol(w, 30);
    }

    /** Five rounds bring each register back to its own name. */
    method Five(a0: Word, b0: Word, c0: Word, d0: Word, e0: Word, i: nat, ghost h: Regs, ghost m: seq<Byte>)
      returns (a: Word, b: Word, c: Word, d: Word, e: Word)
      requires block.Length == 16 && |m| == 64 && Scheduled(block[..], m, i) &&
        Rounds(h, m, i) == Regs(a0, b0, c0, d0, e0)
      modifies block
      ensures Scheduled(block[..], m, i + 5) && Rounds(h, m, i + 5) == Regs(a, b, c, d, e)
    {
      hide Scheduled, Rounds;
      a, b, c, d, e := a0, b0, c0, d0, e0;
      e, b := Round(a, b, c, d, e, i, h, m);
      d, a := Round(e, a, b, c, d, i + 1, h, m);
      c, e := Round(d, e, a, b, c, i + 2, h, m);
      b, d := Round(c, d, e, a, b, i + 3, h, m);
      a, c := Round(b, c, d, e, a, i + 4, h, m);
    }

    /** The copy of a block into the workspace. */
    method Load(m: seq<Byte>)
      requires block.Length == 16 && |m| == 64
      modifies block
      ensures Scheduled(block[..], m, 0)
    {
      hide Raw;
      for t := 0 to 16
        invariant forall j | 0 <= j < t :: block[j] == Raw(m, j)
      {
        block[t] := Raw(m, t);
      }
    }

    /** The 80 rounds, unrolled. */
    method Eighty(h: Regs, ghost m: seq<Byte>) returns (r: Regs)
      requires block.Length == 16 && |m| == 64 && Scheduled(block[..], m, 0)
      modifies block
      ensures r == Rounds(h, m, 80)
    {
      hide Scheduled, Rounds;
      NoRounds(h, m);
      var a, b, c, d, e := h.a, h.b, h.c, h.d, h.e;
      a, b, c, d, e := Five(a, b, c, d, e, 0, h, m);
      a, b, c, d, e := Five(a, b, c, d, e, 5, h, m);
      a, b, c, d, e := Five(a, b, c, d, e, 10, h, m);
      a, b, c, d, e := Five(a, b, c, d, e, 15, h, m);
      a, b, c, d, e := Five(a, b, c, d, e, 20, h, m);
      a, b, c, d, e := Five(a, b, c, d, e, 25, h, m);
      a, b, c, d, e := Five(a, b, c, d, e, 30, h, m);
      a, b, c, d, e := Five(a, b, c, d, e, 35, h, m);
      a, b, c, d, e := Five(a, b, c, d, e, 40, h, m);
      a, b, c, d, e := Five(a, b, c, d, e, 45, h, m);
      a, b, c, d, e := Five(a, b, c, d, e, 50, h, m);
      a, b, c, d, e := Five(a, b, c, d, e, 55, h, m);
      a, b, c, d, e := Five(a, b, c, d, e, 60, h, m);
      a, b, c, d, e := Five(a, b, c, d, e, 65, h, m);
      a, b, c, d, e := Five(a, b, c, d, e, 70, h, m);
      a, b, c, d, e := Five(a, b, c, d, e, 75, h, m);
      r := Regs(a, b, c, d, e);
    }

    method Transform(m: seq<Byte>)
      requires Shaped() && |m| == 64
      modifies state, block
      ensures RegsOf() == Compress(old(RegsOf()), m)
    {
      hide Scheduled, Rounds, Plus;
      var h := RegsOf();
      Load(m);
      var r := Eighty(h, m);
      state[0] := Plus(state[0], r.a);
      state[1] := Plus(state[1], r.b);
      state[2] := Plus(state[2], r.c);
      state[3] := Plus(state[3], r.d);
      state[4] := Plus(state[4], r.e);
    }

    /** C `memcpy` into the buffer. */
    method Copy(j: nat, s: seq<Byte>)
      requires buffer.Length == 64 && j + |s| <= 64
      modifies buffer
      ensures buffer[..j] == old(buffer[..j]) && buffer[j..j + |s|] == s
    {
      for k := 0 to |s|
        invariant buffer[..j] == old(buffer[..j]) && buffer[j..j + k] == s[..k]
      {
        buffer[j + k] := s[k];
        assert buffer[j..j + k + 1] == buffer[j..j + k] + [s[k]];
      }
    }

    /** The 64-bit bit count in two 32-bit words. */
    method AddCount(len: nat)
      requires Shaped() && len < TWO_TO_THE_32
      modifies this`count0, this`count1
      ensures Shaped()
      ensures count1 * TWO_TO_THE_32 + count0 ==
              (old(count1) * TWO_TO_THE_32 + old(count0) + 8 * len) % (TWO_TO_THE_32 * TWO_TO_THE_32)
    {
      var add := 8 * len % TWO_TO_THE_32;
      CountCarry(count0, count1, len);
      count0 := (count0 + add) % TWO_TO_THE_32;
      if count0 < add {
        count1 := (count1 + 1) % TWO_TO_THE_32;
      }
      count1 := (count1 + len / 0x2000_0000) % TWO_TO_THE_32;
    }

    /** The whole blocks of the data, straight from the caller's memory. */
    method Bulk(data: seq<Byte>, start: nat, ghost m: seq<Byte>) returns (i: nat)
      requires Shaped() && start <= |data| && |data| + 63 < TWO_TO_THE_32
      requires (|m| + start) % 64 == 0 && RegsOf() == Blocks(m + data[..start])
      modifies state, block
      ensures start <= i <= |data| && |data| - i < 64 && (|m| + i) % 64 == 0 && RegsOf() == Blocks(m + data[..i])
    {
      hide Blocks, Compress;
      i := start;
      while i + 63 < |data|
        invariant start <= i <= |data| && (|m| + i) % 64 == 0 && RegsOf() == Blocks(m + data[..i])
      {
        BlocksSnoc(m + data[..i], data[i..i + 64]);
        assert m + data[..i] + data[i..i + 64] == m + data[..i + 64];
        Transform(data[i..i + 64]);
        i := i + 64;
      }
    }

    /** When the buffer fills up: its block, and the whole blocks after it. */
    method Drain(data: seq<Byte>, j: nat) returns (i: nat)
      requires Shaped() && |data| + 63 < TWO_TO_THE_32 && j == |message| % 64 && j + |data| > 63
      requires RegsOf() == Blocks(Whole(message)) && buffer[..j] == Partial(message)
      modifies state, buffer, block
      ensures 0 < i <= |data| && |data| - i < 64 && (|message| + i) % 64 == 0 && RegsOf() == Blocks(message + data[..i])
    {
      hide Blocks, Compress;
      i := 64 - j;
      Copy(j, data[..i]);
      FirstBlock(message, data, i, buffer[..]);
      Transform(buffer[..]);
      i := Bulk(data, i, message);
    }

    /** What is left over is kept behind what is in the buffer. */
    method Keep(j: nat, src: seq<Byte>)
      requires Shaped() && j + |src| <= 64
      modifies buffer
      ensures Shaped() && buffer[..j + |src|] == old(buffer[..j]) + src
    {
      Copy(j, src);
      assert buffer[..j + |src|] == buffer[..j] + buffer[j..j + |src|];
    }

    /** Any amount of data continues the message. */
    method Update(data: seq<Byte>)
      requires Valid() && |data| + 63 < TWO_TO_THE_32
      modifies this, state, buffer, block
      ensures Valid() && message == old(message) + data
    {
      hide Blocks, Compress, Whole, Partial, Counts;
      ghost var m := message;
      var j := count0 / 8 % 64;
      BufferedCount(count0, count1, |m|);
      AddCount(|data|);
      var i := 0;
      if j + |data| > 63 {
        i := Drain(data, j);
        j := 0;
      }
      Keep(j, data[i..]);
      Leftover(m, data, i, buffer[..j + |data| - i]);
      message := m + data;
      CountMore(old(count0), old(count1), |m|, count0, count1, |data|);
    }

    /** The padding loop: zero bytes until 56 bytes of a block are used. */
    method PadZeros(ghost n: nat)
      requires Valid() && |message| == n + 1
      modifies this, state, buffer, block
      ensures Valid() && message == old(message) + Zeros(ZeroCount(n))
    {
      hide Blocks, Compress, Whole, Partial, Counts;
      ghost var m := message;
      ghost var k := 0;
      assert m == m + Zeros(0);
      BufferedCount(count0, count1, |message|);
      while count0 / 8 % 64 != 56
        invariant Valid() && 0 <= k <= ZeroCount(n) && message == m + Zeros(k)
        invariant count0 / 8 % 64 == (n + 1 + k) % 64
        decreases ZeroCount(n) - k
      {
        MorePadding(n, k);
        Update([0]);
        k := k + 1;
        assert Zeros(k) == Zeros(k - 1) + [0];
        BufferedCount(count0, count1, |message|);
      }
      EnoughPadding(n, k);
    }

    /** The digest bytes of the state, most significant first. */
    method StoreDigest()
      requires Shaped()
      modifies digest
      ensures digest[..] == Digest(RegsOf())
    {
      hide WordBytes;
      for i := 0 to 20
        invariant digest[..i] == Digest(RegsOf())[..i]
      {
        DigestAt(RegsOf(), i);
        digest[i] := WordBytes(state[i / 4])[i % 4];
        assert digest[..i + 1] == digest[..i] + [digest[i]];
      }
    }

    /** The digest of everything given to `Update`; afterwards the object is wiped and has to be reset. */
    method Final()
      requires Valid() && |message| < 0x2000_0000_0000_0000
      modifies this, state, buffer, block, digest
      ensures Shaped() && digest[..] == Sha1(old(message))
    {
      hide Blocks, Compress, Digest, Padding, NatBytes, Whole, Partial, Counts;
      ghost var m := message;
      ghost var n := |m|;
      CountWords(count0, count1, n);
      var finalcount := NatBytes(count1) + NatBytes(count0);
      Update([0x80]);
      PadZeros(n);
      Update(finalcount);
      assert message == m + Padding(n) by { PaddingParts(m, n); }
      PaddedLength(n);
      WholeBlocks(message);
      StoreDigest();
      Wipe();
    }

    /** SHA1_WIPE_VARIABLES, which is on by default. */
    method Wipe()
      requires Shaped()
      modifies this, state, buffer, block
      ensures Shaped()
    {
      for i := 0 to 64 {
        buffer[i] := 0;
      }
      for i := 0 to 5 {
        state[i] := 0;
      }
      count0, count1 := 0, 0;
      Transform(buffer[..]);
    }

    method GetHash() returns (d: seq<Byte>)
      ensures d == digest[..]
    {
      d := digest[..];
    }
  }

  lemma MorePadding(n: nat, k: nat)
    requires k <= ZeroCount(n) && (n + 1 + k) % 64 != 56
    ensures k < ZeroCount(n)
  {
    hide ZeroCount;
    ZeroSum(n);
  }

  lemma EnoughPadding(n: nat, k: nat)
    requires k <= ZeroCount(n) && (n + 1 + k) % 64 == 56
    ensures k == ZeroCount(n)
  {
    hide ZeroCount;
    ZeroSum(n);
    var x := n + 1 + k - 64 * (n / 64);
    assert x % 64 == (n + 1 + k) % 64;
  }

  lemma DigestAt(r: Regs, i: nat)
    requires i < 20
    ensures |Digest(r)| == 20 && Digest(r)[i] == WordBytes([r.a, r.b, r.c, r.d, r.e][i / 4])[i % 4]
  {
    hide WordBytes;
    FiveParts(WordBytes(r.a), WordBytes(r.b), WordBytes(r.c), WordBytes(r.d), WordBytes(r.e), i);
  }

  lemma FiveParts(a: seq<Byte>, b: seq<Byte>, c: seq<Byte>, d: seq<Byte>, e: seq<Byte>, i: nat)
    requires |a| == |b| == |c| == |d| == |e| == 4 && i < 20
    ensures (a + b + c + d + e)[i] == [a, b, c, d, e][i / 4][i % 4]
  {
  }

  lemma PaddingParts(m: seq<Byte>, n: nat)
    requires n == |m| < 0x2000_0000_0000_0000
    ensures m + [0x80] + Zeros(ZeroCount(n)) + (NatBytes(8 * n / TWO_TO_THE_32) + NatBytes(8 * n % TWO_TO_THE_32))
         == m + Padding(n)
  {
    hide NatBytes, Zeros;
  }

  lemma CountWords(c0: nat, c1: nat, n: nat)
    requires c0 < TWO_TO_THE_32 && c1 < TWO_TO_THE_32 && n < 0x2000_0000_0000_0000
    requires Counts(c0, c1, n)
    ensures c1 == 8 * n / TWO_TO_THE_32 && c0 == 8 * n % TWO_TO_THE_32
  {
  }

  lemma CountMore(c0: nat, c1: nat, n: nat, d0: nat, d1: nat, k: nat)
    requires Counts(c0, c1, n)
    requires d1 * TWO_TO_THE_32 + d0 == (c1 * TWO_TO_THE_32 + c0 + 8 * k) % (TWO_TO_THE_32 * TWO_TO_THE_32)
    ensures Counts(d0, d1, n + k)
  {
    assert (8 * n % (TWO_TO_THE_32 * TWO_TO_THE_32) + 8 * k) % (TWO_TO_THE_32 * TWO_TO_THE_32) ==
      8 * (n + k) % (TWO_TO_THE_32 * TWO_TO_THE_32);
  }

  lemma CountCarry(c0: nat, c1: nat, len: nat)
    requires c0 < TWO_TO_THE_32 && c1 < TWO_TO_THE_32 && len < TWO_TO_THE_32
    ensures var add := 8 * len % TWO_TO_THE_32;
            var d0 := (c0 + add) % TWO_TO_THE_32;
            var d1 := if d0 < add then (c1 + 1) % TWO_TO_THE_32 else c1;
            (d1 + len / 0x2000_0000) % TWO_TO_THE_32 * TWO_TO_THE_32 + d0 ==
            (c1 * TWO_TO_THE_32 + c0 + 8 * len) % (TWO_TO_THE_32 * TWO_TO_THE_32)
  {
    var add := 8 * len % TWO_TO_THE_32;
    var q := len / 0x2000_0000;
    ShiftSplit(len);
    var carry := if c0 + add >= TWO_TO_THE_32 then 1 else 0;
    var d0 := c0 + add - carry * TWO_TO_THE_32;
    Carry(c0, add);
    TwoWords(c1 + carry + q, d0);
    HighWord(c1 + carry, q);
  }

  /** `len << 3` and `len >> 29` are the two words of the bit length. */
  lemma ShiftSplit(len: nat)
    requires len < TWO_TO_THE_32
    ensures 8 * len == len / 0x2000_0000 * TWO_TO_THE_32 + 8 * len % TWO_TO_THE_32 && len / 0x2000_0000 < 8
  {
  }

  /** A 32-bit sum is smaller than an operand exactly when it has wrapped. */
  lemma Carry(x: nat, y: nat)
    requires x < TWO_TO_THE_32 && y < TWO_TO_THE_32
    ensures var s := (x + y) % TWO_TO_THE_32;
            (s < y <==> x + y >= TWO_TO_THE_32) && s == if x + y >= TWO_TO_THE_32 then x + y - TWO_TO_THE_32 else x + y
  {
  }

  lemma HighWord(x: nat, q: nat)
    ensures (x % TWO_TO_THE_32 + q) % TWO_TO_THE_32 == (x + q) % TWO_TO_THE_32
  {
  }

  lemma TwoWords(hi: nat, lo: nat)
    requires hi < 2 * TWO_TO_THE_32 && lo < TWO_TO_THE_32
    ensures hi % TWO_TO_THE_32 * TWO_TO_THE_32 + lo == (hi * TWO_TO_THE_32 + lo) % (TWO_TO_THE_32 * TWO_TO_THE_32)
  {
  }

  lemma BufferedCount(c0: nat, c1: nat, n: nat)
    requires c0 < TWO_TO_THE_32 && Counts(c0, c1, n)
    ensures c0 / 8 % 64 == n % 64
  {
    var q := 8 * n / (TWO_TO_THE_32 * TWO_TO_THE_32);
    assert 8 * n == q * (TWO_TO_THE_32 * TWO_TO_THE_32) + c1 * TWO_TO_THE_32 + c0;
    SixBits(c0, n, q * 0x80_0000_0000_0000 + c1 * 0x80_0000);
  }

  lemma SixBits(c: nat, n: nat, k: nat)
    requires 8 * n == 512 * k + c
    ensures c / 8 % 64 == n % 64
  {
    assert c / 8 == n - 64 * k;
  }

  lemma WholeBlocks(m: seq<Byte>)
    requires |m| % 64 == 0
    ensures Whole(m) == m
  {
  }

  lemma WholePartial(m: seq<Byte>)
    ensures Whole(m) + Partial(m) == m && |Whole(m)| == |m| - |m| % 64
  {
  }

  /** So many bytes are missing to a whole block. */
  lemma Missing(n: nat, i: nat)
    requires i == 64 - n % 64
    ensures (n + i) % 64 == 0 && 0 <= n % 64 < 64 && (n - n % 64) % 64 == 0
  {
  }

  /** Filling up the buffer completes a block of the message. */
  lemma FirstBlock(m: seq<Byte>, data: seq<Byte>, i: nat, b: seq<Byte>)
    requires i == 64 - |m| % 64 <= |data| && |b| == 64 && b[..|m| % 64] == Partial(m) && b[|m| % 64..] == data[..i]
    ensures (|m| + i) % 64 == 0 && Blocks(m + data[..i]) == Compress(Blocks(Whole(m)), b)
  {
    hide Blocks, Compress, Whole, Partial;
    Missing(|m|, i);
    WholePartial(m);
    Joined(Whole(m), Partial(m), data[..i], b, |m| % 64);
    BlocksSnoc(Whole(m), b);
  }

  lemma Joined(w: seq<Byte>, p: seq<Byte>, d: seq<Byte>, b: seq<Byte>, k: nat)
    requires k <= |b| && b[..k] == p && b[k..] == d
    ensures w + b == w + p + d
  {
    assert b == b[..k] + b[k..];
  }

  /** What is in the buffer afterwards is the unfinished block. */
  lemma Leftover(m: seq<Byte>, data: seq<Byte>, i: nat, b: seq<Byte>)
    requires i <= |data| && |data| - i < 64
    requires if i == 0 then |m| % 64 + |data| < 64 && b == Partial(m) + data else (|m| + i) % 64 == 0 && b == data[i..]
    ensures var n := m + data;
            |n| % 64 == |b| && Partial(n) == b && Whole(n) == if i == 0 then Whole(m) else m + data[..i]
  {
    var n := m + data;
    if i == 0 {
      assert |n| - |n| % 64 == |m| - |m| % 64;
    } else {
      assert |n| % 64 == |data| - i;
    }
  }

  lemma NoRounds(h: Regs, m: seq<Byte>)
    requires |m| == 64
    ensures Rounds(h, m, 0) == h
  {
  }

  function Join(pieces: seq<seq<Byte>>): seq<Byte> {
    if pieces == [] then [] else Join(pieces[..|pieces| - 1]) + pieces[|pieces| - 1]
  }

  /** However a message is cut into calls of `Update`, the digest is that of the whole message. */
  method HashPieces(pieces: seq<seq<Byte>>) returns (d: seq<Byte>)
    requires forall i | 0 <= i < |pieces| :: |pieces[i]| + 63 < TWO_TO_THE_32
    requires |Join(pieces)| < 0x2000_0000_0000_0000
    ensures d == Sha1(Join(pieces))
  {
    var h := new CSHA1();
    for i := 0 to |pieces|
      invariant h.Valid() && h.message == Join(pieces[..i])
      invariant fresh(h) && fresh(h.state) && fresh(h.buffer) && fresh(h.block) && fresh(h.digest)
    {
      hide Blocks, Whole, Partial;
      assert pieces[..i + 1][..i] == pieces[..i];
      h.Update(pieces[i]);
    }
    assert pieces[..|pieces|] == pieces;
    h.Final();
    d := h.GetHash();
  }
}
