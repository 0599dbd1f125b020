/**
 WebSocket framing (`WebSocketFormat.h`): the frame builder and the frame extractor, against the base framing of
 sections 5.2 and 5.3 of RFC 6455.
 */
module WebSocketFrames {
  import opened Wrappers

  newtype Byte = x: int | 0 <= x < 256

  type Mask = m: seq<Byte> | |m| == 4 witness [0, 0, 0, 0]

  /** What the extractor reports; `size` is the number of bytes the frame takes. */
  datatype Message = Message(payload: seq<Byte>, opcode: Byte, fin: bool, size: nat)

  const MAX_LENGTH := 0x8000_0000

  // ----- masking -----

  function Power(k: nat): nat {
    if k == 0 then 1 else 2 * Power(k - 1)
  }

  /** The exclusive or of two numbers of k bits, bit by bit. */
  function XorBits(a: nat, b: nat, k: nat): (r: nat)
    ensures r < Power(k)
  {
    if k == 0 then 0 else 2 * XorBits(a / 2, b / 2, k - 1) + (a + b) % 2
  }

  lemma XorStep(a: nat, b: nat, k: nat)
    requires k > 0
    ensures XorBits(a, b, k) == 2 * XorBits(a / 2, b / 2, k - 1) + (a + b) % 2
  {
  }

  lemma PowerStep(k: nat)
    requires k > 0
    ensures Power(k) == 2 * Power(k - 1)
  {
  }

  /** The last bit. */
  lemma LastBit(a: nat, b: nat, x: nat)
    ensures (2 * x + (a + b) % 2) / 2 == x && (2 * x + (a + b) % 2 + b) % 2 == a % 2
  {
  }

  lemma XorBack(a: nat, b: nat, k: nat)
    requires k > 0
    ensures XorBits(XorBits(a, b, k), b, k) == 2 * XorBits(XorBits(a / 2, b / 2, k - 1), b / 2, k - 1) + a % 2
  {
    hide XorBits, Power;
    XorStep(a, b, k);
    XorStep(XorBits(a, b, k), b, k);
    LastBit(a, b, XorBits(a / 2, b / 2, k - 1));
  }

  lemma Halves(a: nat, n: nat)
    ensures a == 2 * (a / 2) + a % 2 && (a < 2 * n ==> a / 2 < n)
  {
  }

  lemma {:induction false} XorBitsTwice(a: nat, b: nat, k: nat)
    requires a < Power(k)
    ensures XorBits(XorBits(a, b, k), b, k) == a
  {
    if k > 0 {
      hide XorBits, Power;
      PowerStep(k);
      Halves(a, Power(k - 1));
      XorBack(a, b, k);
      XorBitsTwice(a / 2, b / 2, k - 1);
    }
  }

  lemma EightBits()
    ensures Power(8) == 256
  {
    assert Power(4) == 16;
  }

  function Xor(a: Byte, b: Byte): Byte {
    EightBits();
    XorBits(a as nat, b as nat, 8) as Byte
  }

  lemma XorTwice(a: Byte, b: Byte)
    ensures Xor(Xor(a, b), b) == a
  {
    hide XorBits, Power;
    EightBits();
    XorBitsTwice(a as nat, b as nat, 8);
  }

  // ----- what the combination is, bit by bit -----

  const WEIGHTS: seq<nat> := [1, 2, 4, 8, 16, 32, 64, 128]

  /** Bit k of a byte. */
  function Bit(x: Byte, k: nat): nat
    requires k < 8
  {
    x as nat / WEIGHTS[k] % 2
  }

  lemma Weights(k: nat)
    requires k < 8
    ensures Power(k) == WEIGHTS[k]
  {
    assert Power(2) == 4 && Power(5) == 32;
  }

  lemma HalfAgain(x: nat, p: nat)
    requires p > 0
    ensures x / (2 * p) == x / 2 / p
  {
    var q, r := x / 2 / p, x / 2 % p;
    var s := 2 * r + x % 2;
    assert x / 2 == q * p + r;
    assert x == 2 * (q * p + r) + x % 2;
    assert x == q * (2 * p) + s;
    Quotient(x, 2 * p, q, s);
  }

  lemma Quotient(x: nat, d: nat, q: nat, s: nat)
    requires x == q * d + s && s < d
    ensures x / d == q
  {
    var e := x / d - q;
    assert x == x / d * d + x % d;
    assert x / d * d == q * d + e * d;
    Scaled(e, d);
  }

  lemma Scaled(e: int, d: nat)
    ensures e >= 1 ==> e * d >= d
    ensures e <= -1 ==> e * d + d <= 0
  {
    if e >= 1 {
      assert e * d == (e - 1) * d + d;
    } else if e <= -1 {
      assert e * d == (e + 1) * d - d;
    }
  }

  lemma PowerPositive(k: nat)
    ensures Power(k) > 0
  {
  }

  lemma LowBit(a: nat, b: nat, n: nat)
    requires n > 0
    ensures XorBits(a, b, n) / 1 % 2 == (a / 1 % 2 + b / 1 % 2) % 2
  {
    hide XorBits;
    XorStep(a, b, n);
  }

  /** The bit of weight p. */
  function BitOf(x: nat, p: nat): nat
    requires p > 0
  {
    x / p % 2
  }

  lemma HalfBit(x: nat, p: nat)
    requires p > 0
    ensures BitOf(x, 2 * p) == BitOf(x / 2, p)
  {
    HalfAgain(x, p);
  }

  /** Another bit is the one below of the halves. */
  lemma HighBit(a: nat, b: nat, n: nat, p: nat)
    requires n > 0 && p > 0
    ensures BitOf(XorBits(a, b, n), 2 * p) == BitOf(XorBits(a / 2, b / 2, n - 1), p)
    ensures BitOf(a, 2 * p) == BitOf(a / 2, p) && BitOf(b, 2 * p) == BitOf(b / 2, p)
  {
    hide XorBits, BitOf;
    XorStep(a, b, n);
    LastBit(a, b, XorBits(a / 2, b / 2, n - 1));
    HalfBit(XorBits(a, b, n), p);
    HalfBit(a, p);
    HalfBit(b, p);
  }

  lemma {:induction false} XorBitsAt(a: nat, b: nat, n: nat, k: nat)
    requires k < n && Power(k) > 0
    ensures BitOf(XorBits(a, b, n), Power(k)) == (BitOf(a, Power(k)) + BitOf(b, Power(k))) % 2
  {
    if k == 0 {
      LowBit(a, b, n);
    } else {
      hide XorBits, Power, BitOf;
      PowerPositive(k - 1);
      PowerStep(k);
      HighBit(a, b, n, Power(k - 1));
      XorBitsAt(a / 2, b / 2, n - 1, k - 1);
    }
  }

  /** Exactly the bits in which the operands differ are set. */
  lemma XorBit(a: Byte, b: Byte, k: nat)
    requires k < 8
    ensures Bit(Xor(a, b), k) == 1 <==> Bit(a, k) != Bit(b, k)
  {
    hide XorBits, Power;
    EightBits();
    Weights(k);
    XorBitsAt(a as nat, b as nat, 8, k);
  }

  /**
   Each byte of `r` differs from that of `p` exactly in the bits of the byte of the key at the same place modulo 4.
   */
  ghost predicate Differs(r: seq<Byte>, p: seq<Byte>, key: seq<Byte>) {
    && |r| == |p| && |key| == 4
    && forall i, k: nat | 0 <= i < |p| && k < 8 :: Bit(r[i], k) == 1 <==> Bit(p[i], k) != Bit(key[i % 4], k)
  }

  /** Section 5.3: octet i is combined with octet i modulo 4 of the key. */
  function Masked(p: seq<Byte>, mask: Option<Mask>): (r: seq<Byte>)
    ensures |r| == |p|
  {
    if mask.None? then p else seq(|p|, i requires 0 <= i < |p| => Xor(p[i], mask.value[i % 4]))
  }

  lemma MaskedDiffers(p: seq<Byte>, mask: Mask)
    ensures Differs(Masked(p, Some(mask)), p, mask)
  {
    hide Xor, Bit;
    forall i, k: nat | 0 <= i < |p| && k < 8
      ensures Bit(Masked(p, Some(mask))[i], k) == 1 <==> Bit(p[i], k) != Bit(mask[i % 4], k)
    {
      XorBit(p[i], mask[i % 4], k);
    }
  }

  lemma NotMasked(p: seq<Byte>)
    ensures Masked(p, None) == p
  {
  }

  lemma MaskedTwice(p: seq<Byte>, mask: Option<Mask>)
    ensures Masked(Masked(p, mask), mask) == p
  {
    if mask.Some? {
      forall i | 0 <= i < |p|
        ensures Masked(Masked(p, mask), mask)[i] == p[i]
      {
        XorTwice(p[i], mask.value[i % 4]);
      }
    }
  }

  // ----- frames on the wire -----

  /** The three forms of the payload length. */
  datatype Form = Short | Medium | Long

  /** The lengths a form can carry; the extractor also refuses a set bit 31. */
  predicate Carries(form: Form, n: nat) {
    match form
    case Short => n <= 125
    case Medium => n <= 0xFFFF
    case Long => n < MAX_LENGTH
  }

  function LengthBytes(form: Form, n: nat): seq<Byte>
    requires form.Short? ==> n <= 125
  {
    match form
    case Short => [n as Byte]
    case Medium => [126, (n / 0x100 % 0x100) as Byte, (n % 0x100) as Byte]
    case Long => [127, 0, 0, 0, 0, (n / 0x100_0000 % 0x100) as Byte, (n / 0x1_0000 % 0x100) as Byte,
                  (n / 0x100 % 0x100) as Byte, (n % 0x100) as Byte]
  }

  /** Everything before the masked payload: first byte, length with the mask bit, masking key. */
  function Header(first: Byte, form: Form, n: nat, mask: Option<Mask>): seq<Byte>
    requires form.Short? ==> n <= 125
  {
    var length := LengthBytes(form, n);
    if mask.None? then [first] + length
    else [first, length[0] + 128] + length[1..] + mask.value
  }

  /** A frame of section 5.2 with any reserved bits in its first byte and any of the length forms. */
  function Wire(first: Byte, form: Form, p: seq<Byte>, mask: Option<Mask>): seq<Byte>
    requires form.Short? ==> |p| <= 125
  {
    Header(first, form, |p|, mask) + Masked(p, mask)
  }

  /** The shortest form that carries the length. */
  function Shortest(n: nat): Form {
    if n <= 125 then Short else if n <= 0xFFFF then Medium else Long
  }

  /** The frame type as a number, with bit 7 for the end of a message. */
  function First(kind: Byte, fin: bool): Byte {
    if fin && kind < 128 then kind + 128 else kind
  }

  function Frame(p: seq<Byte>, kind: Byte, fin: bool, mask: Option<Mask>): seq<Byte> {
    Wire(First(kind, fin), Shortest(|p|), p, mask)
  }

  // ----- the builder -----

  method PushLength(frame0: seq<Byte>, n: nat) returns (frame: seq<Byte>)
    ensures frame == frame0 + LengthBytes(Shortest(n), n)
  {
    frame := frame0;
    if n <= 125 {
      frame := frame + [n as Byte];
    } else if n <= 0xFFFF {
      frame := frame + [126];
      frame := frame + [(n / 0x100 % 0x100) as Byte];
      frame := frame + [(n % 0x100) as Byte];
    } else {
      frame := frame + [127];
      frame := frame + [0, 0, 0, 0];
      frame := frame + [(n / 0x100_0000 % 0x100) as Byte];
      frame := frame + [(n / 0x1_0000 % 0x100) as Byte];
      frame := frame + [(n / 0x100 % 0x100) as Byte];
      frame := frame + [(n % 0x100) as Byte];
    }
  }

  /** `rand` holds the low bytes of the next four random numbers. */
  method PushMask(frame0: seq<Byte>, rand: Mask) returns (frame: seq<Byte>, mask: Mask)
    ensures mask == rand && frame == frame0 + mask
  {
    frame := frame0;
    var drawn := [];
    for i := 0 to 4
      invariant drawn == rand[..i] && frame == frame0 + rand[..i]
    {
      drawn := drawn + [rand[i]];
      frame := frame + [rand[i]];
    }
    mask := drawn;
  }

  /** The masking loop of both directions: bytes `from` to `to` of the source are appended, masked. */
  method PushMasked(sink0: seq<Byte>, source: seq<Byte>, from: nat, to: nat, mask: Mask) returns (sink: seq<Byte>)
    requires from <= to <= |source|
    ensures sink == sink0 + Masked(source[from..to], Some(mask))
  {
    ghost var masked := Masked(source[from..to], Some(mask));
    sink := sink0;
    for j := 0 to to - from
      invariant sink == sink0 + masked[..j]
    {
      sink := sink + [Xor(source[from + j], mask[j % 4])];
    }
    assert masked[..to - from] == masked;
  }

  method Build(payload: seq<Byte>, kind: Byte, fin: bool, masking: bool, rand: Mask)
    returns (ok: bool, frame: seq<Byte>)
    ensures ok && frame == Frame(payload, kind, fin, if masking then Some(rand) else None)
    ensures var start := |frame| - |payload|;
      if masking then start >= 6 && frame[start - 4..start] == rand && Differs(frame[start..], payload, rand)
      else start >= 2 && frame[start..] == payload
  {
    ghost var mask0 := if masking then Some(rand) else None;
    ghost var head := Header(First(kind, fin), Shortest(|payload|), |payload|, mask0);
    MaskedDiffers(payload, rand);
    NotMasked(payload);
    assert (head + Masked(payload, mask0))[|head|..] == Masked(payload, mask0);
    assert masking ==> (head + Masked(payload, mask0))[|head| - 4..|head|] == rand;
    frame := [if fin && kind < 128 then kind + 128 else kind];
    frame := PushLength(frame, |payload|);
    LengthMarked(First(kind, fin), |payload|);
    if masking {
      frame := frame[1 := frame[1] + 128];
      var mask;
      frame, mask := PushMask(frame, rand);
      frame := PushMasked(frame, payload, 0, |payload|, mask);
      assert payload[0..|payload|] == payload;
    } else {
      frame := frame + payload;
    }
    ok := true;
  }

  lemma LengthMarked(first: Byte, n: nat)
    ensures var length := LengthBytes(Shortest(n), n); var f := [first] + length;
      && |length| > 0 && f[1] < 128 && f[1 := f[1] + 128] == [first, length[0] + 128] + length[1..]
  {
  }

  // ----- the extractor -----

  /** Length and position after the length field, if the buffer holds an acceptable one. */
  function LengthAt(b: seq<Byte>): Option<(nat, nat)>
    requires |b| >= 2
  {
    var n := b[1] as nat % 128;
    if n == 126 then
      if |b| < 4 then None else Some((b[2] as nat * 0x100 + b[3] as nat, 4))
    else if n == 127 then
      if |b| < 10 || b[2] != 0 || b[3] != 0 || b[4] != 0 || b[5] != 0 || b[6] >= 128 then None
      else Some((b[6] as nat * 0x100_0000 + b[7] as nat * 0x1_0000 + b[8] as nat * 0x100 + b[9] as nat, 10))
    else Some((n, 2))
  }

  function Decode(b: seq<Byte>): Option<Message> {
    if |b| < 2 || LengthAt(b).None? then None
    else
      var (n, pos) := LengthAt(b).value;
      if b[1] < 128 then
        if |b| < pos + n then None
        else Some(Message(b[pos..pos + n], b[0] % 16, b[0] >= 128, pos + n))
      else if |b| < pos + 4 + n then None
      else
        var mask: Mask := b[pos..pos + 4];
        Some(Message(Masked(b[pos + 4..pos + 4 + n], Some(mask)), b[0] % 16, b[0] >= 128, pos + 4 + n))
  }

  method ReadLength(b: seq<Byte>) returns (ok: bool, n: nat, pos: nat)
    requires |b| >= 2
    ensures ok == LengthAt(b).Some?
    ensures ok ==> LengthAt(b) == Some((n, pos)) && n < MAX_LENGTH && 2 <= pos <= 10
  {
    ok, n, pos := false, b[1] as nat % 128, 2;
    if n == 126 {
      if |b| < 4 {
        return;
      }
      n := b[2] as nat * 0x100 + b[3] as nat;
      pos := 4;
    } else if n == 127 {
      if |b| < 10 {
        return;
      }
      if b[2] != 0 || b[3] != 0 || b[4] != 0 || b[5] != 0 {
        return;
      }
      if b[6] >= 128 {
        return;
      }
      n := b[6] as nat * 0x100_0000 + b[7] as nat * 0x1_0000 + b[8] as nat * 0x100 + b[9] as nat;
      pos := 10;
    }
    ok := true;
  }

  /**
   The out-parameters come in with their old values: the payload is appended to, and after a failure payload and
   frame size are the old ones. No sum leaves 32 bits.
   */
  method Extract(b: seq<Byte>, payload0: seq<Byte>, opcode0: Byte, size0: nat, fin0: bool)
    returns (ok: bool, payload: seq<Byte>, opcode: Byte, size: nat, fin: bool)
    ensures ok == Decode(b).Some?
    ensures ok ==> payload0 <= payload && Decode(b).value == Message(payload[|payload0|..], opcode, fin, size)
    ensures ok ==> size < MAX_LENGTH + 14
    ensures ok ==>
      var got := payload[|payload0|..]; var start := size - |got|;
      && 2 <= start <= size <= |b|
      && if b[1] < 128 then got == b[start..size]
         else start >= 6 && Differs(got, b[start..size], b[start - 4..start])
    ensures !ok ==> payload == payload0 && size == size0
  {
    hide LengthAt, Masked;
    ok, payload, opcode, size, fin := false, payload0, opcode0, size0, fin0;
    if |b| < 2 {
      return;
    }
    fin := b[0] >= 128;
    opcode := b[0] % 16;
    var masking := b[1] >= 128;
    var fine, n, pos := ReadLength(b);
    if !fine {
      return;
    }
    var mask: Mask := [0, 0, 0, 0];
    if masking {
      if |b| < pos + 4 {
        return;
      }
      mask := b[pos..pos + 4];
      pos := pos + 4;
    }
    if |b| < pos + n {
      return;
    }
    if masking {
      payload := PushMasked(payload, b, pos, pos + n, mask);
      MaskedDiffers(b[pos..pos + n], mask);
    } else {
      payload := payload + b[pos..pos + n];
    }
    size := n + pos;
    ok := true;
  }

  // ----- what the extractor accepts -----

  lemma Digits(n: nat)
    ensures n / 0x1_0000 == n / 0x100 / 0x100 && n / 0x100_0000 == n / 0x100 / 0x100 / 0x100
    ensures n / 0x1_0000_0000 == n / 0x100 / 0x100 / 0x100 / 0x100
  {
  }

  /** The four low digits to the base 256 make up the number modulo 2^32. */
  lemma LengthAgain(n: nat)
    ensures n < 0x1_0000 ==> n / 0x100 % 0x100 * 0x100 + n % 0x100 == n
    ensures n / 0x100_0000 % 0x100 * 0x100_0000 + n / 0x1_0000 % 0x100 * 0x1_0000 + n / 0x100 % 0x100 * 0x100 +
      n % 0x100
         == n % 0x1_0000_0000
    ensures n / 0x100_0000 % 0x100 >= 0x80 <==> n % 0x1_0000_0000 >= MAX_LENGTH
  {
    Digits(n);
    var a := n / 0x100;
    var b := a / 0x100;
    var c := b / 0x100;
    var d := c / 0x100;
    assert n == d * 0x1_0000_0000 + c % 0x100 * 0x100_0000 + b % 0x100 * 0x1_0000 + a % 0x100 * 0x100 + n % 0x100;
  }

  /** The header of a frame is read back, whatever follows. */
  lemma LengthRead(first: Byte, form: Form, n: nat, mask: Option<Mask>, rest: seq<Byte>)
    requires Carries(form, n)
    ensures var h := Header(first, form, n, mask); var b := h + rest;
      && |b| >= 2 && b[0] == first && (b[1] >= 128 <==> mask.Some?)
      && LengthAt(b) == Some((n, |h| - if mask.Some? then 4 else 0))
      && (mask.Some? ==> h[|h| - 4..] == mask.value)
  {
    LengthAgain(n);
  }

  /** Every frame decodes to what it carries, whatever follows it. */
  lemma WireDecodes(first: Byte, form: Form, p: seq<Byte>, mask: Option<Mask>, rest: seq<Byte>)
    requires Carries(form, |p|)
    ensures var w := Wire(first, form, p, mask);
      Decode(w + rest) == Some(Message(p, first % 16, first >= 128, |w|))
  {
    hide Header, LengthAt, Masked;
    var h, body := Header(first, form, |p|, mask), Masked(p, mask);
    LengthRead(first, form, |p|, mask, body + rest);
    MaskedTwice(p, mask);
    var b := Wire(first, form, p, mask) + rest;
    assert b == h + (body + rest);
    assert b[|h|..|h| + |p|] == body;
    if mask.Some? {
      assert b[|h| - 4..|h|] == h[|h| - 4..];
    } else {
      NotMasked(p);
    }
  }

  /** The form of the length and the masking key at the head of a buffer. */
  function FormAt(b: seq<Byte>): Form
    requires |b| >= 2
  {
    if b[1] % 128 == 126 then Medium else if b[1] % 128 == 127 then Long else Short
  }

  function MaskAt(b: seq<Byte>): Option<Mask>
    requires |b| >= 2 && LengthAt(b).Some? && (b[1] >= 128 ==> |b| >= LengthAt(b).value.1 + 4)
  {
    var pos := LengthAt(b).value.1;
    var mask: Mask := if b[1] < 128 then [0, 0, 0, 0] else b[pos..pos + 4];
    if b[1] < 128 then None else Some(mask)
  }

  lemma DigitsOf(x: nat, y: nat, z: nat, w: nat)
    requires x < 0x100 && y < 0x100 && z < 0x100 && w < 0x100
    ensures var n := x * 0x100_0000 + y * 0x1_0000 + z * 0x100 + w;
      && n % 0x100 == w && n / 0x100 % 0x100 == z && n / 0x1_0000 % 0x100 == y && n / 0x100_0000 % 0x100 == x
  {
    var n := x * 0x100_0000 + y * 0x1_0000 + z * 0x100 + w;
    assert n / 0x100 == x * 0x1_0000 + y * 0x100 + z;
    assert n / 0x1_0000 == x * 0x100 + y;
    assert n / 0x100_0000 == x;
  }

  /** An accepted length field is the field of its value in the form it has. */
  lemma LengthReadBack(b: seq<Byte>)
    requires |b| >= 2 && LengthAt(b).Some?
    ensures var (n, pos) := LengthAt(b).value;
      && Carries(FormAt(b), n) && 2 <= pos <= |b| && pos <= 10
      && LengthBytes(FormAt(b), n) == [b[1] % 128] + b[2..pos]
  {
    if FormAt(b).Medium? {
      DigitsOf(0, 0, b[2] as nat, b[3] as nat);
    } else if FormAt(b).Long? {
      DigitsOf(b[6] as nat, b[7] as nat, b[8] as nat, b[9] as nat);
    }
  }

  /** A buffer put together from its first two bytes, the length field and the key. */
  lemma HeadSlices(b: seq<Byte>, pos: nat)
    requires 2 <= pos <= |b|
    ensures [b[0], b[1]] + b[2..pos] == b[..pos]
    ensures pos + 4 <= |b| ==> [b[0], b[1]] + b[2..pos] + b[pos..pos + 4] == b[..pos + 4]
  {
  }

  lemma HeaderReadBack(b: seq<Byte>)
    requires |b| >= 2 && LengthAt(b).Some? && (b[1] >= 128 ==> |b| >= LengthAt(b).value.1 + 4)
    ensures var (n, pos) := LengthAt(b).value; var start := pos + if b[1] >= 128 then 4 else 0;
      && Carries(FormAt(b), n) && 2 <= start <= |b|
      && Header(b[0], FormAt(b), n, MaskAt(b)) == b[..start]
  {
    hide LengthAt, FormAt, LengthBytes, Carries;
    LengthReadBack(b);
    var (n, pos) := LengthAt(b).value;
    HeadSlices(b, pos);
    var length := LengthBytes(FormAt(b), n);
    assert length[1..] == b[2..pos];
    if b[1] < 128 {
      assert [b[0]] + length == [b[0], b[1]] + b[2..pos];
    }
  }

  /** Whatever is accepted is a frame of section 5.2 carrying what is reported. */
  lemma DecodedIsWire(b: seq<Byte>)
    requires Decode(b).Some?
    ensures var m := Decode(b).value;
      && Carries(FormAt(b), |m.payload|) && m.size <= |b|
      && Wire(b[0], FormAt(b), m.payload, MaskAt(b)) == b[..m.size]
      && m == Message(m.payload, b[0] % 16, b[0] >= 128, m.size)
  {
    hide LengthAt, FormAt, Header, Masked, Carries;
    HeaderReadBack(b);
    var (n, pos) := LengthAt(b).value;
    var start := pos + if b[1] >= 128 then 4 else 0;
    MaskedTwice(b[start..start + n], MaskAt(b));
    if b[1] < 128 {
      NotMasked(b[start..start + n]);
    }
    assert b[..start] + b[start..start + n] == b[..start + n];
  }

  /** Exactly the frames are accepted: the extractor reports m on b if and only if b begins with a frame carrying m. */
  lemma Accepted(b: seq<Byte>, m: Message)
    ensures Decode(b) == Some(m) <==>
      exists first: Byte, form: Form, mask: Option<Mask> ::
        && Carries(form, |m.payload|) && Wire(first, form, m.payload, mask) <= b
        && m == Message(m.payload, first % 16, first >= 128, |Wire(first, form, m.payload, mask)|)
  {
    hide LengthAt, Wire, FormAt, Masked;
    if Decode(b) == Some(m) {
      DecodedIsWire(b);
      assert Wire(b[0], FormAt(b), m.payload, MaskAt(b)) <= b;
    }
    forall first: Byte, form: Form, mask: Option<Mask> |
      && Carries(form, |m.payload|) && Wire(first, form, m.payload, mask) <= b
      && m == Message(m.payload, first % 16, first >= 128, |Wire(first, form, m.payload, mask)|)
      ensures Decode(b) == Some(m)
    {
      var w := Wire(first, form, m.payload, mask);
      assert b == w + b[|w|..];
      WireDecodes(first, form, m.payload, mask, b[|w|..]);
    }
  }

  /** A success is unchanged by appending more bytes. */
  lemma Stable(b: seq<Byte>, more: seq<Byte>)
    requires Decode(b).Some?
    ensures Decode(b + more) == Decode(b)
  {
    hide LengthAt, Wire, FormAt, Masked;
    var m := Decode(b).value;
    DecodedIsWire(b);
    var w := b[..m.size];
    assert b + more == w + (b[m.size..] + more);
    WireDecodes(b[0], FormAt(b), m.payload, MaskAt(b), b[m.size..] + more);
  }

  // ----- builder and extractor -----

  /**
   Extracting what was built gives back payload, type and end flag, and the length of the frame, whatever follows:
   if and only if the payload is shorter than 2^31 bytes and the type is a four-bit opcode.
   */
  lemma RoundTrip(p: seq<Byte>, kind: Byte, fin: bool, mask: Option<Mask>, rest: seq<Byte>)
    ensures var f := Frame(p, kind, fin, mask);
      Decode(f + rest) == Some(Message(p, kind, fin, |f|)) <==> |p| < MAX_LENGTH && kind < 16
  {
    hide Decode, Wire, FormAt;
    var f := Frame(p, kind, fin, mask);
    if |p| < MAX_LENGTH {
      WireDecodes(First(kind, fin), Shortest(|p|), p, mask, rest);
    }
    if Decode(f + rest).Some? {
      DecodedIsWire(f + rest);
    }
  }

  /** No strict prefix of a built frame is accepted. */
  lemma PrefixRejected(p: seq<Byte>, kind: Byte, fin: bool, mask: Option<Mask>, n: nat)
    requires |p| < MAX_LENGTH && n < |Frame(p, kind, fin, mask)|
    ensures Decode(Frame(p, kind, fin, mask)[..n]).None?
  {
    hide Decode, Wire, FormAt;
    var f := Frame(p, kind, fin, mask);
    if Decode(f[..n]).Some? {
      Stable(f[..n], f[n..]);
      assert f[..n] + f[n..] == f && f + [] == f;
      WireDecodes(First(kind, fin), Shortest(|p|), p, mask, []);
      DecodedIsWire(f[..n]);
    }
  }

  // ----- streams of frames -----

  /** The messages at the head of a buffer and the bytes left over. */
  function DecodeAll(b: seq<Byte>): (seq<Message>, seq<Byte>)
    decreases |b|
  {
    if Decode(b).None? then ([], b)
    else
      var m := Decode(b).value;
      var (ms, rest) := DecodeAll(b[m.size..]);
      ([m] + ms, rest)
  }

  datatype Sent = Sent(payload: seq<Byte>, kind: Byte, fin: bool, mask: Option<Mask>)

  function FrameOf(s: Sent): seq<Byte> {
    Frame(s.payload, s.kind, s.fin, s.mask)
  }

  function Stream(ss: seq<Sent>): seq<Byte> {
    if ss == [] then [] else FrameOf(ss[0]) + Stream(ss[1..])
  }

  function Received(ss: seq<Sent>): seq<Message> {
    if ss == [] then []
    else [Message(ss[0].payload, ss[0].kind, ss[0].fin, |FrameOf(ss[0])|)] + Received(ss[1..])
  }

  predicate Sendable(ss: seq<Sent>) {
    forall i | 0 <= i < |ss| :: |ss[i].payload| < MAX_LENGTH && ss[i].kind < 16
  }

  /** Concatenated frames decode uniquely, up to an unfinished frame at the end. */
  lemma {:induction false} StreamDecodes(ss: seq<Sent>, last: Sent, n: nat)
    requires Sendable(ss + [last]) && n < |FrameOf(last)|
    ensures var tail := FrameOf(last)[..n];
      DecodeAll(Stream(ss) + tail) ==
        (Received(ss), tail)
  {
    hide Decode, Frame;
    assert (ss + [last])[|ss|] == last;
    var tail := FrameOf(last)[..n];
    if ss == [] {
      assert Stream(ss) + tail == tail;
      PrefixRejected(last.payload, last.kind, last.fin, last.mask, n);
    } else {
      var f := FrameOf(ss[0]);
      var rest := Stream(ss[1..]) + tail;
      assert (ss + [last])[0] == ss[0] && (ss + [last])[1..] == ss[1..] + [last];
      assert forall i | 0 <= i < |ss| :: (ss[1..] + [last])[i] == (ss + [last])[i + 1];
      RoundTrip(ss[0].payload, ss[0].kind, ss[0].fin, ss[0].mask, rest);
      assert Stream(ss) + tail == f + rest && (f + rest)[|f|..] == rest;
      StreamDecodes(ss[1..], last, n);
    }
  }

  // ----- the examples of section 5.7 -----

  const HELLO: seq<Byte> := [0x48, 0x65, 0x6C, 0x6C, 0x6F]

  lemma HelloFrames()
    ensures Frame(HELLO, 1, true, None) == [0x81, 0x05, 0x48, 0x65, 0x6C, 0x6C, 0x6F]
    ensures Frame(HELLO[..3], 1, false, None) == [0x01, 0x03, 0x48, 0x65, 0x6C]
    ensures Frame(HELLO[3..], 0, true, None) == [0x80, 0x02, 0x6C, 0x6F]
    ensures Frame(HELLO, 9, true, None) == [0x89, 0x05, 0x48, 0x65, 0x6C, 0x6C, 0x6F]
  {
  }

  lemma Quarters(a: nat)
    ensures a / 2 / 2 == a / 4 && a / 4 / 2 == a / 8 && a / 8 / 2 == a / 16
  {
  }

  lemma FourBits(a: nat, b: nat, n: nat)
    requires n >= 4
    ensures XorBits(a, b, n) ==
            16 * XorBits(a / 16, b / 16, n - 4) +
            8 * ((a / 8 + b / 8) % 2) + 4 * ((a / 4 + b / 4) % 2) + 2 * ((a / 2 + b / 2) % 2) + (a + b) % 2
  {
    hide XorBits;
    Quarters(a);
    Quarters(b);
    XorStep(a, b, n);
    XorStep(a / 2, b / 2, n - 1);
    XorStep(a / 4, b / 4, n - 2);
    XorStep(a / 8, b / 8, n - 3);
  }

  lemma NoBits(a: nat, b: nat)
    ensures XorBits(a, b, 0) == 0
  {
  }

  lemma HelloH()
    ensures XorBits(0x48, 0x37, 8) == 0x7F
  {
    hide XorBits, Power;
    NoBits(0, 0);
    FourBits(0x48, 0x37, 8);
    FourBits(0x4, 0x3, 4);
  }

  lemma HelloE()
    ensures XorBits(0x65, 0xFA, 8) == 0x9F
  {
    hide XorBits, Power;
    NoBits(0, 0);
    FourBits(0x65, 0xFA, 8);
    FourBits(0x6, 0xF, 4);
  }

  lemma HelloFirstL()
    ensures XorBits(0x6C, 0x21, 8) == 0x4D
  {
    hide XorBits, Power;
    NoBits(0, 0);
    FourBits(0x6C, 0x21, 8);
    FourBits(0x6, 0x2, 4);
  }

  lemma HelloSecondL()
    ensures XorBits(0x6C, 0x3D, 8) == 0x51
  {
    hide XorBits, Power;
    NoBits(0, 0);
    FourBits(0x6C, 0x3D, 8);
    FourBits(0x6, 0x3, 4);
  }

  lemma HelloO()
    ensures XorBits(0x6F, 0x37, 8) == 0x58
  {
    hide XorBits, Power;
    NoBits(0, 0);
    FourBits(0x6F, 0x37, 8);
    FourBits(0x6, 0x3, 4);
  }

  lemma HelloMasked()
    ensures Masked(HELLO, Some([0x37, 0xFA, 0x21, 0x3D])) == [0x7F, 0x9F, 0x4D, 0x51, 0x58]
  {
    hide XorBits;
    HelloH();
    HelloE();
    HelloFirstL();
    HelloSecondL();
    HelloO();
  }

  /** The masked text frame carries "Hello", and it is built from it. */
  lemma HelloFrame()
    ensures Frame(HELLO, 1, true, Some([0x37, 0xFA, 0x21, 0x3D])) ==
            [0x81, 0x85, 0x37, 0xFA, 0x21, 0x3D, 0x7F, 0x9F, 0x4D, 0x51, 0x58]
    ensures Decode([0x81, 0x85, 0x37, 0xFA, 0x21, 0x3D, 0x7F, 0x9F, 0x4D, 0x51, 0x58]) ==
            Some(Message(HELLO, 1, true, 11))
  {
    hide Masked, Decode;
    HelloMasked();
    var w := Frame(HELLO, 1, true, Some([0x37, 0xFA, 0x21, 0x3D]));
    WireDecodes(0x81, Short, HELLO, Some([0x37, 0xFA, 0x21, 0x3D]), []);
    assert w + [] == w;
  }

  /** 256 bytes and 64 KiB of binary data. */
  lemma LongHeaders(p: seq<Byte>)
    ensures |p| == 256 ==> Frame(p, 2, true, None) == [0x82, 0x7E, 0x01, 0x00] + p
    ensures |p| == 65536 ==>
      Frame(p, 2, true, None) == [0x82, 0x7F, 0x00, 0x00, 0x00, 0x00, 0x00, 0x01, 0x00, 0x00] + p
  {
  }
}
