/**
 The CRC-8 of crc_util.c. The specification is the bit-serial register of the
 reflected polynomial 0x8C (x^8 + x^5 + x^4 + 1), fed with the bits of the
 buffer, each byte low bit first; the error-detection theorems are about that
 register, and the program's table of XOR constants is proved to compute it.
 */
module Crc8 {
  import opened Bytes

  const POLY: bv8 := 0x8C

  /** One bit into the register. */
  function Step(r: bv8, bit: bool): bv8 {
    if (r & 1 == 1) != bit then (r >> 1) ^ POLY else r >> 1
  }

  function Serial(r: bv8, bits: seq<bool>): bv8
    decreases |bits|
  {
    if bits == [] then r else Serial(Step(r, bits[0]), bits[1..])
  }

  /** The bits of a byte, low bit first. */
  function BitsOf(d: bv8): seq<bool> {
    seq(8, k requires 0 <= k < 8 => Has(d, Mask(k)))
  }

  /** The bits of a buffer in the order they enter the register. */
  function Bits(buf: seq<bv8>): (s: seq<bool>)
    ensures |s| == 8 * |buf|
  {
    if buf == [] then [] else BitsOf(buf[0]) + Bits(buf[1..])
  }

  function Crc(buf: seq<bv8>): bv8 {
    Serial(0, Bits(buf))
  }

  // ------------------------------------------------------------- refinement

  function Serial4(r: bv8, d: bv8): bv8 {
    Step(Step(Step(Step(r, d & 1 != 0), d & 2 != 0), d & 4 != 0), d & 8 != 0)
  }

  function Serial8(r: bv8, d: bv8): bv8 {
    Serial4(Serial4(r, d), d >> 4)
  }

  lemma {:induction false} SerialAppend(r: bv8, x: seq<bool>, y: seq<bool>)
    ensures Serial(r, x + y) == Serial(Serial(r, x), y)
    decreases |x|
  {
    if x == [] {
      assert x + y == y;
    } else {
      assert (x + y)[1..] == x[1..] + y;
      SerialAppend(Step(r, x[0]), x[1..], y);
    }
  }

  lemma {:induction false} SerialByte(r: bv8, d: bv8)
    ensures Serial(r, BitsOf(d)) == Serial8(r, d)
  {
    var s := BitsOf(d);
    SerialAppend(r, s[..4], s[4..]);
    assert s == s[..4] + s[4..];
    SerialFour(r, s[..4]);
    SerialFour(Serial(r, s[..4]), s[4..]);
  }

  lemma {:induction false} SerialFour(r: bv8, s: seq<bool>)
    requires |s| == 4
    ensures Serial(r, s) == Step(Step(Step(Step(r, s[0]), s[1]), s[2]), s[3])
  {
    var r1 := Step(r, s[0]);
    var r2 := Step(r1, s[1]);
    var r3 := Step(r2, s[2]);
    assert Serial(r, s) == Serial(r1, s[1..]);
    assert Serial(r1, s[1..]) == Serial(r2, s[1..][1..]);
    assert s[1..][1..] == s[2..];
    assert Serial(r2, s[2..]) == Serial(r3, s[2..][1..]);
    assert s[2..][1..] == [s[3]];
    assert Serial(r3, [s[3]]) == Serial(Step(r3, s[3]), []);
  }

  /** Feeding a byte is xoring it into the register and shifting eight times. */
  lemma SerialMix(r: bv8, d: bv8)
    ensures Serial8(r, d) == Serial8(d ^ r, 0)
  {
    LowMix(r, d);
    HighMix(Serial4(d ^ r, 0), d >> 4);
  }

  lemma LowMix(r: bv8, d: bv8)
    ensures Serial4(r, d) == Serial4(d ^ r, 0) ^ (d >> 4)
    ensures d >> 4 < 16
  {
  }

  lemma HighMix(r: bv8, e: bv8)
    requires e < 16
    ensures Serial4(r ^ e, e) == Serial4(r, 0)
  {
  }

  /** One byte into the checksum: one XOR constant for each bit of the byte
      xored with the register. */
  method ChecksumOfByte(crc: bv8, data: bv8) returns (r: bv8)
    ensures r == Serial(crc, BitsOf(data))
  {
    var i := data ^ crc;
    r := 0;
    if i & 1 != 0 { r := r ^ 0x5e; }
    if i & 2 != 0 { r := r ^ 0xbc; }
    if i & 4 != 0 { r := r ^ 0x61; }
    if i & 8 != 0 { r := r ^ 0xc2; }
    if i & 0x10 != 0 { r := r ^ 0x9d; }
    if i & 0x20 != 0 { r := r ^ 0x23; }
    if i & 0x40 != 0 { r := r ^ 0x46; }
    if i & 0x80 != 0 { r := r ^ 0x8c; }
    assert r == Serial8(data ^ crc, 0);
    SerialMix(crc, data);
    SerialByte(crc, data);
  }

  method ChecksumOfBuffer(buf: array<bv8>, length: nat) returns (crc: bv8)
    requires length <= buf.Length
    ensures crc == Crc(buf[..length])
  {
    crc := 0;
    for i := 0 to length
      invariant crc == Crc(buf[..i])
    {
      BitsAppend(buf[..i], buf[i]);
      SerialAppend(0, Bits(buf[..i]), BitsOf(buf[i]));
      assert buf[..i] + [buf[i]] == buf[..i + 1];
      crc := ChecksumOfByte(crc, buf[i]);
    }
  }

  lemma {:induction false} BitsAppend(buf: seq<bv8>, d: bv8)
    ensures Bits(buf + [d]) == Bits(buf) + BitsOf(d)
  {
    if buf == [] {
      assert buf + [d] == [d];
    } else {
      assert (buf + [d])[1..] == buf[1..] + [d];
      BitsAppend(buf[1..], d);
    }
  }

  // ------------------------------------------------------ residue, linearity

  lemma ByteResidue(r: bv8, d: bv8)
    ensures Serial8(r, d) == 0 <==> d == r
  {
  }

  /** A buffer followed by one byte checks to zero exactly when that byte is
      the checksum of the buffer. */
  lemma Residue(buf: seq<bv8>, d: bv8)
    ensures Crc(buf + [d]) == 0 <==> d == Crc(buf)
  {
    BitsAppend(buf, d);
    SerialAppend(0, Bits(buf), BitsOf(d));
    SerialByte(Crc(buf), d);
    ByteResidue(Crc(buf), d);
  }

  /** The bit positions at which two bit strings differ. */
  function Errors(x: seq<bool>, y: seq<bool>): (e: seq<bool>)
    requires |x| == |y|
    ensures |e| == |x|
  {
    seq(|x|, i requires 0 <= i < |x| => x[i] != y[i])
  }

  lemma StepXorSame(r: bv8, s: bv8)
    ensures IsXor(Step(r ^ s, false), Step(r, false), Step(s, false))
    ensures IsXor(Step(r ^ s, false), Step(r, true), Step(s, true))
  {
  }

  lemma StepXorFirst(r: bv8, s: bv8)
    ensures IsXor(Step(r ^ s, true), Step(r, true), Step(s, false))
  {
    hide Step;
    StepOne(r ^ s);
    StepOne(r);
    StepXorSame(r, s);
  }

  lemma StepXorSecond(r: bv8, s: bv8)
    ensures IsXor(Step(r ^ s, true), Step(r, false), Step(s, true))
  {
    hide Step;
    StepOne(r ^ s);
    StepOne(s);
    StepXorSame(r, s);
  }

  predicate IsXor(t: bv8, r: bv8, s: bv8) {
    t == r ^ s
  }

  lemma IsXorIff(t: bv8, r: bv8, s: bv8)
    ensures IsXor(t, r, s) <==> t == r ^ s
  {
  }

  /** One bit into each of three registers, the first taking a one where the bits of
      the other two differ. */
  lemma IsXorStep(t: bv8, r: bv8, s: bv8, a: bool, b: bool)
    requires IsXor(t, r, s)
    ensures IsXor(Step(t, a != b), Step(r, a), Step(s, b))
  {
    IsXorIff(t, r, s);
    hide Step, IsXor;
    StepXorSame(r, s);
    if a { StepXorFirst(r, s); } else { StepXorSecond(r, s); }
  }

  /** A relation of three registers that one bit into each of them keeps, the
      first taking a one where the bits of the other two differ. */
  ghost predicate StepKeeps(rel: (bv8, bv8, bv8) -> bool) {
    forall t, r, s, a, b :: rel(t, r, s) ==> rel(Step(t, a != b), Step(r, a), Step(s, b))
  }

  lemma {:induction false} SerialKeeps(rel: (bv8, bv8, bv8) -> bool, t: bv8, r: bv8, s: bv8, x: seq<bool>, y: seq<bool>)
    requires |x| == |y| && rel(t, r, s) && StepKeeps(rel)
    ensures rel(Serial(t, Errors(x, y)), Serial(r, x), Serial(s, y))
    decreases |x|
  {
    if x != [] {
      assert Errors(x, y)[1..] == Errors(x[1..], y[1..]);
      assert rel(Step(t, x[0] != y[0]), Step(r, x[0]), Step(s, y[0]));
      SerialKeeps(rel, Step(t, x[0] != y[0]), Step(r, x[0]), Step(s, y[0]), x[1..], y[1..]);
    }
  }

  lemma SerialLinear(r: bv8, s: bv8, x: seq<bool>, y: seq<bool>)
    requires |x| == |y|
    ensures Serial(r ^ s, Errors(x, y)) == Serial(r, x) ^ Serial(s, y)
  {
    hide Step, Serial, Errors, IsXor;
    forall t, u, v, a, b | IsXor(t, u, v)
      ensures IsXor(Step(t, a != b), Step(u, a), Step(v, b))
    {
      IsXorStep(t, u, v, a, b);
    }
    IsXorIff(r ^ s, r, s);
    SerialKeeps(IsXor, r ^ s, r, s, x, y);
    IsXorIff(Serial(r ^ s, Errors(x, y)), Serial(r, x), Serial(s, y));
  }

  function Xor(a: seq<bv8>, b: seq<bv8>): seq<bv8>
    requires |a| == |b|
  {
    seq(|a|, i requires 0 <= i < |a| => a[i] ^ b[i])
  }

  lemma HasXor(c: bv8, d: bv8, m: bv8)
    requires m == 1 || m == 2 || m == 4 || m == 8 || m == 16 || m == 32 || m == 64 || m == 128
    ensures Has(c ^ d, m) == (Has(c, m) != Has(d, m))
  {
  }

  lemma BitsOfXor(c: bv8, d: bv8)
    ensures BitsOf(c ^ d) == Errors(BitsOf(c), BitsOf(d))
  {
    forall k | 0 <= k < 8
      ensures BitsOf(c ^ d)[k] == Errors(BitsOf(c), BitsOf(d))[k]
    {
      HasXor(c, d, Mask(k));
    }
  }

  lemma ErrorsAppend(x1: seq<bool>, y1: seq<bool>, x2: seq<bool>, y2: seq<bool>)
    requires |x1| == |y1| && |x2| == |y2|
    ensures Errors(x1 + x2, y1 + y2) == Errors(x1, y1) + Errors(x2, y2)
  {
  }

  lemma {:induction false} BitsXor(a: seq<bv8>, b: seq<bv8>)
    requires |a| == |b|
    ensures Bits(Xor(a, b)) == Errors(Bits(a), Bits(b))
  {
    if a != [] {
      BitsOfXor(a[0], b[0]);
      assert Xor(a, b)[1..] == Xor(a[1..], b[1..]);
      ErrorsAppend(BitsOf(a[0]), BitsOf(b[0]), Bits(a[1..]), Bits(b[1..]));
      BitsXor(a[1..], b[1..]);
    }
  }

  lemma Linear(a: seq<bv8>, b: seq<bv8>)
    requires |a| == |b|
    ensures Crc(Xor(a, b)) == Crc(a) ^ Crc(b)
  {
    BitsXor(a, b);
    SerialLinear(0, 0, Bits(a), Bits(b));
  }

  /** Two buffers of one length have the same checksum exactly when their
      difference alone leaves the register at zero. */
  lemma SameCrc(a: seq<bv8>, b: seq<bv8>)
    requires |a| == |b|
    ensures Crc(a) == Crc(b) <==> Serial(0, Errors(Bits(a), Bits(b))) == 0
  {
    SerialLinear(0, 0, Bits(a), Bits(b));
    XorZero(Crc(a), Crc(b));
  }

  lemma XorZero(x: bv8, y: bv8)
    ensures x ^ y == 0 <==> x == y
  {
  }

  // -------------------------------------------------------- odd bit errors

  predicate OddOnes(bits: seq<bool>) {
    bits != [] && (bits[0] != OddOnes(bits[1..]))
  }

  predicate OddParity(r: bv8) {
    (((((((r & 1 != 0) != (r & 2 != 0)) != (r & 4 != 0)) != (r & 8 != 0))
       != (r & 16 != 0)) != (r & 32 != 0)) != (r & 64 != 0)) != (r & 128 != 0)
  }

  lemma StepParity(r: bv8, bit: bool)
    ensures OddParity(Step(r, bit)) == (OddParity(r) != bit)
  {
  }

  lemma {:induction false} SerialParity(r: bv8, bits: seq<bool>)
    ensures OddParity(Serial(r, bits)) == (OddParity(r) != OddOnes(bits))
    decreases |bits|
  {
    if bits != [] {
      StepParity(r, bits[0]);
      SerialParity(Step(r, bits[0]), bits[1..]);
    }
  }

  /** Flipping an odd number of bits always changes the checksum. */
  lemma DetectsOdd(a: seq<bv8>, b: seq<bv8>)
    requires |a| == |b| && OddOnes(Errors(Bits(a), Bits(b)))
    ensures Crc(a) != Crc(b)
  {
    SerialParity(0, Errors(Bits(a), Bits(b)));
    SameCrc(a, b);
  }

  // ----------------------------------------------------------------- bursts

  function Zeros(n: nat): (z: seq<bool>)
    ensures |z| == n && forall i :: 0 <= i < n ==> !z[i]
  {
    seq(n, i => false)
  }

  /** The register after n zero bits. */
  function Shift(r: bv8, n: nat): bv8
    decreases n
  {
    if n == 0 then r else Shift(Step(r, false), n - 1)
  }

  lemma {:induction false} SerialZeros(r: bv8, n: nat)
    ensures Serial(r, Zeros(n)) == Shift(r, n)
    decreases n
  {
    if n > 0 {
      assert Zeros(n)[1..] == Zeros(n - 1);
      SerialZeros(Step(r, false), n - 1);
    }
  }

  lemma StepInjective(r: bv8, s: bv8)
    ensures Step(r, false) == Step(s, false) <==> r == s
  {
  }

  lemma {:induction false} ShiftInjective(r: bv8, s: bv8, n: nat)
    ensures Shift(r, n) == Shift(s, n) <==> r == s
    decreases n
  {
    if n > 0 {
      StepInjective(r, s);
      ShiftInjective(Step(r, false), Step(s, false), n - 1);
    }
  }

  lemma {:induction false} ShiftZero(n: nat)
    ensures Shift(0, n) == 0
  {
    if n > 0 {
      assert Step(0, false) == 0;
      ShiftZero(n - 1);
    }
  }

  /** Zero bits before and after a pattern do not decide whether the register
      ends at zero. */
  lemma PaddingIsNeutral(before: nat, w: seq<bool>, after: nat)
    ensures Serial(0, Zeros(before) + w + Zeros(after)) == 0 <==> Serial(0, w) == 0
  {
    SerialAppend(0, Zeros(before) + w, Zeros(after));
    SerialAppend(0, Zeros(before), w);
    SerialZeros(0, before);
    ShiftZero(before);
    SerialZeros(Serial(0, w), after);
    ShiftZero(after);
    ShiftInjective(Serial(0, w), 0, after);
  }

  function ByteOf(w: seq<bool>): bv8
    requires |w| == 8
  {
    (if w[0] then 1 else 0) | (if w[1] then 2 else 0) | (if w[2] then 4 else 0) | (if w[3] then 8 else 0)
    | (if w[4] then 16 else 0) | (if w[5] then 32 else 0) | (if w[6] then 64 else 0) | (if w[7] then 128 else 0)
  }

  lemma BitsOfByteOf(w: seq<bool>)
    requires |w| == 8
    ensures BitsOf(ByteOf(w)) == w
  {
  }

  lemma ShortPattern(w: seq<bool>, i: nat)
    requires |w| <= 8 && i < |w| && w[i]
    ensures Serial(0, w) != 0
  {
    var full := w + Zeros(8 - |w|);
    assert full[i];
    assert full == Zeros(0) + w + Zeros(8 - |w|);
    PaddingIsNeutral(0, w, 8 - |w|);
    BitsOfByteOf(full);
    SerialByte(0, ByteOf(full));
    ByteResidue(0, ByteOf(full));
  }

  /** All differences lie in one window of eight bits, anywhere in the buffer. */
  predicate Burst(e: seq<bool>, p: nat) {
    forall i :: 0 <= i < |e| && e[i] ==> p <= i < p + 8
  }

  lemma DetectsBurst(a: seq<bv8>, b: seq<bv8>, p: nat, i: nat)
    requires |a| == |b|
    requires var e := Errors(Bits(a), Bits(b)); i < |e| && e[i] && Burst(e, p)
    ensures Crc(a) != Crc(b)
  {
    hide Crc, Bits, Errors, Serial;
    var e := Errors(Bits(a), Bits(b));
    var q := if p + 8 <= |e| then p + 8 else |e|;
    assert e == Zeros(p) + e[p..q] + Zeros(|e| - q);
    PaddingIsNeutral(p, e[p..q], |e| - q);
    assert e[p..q][i - p];
    ShortPattern(e[p..q], i - p);
    SameCrc(a, b);
  }

  // --------------------------------------------------------------- two bits

  /** Exactly the bits at i and i + d differ. */
  predicate TwoErrors(e: seq<bool>, i: nat, d: nat)
    requires d >= 1 && i + d < |e|
  {
    forall k :: 0 <= k < |e| ==> e[k] == (k == i || k == i + d)
  }

  lemma {:induction false} ShiftAdd(r: bv8, m: nat, n: nat)
    ensures Shift(r, m + n) == Shift(Shift(r, m), n)
    decreases m
  {
    if m > 0 {
      ShiftAdd(Step(r, false), m - 1, n);
    }
  }

  lemma StepOne(r: bv8)
    ensures Step(r, true) == Step(r, false) ^ POLY
  {
  }

  /** The two-bit pattern leaves zero exactly when d zero bits lead the
      register from POLY back to POLY. */
  lemma TwoPattern(d: nat)
    requires d >= 1
    ensures Serial(0, [true] + Zeros(d - 1) + [true]) == 0 <==> Shift(POLY, d) == POLY
  {
    SerialAppend(0, [true] + Zeros(d - 1), [true]);
    SerialAppend(0, [true], Zeros(d - 1));
    assert Serial(0, [true]) == Serial(Step(0, true), []) == POLY;
    SerialZeros(POLY, d - 1);
    var r := Shift(POLY, d - 1);
    assert Serial(r, [true]) == Serial(Step(r, true), []) == Step(r, true);
    StepOne(r);
    ShiftAdd(POLY, d - 1, 1);
    assert Shift(r, 1) == Shift(Step(r, false), 0);
    XorZero(Step(r, false), POLY);
  }

  predicate Period(n: nat) {
    Shift(POLY, n) == POLY
  }

  lemma PeriodMinus(m: nat, n: nat)
    requires Period(m) && m <= n
    ensures Period(n - m) <==> Period(n)
  {
    ShiftAdd(POLY, m, n - m);
  }

  function Gcd(m: nat, n: nat): (g: nat)
    requires m >= 1 && n >= 1
    ensures 1 <= g <= m && g <= n
    decreases m + n
  {
    if m == n then m else if m < n then Gcd(m, n - m) else Gcd(m - n, n)
  }

  lemma {:induction false} GcdIsPeriod(m: nat, n: nat)
    requires m >= 1 && n >= 1 && Period(m) && Period(n)
    ensures Period(Gcd(m, n))
    decreases m + n
  {
    if m < n {
      PeriodMinus(m, n);
      GcdIsPeriod(m, n - m);
    } else if n < m {
      PeriodMinus(n, m);
      GcdIsPeriod(m - n, n);
    }
  }

  lemma {:induction false} GcdDivides(m: nat, n: nat) returns (p: nat, q: nat)
    requires m >= 1 && n >= 1
    ensures m == p * Gcd(m, n) && n == q * Gcd(m, n)
    decreases m + n
  {
    if m == n {
      p, q := 1, 1;
    } else if m < n {
      p, q := GcdDivides(m, n - m);
      Distribute(p, q, Gcd(m, n));
      q := p + q;
    } else {
      p, q := GcdDivides(m - n, n);
      Distribute(p, q, Gcd(m, n));
      p := p + q;
    }
  }

  lemma Distribute(p: nat, q: nat, g: nat)
    ensures (p + q) * g == p * g + q * g
  {
  }

  /** 127 is prime: one of two factors is below 12, and none of these divides it. */
  lemma NoFactor(g: nat, q: nat)
    requires 2 <= g < 12
    ensures q * g != 127
  {
    if g == 2 || g == 3 || g == 4 || g == 5 || g == 6 {
    } else if g == 7 || g == 8 || g == 9 || g == 10 || g == 11 {
    }
  }

  lemma PrimeOrder(g: nat, q: nat)
    requires 2 <= g < 127
    ensures q * g != 127
  {
    if g < 12 {
      NoFactor(g, q);
    } else if 2 <= q < 12 {
      NoFactor(q, g);
    } else if q >= 12 {
      MulMono(12, q, g);
    }
  }

  lemma MulMono(p: nat, q: nat, g: nat)
    requires p <= q
    ensures p * g <= q * g
  {
  }

  function Shift8(r: bv8): bv8 {
    Step(Step(Step(Step(Step(Step(Step(Step(r, false), false), false), false), false), false), false), false)
  }

  lemma {:induction false} ShiftEight(r: bv8, n: nat)
    ensures Shift(r, n + 8) == Shift8(Shift(r, n))
  {
    ShiftAdd(r, n, 8);
    var s := Shift(r, n);
    SerialZeros(s, 8);
    assert BitsOf(0) == Zeros(8);
    SerialByte(s, 0);
  }

  /** 127 zero bits lead the register around. */
  lemma FullPeriod()
    ensures Period(127)
  {
    ShiftEight(POLY, 0);
    assert Shift(POLY, 8) == 0x2f;
    ShiftEight(POLY, 8);
    assert Shift(POLY, 16) == 0x62;
    ShiftEight(POLY, 16);
    assert Shift(POLY, 24) == 0xd9;
    ShiftEight(POLY, 24);
    assert Shift(POLY, 32) == 0xcb;
    ShiftEight(POLY, 32);
    assert Shift(POLY, 40) == 0xea;
    ShiftEight(POLY, 40);
    assert Shift(POLY, 48) == 0x97;
    ShiftEight(POLY, 48);
    assert Shift(POLY, 56) == 0x92;
    ShiftEight(POLY, 56);
    assert Shift(POLY, 64) == 0xad;
    ShiftEight(POLY, 64);
    assert Shift(POLY, 72) == 0x52;
    ShiftEight(POLY, 72);
    assert Shift(POLY, 80) == 0x67;
    ShiftEight(POLY, 80);
    assert Shift(POLY, 88) == 0xe6;
    ShiftEight(POLY, 88);
    assert Shift(POLY, 96) == 0x34;
    ShiftEight(POLY, 96);
    assert Shift(POLY, 104) == 0xdf;
    ShiftEight(POLY, 104);
    assert Shift(POLY, 112) == 0x16;
    ShiftEight(POLY, 112);
    assert Shift(POLY, 120) == 0x40;
    ShiftEight(POLY, 120);
    assert Shift(POLY, 128) == 0x46;
    ShiftAdd(POLY, 127, 1);
    var r := Shift(POLY, 127);
    assert Shift(r, 1) == Shift(Step(r, false), 0);
    StepInjective(r, POLY);
  }

  lemma {:induction false} MultipleIsPeriod(k: nat)
    ensures Period(127 * k)
  {
    if k > 0 {
      FullPeriod();
      MultipleIsPeriod(k - 1);
      PeriodMinus(127, 127 * k);
    }
  }

  /** 127 is prime, so a shorter period would make one step a period. */
  lemma NoShortPeriod(r: nat)
    requires 1 <= r < 127
    ensures !Period(r)
  {
    FullPeriod();
    var g := Gcd(r, 127);
    var _, q := GcdDivides(r, 127);
    if g >= 2 {
      PrimeOrder(g, q);
    }
    assert Shift(POLY, 1) == Shift(Step(POLY, false), 0);
    if Period(r) {
      GcdIsPeriod(r, 127);
    }
  }

  lemma PeriodIff(d: nat)
    ensures Period(d) <==> d % 127 == 0
  {
    MultipleIsPeriod(d / 127);
    var r := d % 127;
    PeriodMinus(127 * (d / 127), d);
    if r > 0 {
      NoShortPeriod(r);
    }
  }

  /** From the first flipped bit to the last. */
  lemma TwoWindow(e: seq<bool>, i: nat, d: nat)
    requires d >= 1 && i + d < |e| && TwoErrors(e, i, d)
    ensures e == Zeros(i) + ([true] + Zeros(d - 1) + [true]) + Zeros(|e| - i - d - 1)
  {
    var w := [true] + Zeros(d - 1) + [true];
    var t := Zeros(i) + w + Zeros(|e| - i - d - 1);
    forall k | 0 <= k < |e|
      ensures e[k] == t[k]
    {
    }
  }

  /** Two flipped bits escape exactly when they are a multiple of 127 bits
      apart; closer than that they are always seen. */
  lemma DetectsTwo(a: seq<bv8>, b: seq<bv8>, i: nat, d: nat)
    requires |a| == |b| && d >= 1 && i + d < 8 * |a|
    requires TwoErrors(Errors(Bits(a), Bits(b)), i, d)
    ensures Crc(a) != Crc(b) <==> d % 127 != 0
  {
    hide Crc, Bits, Errors, Serial, TwoErrors, Zeros;
    var e := Errors(Bits(a), Bits(b));
    TwoWindow(e, i, d);
    PaddingIsNeutral(i, [true] + Zeros(d - 1) + [true], |e| - i - d - 1);
    TwoPattern(d);
    PeriodIff(d);
    SameCrc(a, b);
  }
}
