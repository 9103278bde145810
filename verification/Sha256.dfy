/** Feeding a hash function in chunks: buffering, length counting and padding. Compression is a parameter. */
module Sha256 {
  import opened Words
  import opened Machine

  const TWO16: nat := 0x1_0000
  const TWO32: nat := 0x1_0000_0000
  const TWO48: nat := 0x1_0000_0000_0000
  const TWO64: nat := 0x1_0000_0000_0000_0000

  type Compress<!H> = (H, seq<Octet>) -> H

  /** All whole blocks of 64 bytes, one after the other. */
  function Absorb<H>(compress: Compress<H>, h: H, bytes: seq<Octet>): H
    decreases |bytes|
  {
    if |bytes| < 64 then h else Absorb(compress, compress(h, bytes[..64]), bytes[64..])
  }

  lemma {:induction false} AbsorbConcat<H>(compress: Compress<H>, h: H, a: seq<Octet>, b: seq<Octet>)
    requires |a| % 64 == 0
    ensures Absorb(compress, h, a + b) == Absorb(compress, Absorb(compress, h, a), b)
    decreases |a|
  {
    if a == [] {
      assert a + b == b;
    } else {
      assert (a + b)[..64] == a[..64] && (a + b)[64..] == a[64..] + b;
      AbsorbConcat(compress, compress(h, a[..64]), a[64..], b);
    }
  }

  lemma {:induction false} AbsorbBlock<H>(compress: Compress<H>, h: H, block: seq<Octet>)
    requires |block| == 64
    ensures Absorb(compress, h, block) == compress(h, block)
  {
    assert block[..64] == block;
  }

  // ----- padding (section 5.1.1 of FIPS 180-4) -----

  /** The number of zero bytes that leaves room for eight bytes of length. */
  function Filling(n: nat): (r: nat)
    ensures r < 64 && (n + 1 + r) % 64 == 56
  {
    (119 - n % 64) % 64
  }

  /** The message, a one bit, zeros, and the length in bits. */
  function Padded(message: seq<Octet>): seq<Octet> {
    message + [0x80] + Zeros(Filling(|message|)) + BytesOf(8 * |message| % TWO64, 8)
  }

  lemma {:induction false} PaddedIsWhole(message: seq<Octet>)
    ensures |Padded(message)| % 64 == 0
  {
    hide BytesOf, Filling;
    var n, f := |message|, Filling(|message|);
    assert |Padded(message)| == n + 1 + f + 8;
  }

  // ----- the length, in four digits of 16 bits -----

  predicate Digits(d: seq<nat>) { |d| == 4 && forall i :: 0 <= i < 4 ==> d[i] < TWO16 }

  function Number(d: seq<nat>): nat
    requires |d| == 4
  {
    d[0] + TWO16 * d[1] + TWO32 * d[2] + TWO48 * d[3]
  }

  function Place(i: nat): nat {
    if i == 0 then 1 else if i == 1 then TWO16 else if i == 2 then TWO32 else if i == 3 then TWO48 else TWO64
  }

  lemma {:induction false} NumberBelow(d: seq<nat>)
    requires Digits(d)
    ensures Number(d) < TWO64
  {
  }

  /** A carry moves from one digit to the next. */
  lemma {:induction false} CarryOn(d: seq<nat>, i: nat)
    requires |d| == 4 && i < 4
    ensures Number(d[i := d[i] % TWO16]) + Place(i + 1) * (d[i] / TWO16) == Number(d)
  {
  }

  lemma {:induction false} CarryIn(d: seq<nat>, i: nat, carry: nat)
    requires |d| == 4 && i < 4
    ensures Number(d[i := d[i] + carry]) == Number(d) + Place(i) * carry
  {
  }

  method AddToLength(digits: array<nat>, n: nat)
    requires digits.Length == 4 && Digits(digits[..]) && n <= TWO32 - TWO16
    modifies digits
    ensures Digits(digits[..]) && Number(digits[..]) == (Number(old(digits[..])) + n) % TWO64
  {
    hide Number, Place;
    ghost var total := Number(digits[..]) + n;
    ghost var d := digits[..];
    var carry: nat := 0;
    var i := 0;
    CarryIn(d, 0, n);
    assert Place(0) * n == n by { PlaceZero(); }
    digits[0] := digits[0] + n;
    d := d[0 := d[0] + n];
    while i < 4
      invariant 0 <= i <= 4 && digits[..] == d && |d| == 4 && (i == 0 ==> carry == 0)
      invariant Number(d) + Place(i) * carry == total
      invariant forall k :: 0 <= k < 4 && (k != i || i > 0) ==> d[k] < TWO16
    {
      CarryIn(d, i, carry);
      digits[i] := digits[i] + carry;
      d := d[i := d[i] + carry];
      if digits[i] >= TWO16 {
        CarryOn(d, i);
        carry := digits[i] / TWO16;
        digits[i] := digits[i] % TWO16;
        d := d[i := d[i] % TWO16];
      } else {
        NumberBelow(d);
        return;
      }
      i := i + 1;
    }
    NumberBelow(d);
    LastPlace(Number(d), carry);
  }

  lemma {:induction false} PlaceZero()
    ensures Place(0) == 1
  {
  }

  lemma {:induction false} LastPlace(low: nat, carry: nat)
    requires low < TWO64
    ensures (low + Place(4) * carry) % TWO64 == low
  {
  }

  /** Eight times the number, modulo 2^64, as digits. */
  method BitLength(digits: seq<nat>) returns (bits: seq<nat>)
    requires Digits(digits)
    ensures Digits(bits) && Number(bits) == 8 * Number(digits) % TWO64
  {
    bits := digits;
    var carry: nat := 0;
    var i := 0;
    while i < 4
      invariant 0 <= i <= 4 && Digits(bits) && carry < 8 && forall k :: i <= k < 4 ==> bits[k] == digits[k]
      invariant LowDigits(bits, i) + Place(i) * carry == 8 * LowDigits(digits, i)
    {
      var before := bits[i];
      DigitShifted(bits, digits, i, carry);
      bits := bits[i := (8 * before + carry) % TWO16];
      carry := before / 0x2000;
      i := i + 1;
    }
    LowDigitsAll(bits, digits, carry);
  }

  function LowDigits(d: seq<nat>, i: nat): nat
    requires |d| == 4 && i <= 4
  {
    if i == 0 then 0 else LowDigits(d, i - 1) + Place(i - 1) * d[i - 1]
  }

  lemma {:induction false} LowDigitsSame(a: seq<nat>, b: seq<nat>, i: nat)
    requires |a| == 4 == |b| && i <= 4 && forall k :: 0 <= k < i ==> a[k] == b[k]
    ensures LowDigits(a, i) == LowDigits(b, i)
  {
    if i > 0 { LowDigitsSame(a, b, i - 1); }
  }

  lemma {:induction false} DigitShifted(bits: seq<nat>, digits: seq<nat>, i: nat, carry: nat)
    requires i < 4 && Digits(bits) && Digits(digits) && bits[i] == digits[i] && carry < 8
    requires LowDigits(bits, i) + Place(i) * carry == 8 * LowDigits(digits, i)
    ensures var x := 8 * bits[i] + carry;
            LowDigits(bits[i := x % TWO16], i + 1) + Place(i + 1) * (bits[i] / 0x2000) == 8 * LowDigits(digits, i + 1)
    ensures bits[i] / 0x2000 < 8
  {
    var x := 8 * bits[i] + carry;
    var next := bits[i := x % TWO16];
    LowDigitsSame(bits, next, i);
    assert x / TWO16 == bits[i] / 0x2000;
    assert LowDigits(next, i + 1) == LowDigits(bits, i) + Place(i) * next[i];
    Split(i, x);
    assert Place(i) * x == 8 * (Place(i) * bits[i]) + Place(i) * carry by { Spread(Place(i), bits[i], carry); }
  }

  lemma {:induction false} Spread(p: nat, b: nat, c: nat)
    ensures p * (8 * b + c) == 8 * (p * b) + p * c
  {
  }

  lemma {:induction false} Split(i: nat, x: nat)
    requires i < 4
    ensures Place(i) * (x % TWO16) + Place(i + 1) * (x / TWO16) == Place(i) * x
  {
  }

  lemma {:induction false} LowDigitsAll(bits: seq<nat>, digits: seq<nat>, carry: nat)
    requires Digits(bits) && Digits(digits) && LowDigits(bits, 4) + Place(4) * carry == 8 * LowDigits(digits, 4)
    ensures Number(bits) == 8 * Number(digits) % TWO64
  {
    LowDigitsAreNumber(bits);
    LowDigitsAreNumber(digits);
    NumberBelow(bits);
    LastPlace(Number(bits), carry);
  }

  lemma {:induction false} LowDigitsAreNumber(d: seq<nat>)
    requires |d| == 4
    ensures LowDigits(d, 4) == Number(d)
  {
    assert LowDigits(d, 1) == d[0] && LowDigits(d, 2) == LowDigits(d, 1) + TWO16 * d[1] && LowDigits(d, 3) == LowDigits(d, 2) + TWO32 * d[2];
  }

  // ----- the hasher -----

  class Hasher<!H> {
    const compress: Compress<H>
    const start: H
    var buffer: seq<Octet>
    const digits: array<nat>
    var h: H
    ghost var fed: seq<Octet>
    ghost var done: seq<Octet>

    ghost predicate Valid()
      reads this, digits
    {
      && digits.Length == 4 && Digits(digits[..]) && Number(digits[..]) == |fed| % TWO64
      && |buffer| < 64 && |done| % 64 == 0 && fed == done + buffer && h == Absorb(compress, start, done)
    }

    constructor (compress: Compress<H>, start: H)
      ensures Valid() && fresh(digits) && fed == [] && this.compress == compress && this.start == start
    {
      this.compress, this.start, buffer, h, fed, done := compress, start, [], start, [], [];
      digits := new nat[4](_ => 0);
    }

    /** Feeds a chunk; however a message is cut into chunks, only their concatenation counts. */
    method Process(chunk: seq<Octet>)
      requires Valid() && |chunk| <= TWO32 - TWO16
      modifies this`buffer, this`h, this`fed, this`done, digits
      ensures Valid() && fed == old(fed) + chunk
    {
      hide Number, Absorb, BytesOf;
      AddToLength(digits, |chunk|);
      LengthAdded(|fed|, |chunk|);
      fed := fed + chunk;
      buffer := buffer + chunk;
      var i;
      h, i := AbsorbWhole(compress, h, buffer);
      AbsorbConcat(compress, start, done, buffer[..i]);
      assert buffer[..i] + buffer[i..] == buffer;
      assert fed == done + buffer[..i] + buffer[i..];
      WholeSum(|done|, i);
      done := done + buffer[..i];
      buffer := buffer[i..];
    }

    /** Pads the message and absorbs the rest. */
    method Finish()
      requires Valid()
      modifies this`h
      ensures h == Absorb(compress, start, Padded(fed))
    {
      hide Number, Absorb, BytesOf, Padded;
      h := Close(compress, h, buffer, digits[..], done);
      AbsorbConcat(compress, start, done, Padded(fed)[|done|..]);
      PaddedStarts(done, buffer);
    }
  }

  lemma {:induction false} PaddedStarts(done: seq<Octet>, buffer: seq<Octet>)
    ensures |Padded(done + buffer)| >= |done| && Padded(done + buffer) == done + Padded(done + buffer)[|done|..]
  {
    hide BytesOf, Filling;
  }

  /** Absorbs the whole blocks of the buffer. */
  method AbsorbWhole<H>(compress: Compress<H>, start: H, bytes: seq<Octet>) returns (h: H, i: nat)
    ensures i % 64 == 0 && i <= |bytes| < i + 64 && h == Absorb(compress, start, bytes[..i])
  {
    h, i := start, 0;
    assert Absorb(compress, start, bytes[..0]) == start;
    hide Absorb;
    while i + 64 <= |bytes|
      invariant 0 <= i <= |bytes| && i % 64 == 0 && h == Absorb(compress, start, bytes[..i])
    {
      var block := bytes[i..i + 64];
      AbsorbConcat(compress, start, bytes[..i], block);
      AbsorbBlock(compress, h, block);
      assert bytes[..i] + block == bytes[..i + 64];
      h := compress(h, block);
      i := i + 64;
    }
  }

  /** The last one or two blocks. */
  method Close<H>(compress: Compress<H>, start: H, buffer: seq<Octet>, digits: seq<nat>,
      ghost done: seq<Octet>) returns (h: H)
    requires |buffer| < 64 && |done| % 64 == 0 && Digits(digits) && Number(digits) == |done + buffer| % TWO64
    ensures |done| <= |Padded(done + buffer)| && h == Absorb(compress, start, Padded(done + buffer)[|done|..])
  {
    hide Number, Absorb, BytesOf, Padded, Digits;
    h := start;
    var temp := MarkEnd(buffer);
    ghost var first: seq<Octet> := [];
    if |buffer| > 55 {
      first := temp[..];
      AbsorbBlock(compress, h, temp[..]);
      h := compress(h, temp[..]);
      ClearStart(temp);
    }
    assert |buffer| <= 55 ==> temp[..56] == buffer + [0x80] + Zeros(55 - |buffer|);
    WriteBitLength(temp, digits, |done + buffer|);
    ghost var last := temp[..];
    AbsorbBlock(compress, h, last);
    h := compress(h, temp[..]);
    PaddedEnd(done, buffer, first, last);
    if first == [] {
      assert first + last == last;
    } else {
      AbsorbConcat(compress, start, first, last);
    }
    assert (done + (first + last))[|done|..] == first + last;
  }

  /** All but the last four bytes become zero. */
  method ClearStart(temp: array<Octet>)
    requires temp.Length == 64
    modifies temp
    ensures temp[..56] == Zeros(56)
  {
    var k := 0;
    while k < 60
      invariant 0 <= k <= 60 && forall i :: 0 <= i < k ==> temp[i] == 0
    {
      temp[k] := 0;
      k := k + 1;
    }
  }

  method MarkEnd(buffer: seq<Octet>) returns (temp: array<Octet>)
    requires |buffer| < 64
    ensures fresh(temp) && temp.Length == 64 && temp[..] == buffer + [0x80] + Zeros(63 - |buffer|)
  {
    temp := new Octet[64](_ => 0);
    var k := 0;
    while k < |buffer|
      invariant 0 <= k <= |buffer| && temp[..] == buffer[..k] + Zeros(64 - k)
    {
      temp[k] := buffer[k];
      k := k + 1;
    }
    temp[k] := 0x80;
  }

  /** The last eight bytes become the length in bits. */
  method WriteBitLength(temp: array<Octet>, digits: seq<nat>, ghost n: nat)
    requires temp.Length == 64 && Digits(digits) && Number(digits) == n % TWO64
    modifies temp
    ensures temp[..] == old(temp[..56]) + BytesOf(8 * n % TWO64, 8)
  {
    hide Number, BytesOf, DigitsWritten;
    var bits := BitLength(digits);
    EightTimes(n);
    DigitBytes(bits);
    NothingWritten(bits);
    var k := 0;
    while k < 4
      invariant 0 <= k <= 4
      invariant temp[..56] == old(temp[..56]) && temp[56..56 + 2 * k] == DigitsWritten(bits, k)
    {
      DigitWritten(bits, k);
      temp[56 + 2 * k] := bits[3 - k] / 256;
      temp[57 + 2 * k] := bits[3 - k] % 256;
      assert temp[56..58 + 2 * k] == temp[56..56 + 2 * k] + [temp[56 + 2 * k], temp[57 + 2 * k]];
      k := k + 1;
    }
    assert temp[..] == temp[..56] + temp[56..64];
  }

  lemma {:induction false} NothingWritten(bits: seq<nat>)
    requires Digits(bits)
    ensures DigitsWritten(bits, 0) == []
  {
  }

  lemma {:induction false} DigitWritten(bits: seq<nat>, k: nat)
    requires Digits(bits) && k < 4
    ensures bits[3 - k] / 256 < 256
    ensures DigitsWritten(bits, k + 1) == DigitsWritten(bits, k) + [bits[3 - k] / 256, bits[3 - k] % 256]
  {
  }

  /** The first k digits from the top, two bytes each. */
  function DigitsWritten(bits: seq<nat>, k: nat): (r: seq<Octet>)
    requires Digits(bits) && k <= 4
    ensures |r| == 2 * k
  {
    if k == 0 then [] else DigitsWritten(bits, k - 1) + [bits[4 - k] / 256, bits[4 - k] % 256]
  }

  lemma {:induction false} BytesOfTwo(v: nat, d: nat, n: nat)
    requires d < TWO16
    ensures BytesOf(TWO16 * v + d, n + 2) == BytesOf(v, n) + [d / 256, d % 256]
  {
    var x := TWO16 * v + d;
    assert x % 256 == d % 256 && x / 256 == 256 * v + d / 256;
    assert (256 * v + d / 256) % 256 == d / 256 && (256 * v + d / 256) / 256 == v;
    assert BytesOf(x, n + 2) == BytesOf(x / 256, n + 1) + [x % 256];
    assert BytesOf(x / 256, n + 1) == BytesOf(v, n) + [d / 256];
  }

  lemma {:induction false} DigitBytes(bits: seq<nat>)
    requires Digits(bits)
    ensures DigitsWritten(bits, 4) == BytesOf(Number(bits), 8)
  {
    hide BytesOf;
    var a := bits[3];
    var b := TWO16 * a + bits[2];
    var c := TWO16 * b + bits[1];
    BytesOfTwo(0, a, 0);
    BytesOfTwo(a, bits[2], 2);
    BytesOfTwo(b, bits[1], 4);
    BytesOfTwo(c, bits[0], 6);
    NoBytes(0);
    assert DigitsWritten(bits, 1) == [a / 256, a % 256];
    assert DigitsWritten(bits, 2) == BytesOf(b, 4);
    assert DigitsWritten(bits, 3) == BytesOf(c, 6);
  }

  lemma {:induction false} WholeSum(a: nat, b: nat)
    requires a % 64 == 0 && b % 64 == 0
    ensures (a + b) % 64 == 0
  {
  }

  lemma {:induction false} LengthAdded(a: nat, b: nat)
    ensures (a % TWO64 + b) % TWO64 == (a + b) % TWO64
  {
  }

  lemma {:induction false} EightTimes(n: nat)
    ensures 8 * (n % TWO64) % TWO64 == 8 * n % TWO64
  {
    var q, r := n / TWO64, n % TWO64;
    QuotientIs(8 * n, TWO64, 8 * q + 8 * r / TWO64, 8 * r % TWO64);
  }

  /** What is absorbed at the end is the end of the padded message. */
  lemma {:induction false} PaddedEnd(done: seq<Octet>, buffer: seq<Octet>, first: seq<Octet>, last: seq<Octet>)
    requires |done| % 64 == 0 && |buffer| < 64 && |last| == 64
    requires last[56..] == BytesOf(8 * |done + buffer| % TWO64, 8)
    requires if |buffer| > 55 then first == buffer + [0x80] + Zeros(63 - |buffer|) && last[..56] == Zeros(56)
             else first == [] && last[..56] == buffer + [0x80] + Zeros(55 - |buffer|)
    ensures Padded(done + buffer) == done + (first + last)
  {
    hide BytesOf, Filling;
    var n := |done + buffer|;
    FillingIs(|done|, |buffer|);
    assert last == last[..56] + last[56..];
    if |buffer| > 55 {
      assert Zeros(Filling(n)) == Zeros(63 - |buffer|) + Zeros(56);
    }
  }

  lemma {:induction false} FillingIs(whole: nat, rest: nat)
    requires whole % 64 == 0 && rest < 64
    ensures Filling(whole + rest) == if rest > 55 then 119 - rest else 55 - rest
  {
  }

  // ----- any split into chunks -----

  function Concatenated(chunks: seq<seq<Octet>>): seq<Octet>
    decreases |chunks|
  {
    if chunks == [] then [] else Concatenated(chunks[..|chunks| - 1]) + chunks[|chunks| - 1]
  }

  /** Hashing in chunks hashes the padded whole. */
  method Hash<H>(compress: Compress<H>, start: H, chunks: seq<seq<Octet>>) returns (h: H)
    requires forall i :: 0 <= i < |chunks| ==> |chunks[i]| <= TWO32 - TWO16
    ensures h == Absorb(compress, start, Padded(Concatenated(chunks)))
  {
    hide Absorb, Padded;
    var hasher := new Hasher(compress, start);
    for i := 0 to |chunks|
      invariant hasher.Valid() && fresh(hasher) && fresh(hasher.digits) && hasher.compress == compress
      invariant hasher.start == start
      invariant hasher.fed == Concatenated(chunks[..i])
    {
      hasher.Process(chunks[i]);
      assert chunks[..i + 1][..i] == chunks[..i];
    }
    assert chunks[..|chunks|] == chunks;
    hasher.Finish();
    h := hasher.h;
  }
}
