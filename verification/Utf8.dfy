/** Validation of UTF-8, and the encoding of escaped code points. */
module Utf8 {
  import opened Machine

  predicate IsTail(b: Octet) { 0x80 <= b <= 0xbf }

  /** The well-formed sequences of section 4 of RFC 3629, as a prefix of the input: their length, or zero. */
  function SequenceLength(s: seq<Octet>): (r: nat)
    ensures r <= |s|
  {
    if |s| >= 1 && s[0] <= 0x7f then 1
    else if |s| >= 2 && 0xc2 <= s[0] <= 0xdf && IsTail(s[1]) then 2
    else if |s| >= 3 && IsTail(s[2]) &&
            ((s[0] == 0xe0 && 0xa0 <= s[1] <= 0xbf) || (0xe1 <= s[0] <= 0xec && IsTail(s[1])) ||
             (s[0] == 0xed && 0x80 <= s[1] <= 0x9f) || (0xee <= s[0] <= 0xef && IsTail(s[1]))) then 3
    else if |s| >= 4 && IsTail(s[2]) && IsTail(s[3]) &&
            ((s[0] == 0xf0 && 0x90 <= s[1] <= 0xbf) || (0xf1 <= s[0] <= 0xf3 && IsTail(s[1])) ||
             (s[0] == 0xf4 && 0x80 <= s[1] <= 0x8f)) then 4
    else 0
  }

  /** The whole input splits into well-formed sequences. */
  predicate WellFormed(s: seq<Octet>)
    decreases |s|
  {
    s == [] || (SequenceLength(s) > 0 && WellFormed(s[SequenceLength(s)..]))
  }

  /** A well-formed sequence can be split off at the front in one way only. */
  lemma {:induction false} WellFormedConcat(a: seq<Octet>, b: seq<Octet>)
    requires WellFormed(a)
    ensures WellFormed(a + b) == WellFormed(b)
    decreases |a|
  {
    if a == [] {
      assert a + b == b;
    } else {
      hide SequenceLength;
      var n := SequenceLength(a);
      SameLength(a, b);
      WellFormedConcat(a[n..], b);
      assert (a + b)[n..] == a[n..] + b;
    }
  }

  lemma {:induction false} SameLength(a: seq<Octet>, b: seq<Octet>)
    requires SequenceLength(a) > 0
    ensures SequenceLength(a + b) == SequenceLength(a)
  {
  }

  // ----- validation -----

  /** The second byte is possible after the first one. */
  predicate SecondByteFits(first: Octet, second: Octet) {
    if first == 0xc0 || first == 0xc1 then false
    else if 0xc2 <= first <= 0xdf then true
    else if first == 0xe0 then second >= 0xa0
    else if 0xe1 <= first <= 0xec then true
    else if first == 0xed then second <= 0x9f
    else if first == 0xee || first == 0xef then true
    else if first == 0xf0 then second >= 0x90
    else if 0xf1 <= first <= 0xf3 then true
    else if first == 0xf4 then second <= 0x8f
    else false
  }

  function FollowingBytes(b: Octet): nat {
    if 0xc0 <= b <= 0xdf then 1 else if 0xe0 <= b <= 0xef then 2 else if 0xf0 <= b <= 0xf7 then 3 else 0
  }

  /** The first j following bytes are as they should be. */
  predicate Continues(s: seq<Octet>, start: nat, j: nat)
    requires start + j < |s|
  {
    && (forall m :: start < m <= start + j ==> IsTail(s[m]))
    && (j > 0 ==> SecondByteFits(s[start], s[start + 1]))
  }

  lemma {:induction false} SequenceAt(s: seq<Octet>, start: nat)
    requires start < |s| && s[start] >= 0x80
    ensures var count := FollowingBytes(s[start]);
            SequenceLength(s[start..]) == if count > 0 && start + count < |s| && Continues(s, start, count) then count + 1 else 0
  {
    var count, t := FollowingBytes(s[start]), s[start..];
    assert forall m :: 0 <= m < |t| ==> t[m] == s[start + m];
    if count > 0 && start + count < |s| {
      assert Continues(s, start, count) ==> IsTail(t[1]);
      if count >= 2 { assert Continues(s, start, count) ==> IsTail(t[2]); }
      if count >= 3 { assert Continues(s, start, count) ==> IsTail(t[3]); }
      if SequenceLength(t) > 0 {
        forall m | start < m <= start + count ensures IsTail(s[m]) { assert IsTail(t[m - start]); }
      }
    }
  }

  /** True exactly for well-formed input, although the scan goes on after an inner failure. */
  method ValidateUTF8(input: seq<Octet>) returns (valid: bool, invalidPosition: nat)
    ensures valid <==> WellFormed(input)
  {
    hide WellFormed, SequenceLength, FollowingBytes, Continues;
    valid := true;
    var i := 0;
    assert input[0..] == input;
    while i < |input|
      invariant 0 <= i <= |input|
      invariant WellFormed(input) <==> valid && WellFormed(input[i..])
      invariant !valid ==> !WellFormed(input)
    {
      NextSequence(input, i);
      if input[i] >= 0x80 {
        var count := FollowingBytes(input[i]);
        if count == 0 || i + count >= |input| {
          valid := false;
          break;
        }
        SequenceAt(input, i);
        var start, j, ok := i, 0, true;
        NothingContinues(input, start);
        while j < count && ok
          invariant 0 <= j <= count && i == start + j && start + count < |input|
          invariant ok ==> Continues(input, start, j)
          invariant !ok ==> !Continues(input, start, count)
          decreases count - j, ok
        {
          NextContinues(input, start, j, count);
          i := i + 1;
          if !IsTail(input[i]) || (j == 0 && !SecondByteFits(input[i - 1], input[i])) { ok := false; }
          j := j + 1;
        }
        if !ok { valid := false; }
      }
      i := i + 1;
    }
    EmptyWellFormed(input[|input|..]);
    invalidPosition := i;
  }

  lemma {:induction false} EmptyWellFormed(s: seq<Octet>)
    requires s == []
    ensures WellFormed(s)
  {
  }

  lemma {:induction false} NothingContinues(s: seq<Octet>, start: nat)
    requires start < |s|
    ensures Continues(s, start, 0)
  {
  }

  lemma {:induction false} NextContinues(s: seq<Octet>, start: nat, j: nat, count: nat)
    requires j < count && start + count < |s|
    ensures Continues(s, start, j + 1) <==> Continues(s, start, j) && IsTail(s[start + 1 + j]) && (j == 0 ==> SecondByteFits(s[start], s[start + 1]))
    ensures Continues(s, start, count) ==> Continues(s, start, j + 1)
  {
  }

  lemma {:induction false} NextSequence(s: seq<Octet>, i: nat)
    requires i < |s|
    ensures var n := SequenceLength(s[i..]);
            WellFormed(s[i..]) <==> n > 0 && i + n <= |s| && WellFormed(s[i + n..])
    ensures s[i] < 0x80 ==> SequenceLength(s[i..]) == 1
    ensures FollowingBytes(s[i]) == 0 && s[i] >= 0x80 ==> SequenceLength(s[i..]) == 0
    ensures s[i] >= 0x80 && i + FollowingBytes(s[i]) >= |s| ==> SequenceLength(s[i..]) == 0
  {
    var n, t := SequenceLength(s[i..]), s[i..];
    if n > 0 { assert t[n..] == s[i + n..]; }
  }

  // ----- escaped code points -----

  /** The bytes that the scanner adds for an escaped code point below 2^16. */
  function EncodeCodePoint(c: nat): (r: seq<Octet>)
    requires c <= 0xffff
    ensures 1 <= |r| <= 3
  {
    if c <= 0x7f then [c]
    else if c <= 0x7ff then [0xc0 + c / 64, 0x80 + c % 64]
    else [0xe0 + c / 4096, 0x80 + c / 64 % 64, 0x80 + c % 64]
  }

  /** The code point that a sequence of up to three bytes stands for. */
  function DecodeSequence(s: seq<Octet>): nat
    requires 1 <= |s| <= 3
  {
    if |s| == 1 then s[0]
    else if |s| == 2 then (s[0] as int) % 32 * 64 + (s[1] as int) % 64
    else (s[0] as int) % 16 * 4096 + (s[1] as int) % 64 * 64 + (s[2] as int) % 64
  }

  predicate IsSurrogate(c: nat) { 0xd800 <= c <= 0xdfff }

  lemma {:induction false} DecodesBack(c: nat)
    requires c <= 0xffff
    ensures DecodeSequence(EncodeCodePoint(c)) == c
  {
    if c > 0x7ff {
      var a, b, d := c / 4096, c / 64 % 64, c % 64;
      assert c == 4096 * a + 64 * b + d;
      assert (0xe0 + a) % 16 == a && (0x80 + b) % 64 == b && (0x80 + d) % 64 == d;
    } else if c > 0x7f {
      assert (0xc0 + c / 64) % 32 == c / 64 && (0x80 + c % 64) % 64 == c % 64;
    }
  }

  lemma {:induction false} SurrogateBytes(c: nat)
    requires 0x800 <= c <= 0xffff
    ensures IsSurrogate(c) <==> c / 4096 == 0xd && c / 64 % 64 >= 32
    ensures c / 4096 == 0 ==> c / 64 % 64 >= 32
  {
    var a, b := c / 4096, c / 64 % 64;
    assert c / 64 == 64 * a + b;
  }

  /** Every code point decodes back, and its bytes are valid exactly if it is no surrogate. */
  lemma {:induction false} CodePointRoundTrip(c: nat)
    requires c <= 0xffff
    ensures DecodeSequence(EncodeCodePoint(c)) == c
    ensures WellFormed(EncodeCodePoint(c)) <==> !IsSurrogate(c)
  {
    hide DecodeSequence, WellFormed;
    DecodesBack(c);
    var s := EncodeCodePoint(c);
    EmptyWellFormed(s[|s|..]);
    if c > 0x7ff { SurrogateBytes(c); }
    NextSequence(s, 0);
    assert s[0..] == s;
    assert SequenceLength(s) == if IsSurrogate(c) then 0 else |s|;
  }
}
