/** Bytecode: what the assembler writes and what the decoder reads. */
module Encoding {
  import opened Words
  import opened Instructions
  import opened Items
  import opened Machine
  import opened TagData

  // ----- decoding -----

  datatype Instr = Instr(op: Opcode, operand: nat)

  function Additional(op: Opcode): (r: nat)
    ensures r <= 32
  {
    InfoOf(op).additional
  }

  /** Instructions with their operands; an operand cut off by the end is padded with zeros on the right. */
  function Decode(mem: seq<Octet>): seq<Instr>
    decreases |mem|
  {
    if mem == [] then []
    else
      var n := Additional(mem[0]);
      var m := if n < |mem| then n else |mem| - 1;
      [Instr(mem[0], FromBytes(mem[1..1 + m]) * Pow2(8 * (n - m)))] + Decode(mem[1 + m..])
  }

  /** Where a jump may land (section 9.4.3 of the Ethereum Yellow Paper): at a JUMPDEST that is
      reached from position i by stepping over whole instructions. */
  predicate IsJumpDest(mem: seq<Octet>, i: nat, p: nat)
    decreases |mem| - i
  {
    i < |mem| && ((mem[i] == JUMPDEST && p == i) || IsJumpDest(mem, i + 1 + Additional(mem[i]), p))
  }

  lemma {:induction false} FromBytesSnoc(bytes: seq<Octet>, b: Octet)
    ensures FromBytes(bytes + [b]) == 256 * FromBytes(bytes) + b
  {
    assert (bytes + [b])[..|bytes|] == bytes;
  }

  lemma {:induction false} ScaledBound(a: nat, m: nat, n: nat)
    requires a < Pow2(8 * m) && m <= n
    ensures a * Pow2(8 * (n - m)) < Pow2(8 * n)
  {
    hide Pow2;
    Pow2Sum(8 * m, 8 * (n - m));
    assert 8 * m + 8 * (n - m) == 8 * n;
    ProductBelow(a, Pow2(8 * m), Pow2(8 * (n - m)));
  }

  lemma {:induction false} ProductBelow(a: nat, p: nat, q: nat)
    requires a < p && q > 0
    ensures a * q < p * q
  {
    assert (p - a) * q > 0;
  }

  lemma {:induction false} DataFits(bytes: seq<Octet>, n: nat)
    requires |bytes| <= n <= 32
    ensures FromBytes(bytes) * Pow2(8 * (n - |bytes|)) < MODULUS && FromBytes(bytes) < MODULUS
  {
    BytesBound(bytes);
    ScaledBound(FromBytes(bytes), |bytes|, n);
    Pow2Monotone(8 * n, 256);
    Pow2Monotone(8 * |bytes|, 256);
    Pow2At256();
  }

  /** A 256-bit register shifted left by one byte, with a byte put in. */
  function ShiftIn(data: Word, b: Octet): (r: Word)
    ensures 256 * data + b < MODULUS ==> r == 256 * data + b
  {
    (256 * data) % MODULUS + b
  }

  function ShiftBytes(data: Word, n: nat): (r: Word)
    ensures data * Pow2(8 * n) < MODULUS ==> r == data * Pow2(8 * n)
  {
    (data * Pow2(8 * n)) % MODULUS
  }

  /** The operand bytes of one instruction, read into a 256-bit word. */
  method ReadOperand(mem: seq<Octet>, start: nat, additional: nat) returns (data: Word, next: nat)
    requires start <= |mem| && additional <= 32
    ensures var m := if additional <= |mem| - start then additional else |mem| - start;
            next == start + m && data == FromBytes(mem[start..start + m]) * Pow2(8 * (additional - m))
  {
    data, next := 0, start;
    var left := additional;
    assert FromBytes(mem[start..start]) == 0;
    hide FromBytes, Pow2, ShiftIn, ShiftBytes;
    while left > 0 && next < |mem|
      invariant start <= next <= |mem| && left >= 0 && left + (next - start) == additional
      invariant data == FromBytes(mem[start..next])
    {
      ByteIn(mem, start, next);
      data := ShiftIn(data, mem[next]);
      next, left := next + 1, left - 1;
    }
    DataFits(mem[start..next], additional);
    data := ShiftBytes(data, left);
  }

  lemma {:induction false} ByteIn(mem: seq<Octet>, start: nat, next: nat)
    requires start <= next < |mem| && next - start < 32
    ensures FromBytes(mem[start..next + 1]) == 256 * FromBytes(mem[start..next]) + mem[next] < MODULUS
  {
    hide FromBytes, Pow2;
    FromBytesSnoc(mem[start..next], mem[next]);
    assert mem[start..next] + [mem[next]] == mem[start..next + 1];
    DataFits(mem[start..next + 1], 32);
  }

  method EachInstruction(mem: seq<Octet>) returns (r: seq<Instr>)
    ensures r == Decode(mem)
  {
    hide Decode, FromBytes, Pow2, Additional;
    r := [];
    var it := 0;
    assert mem[0..] == mem;
    while it < |mem|
      invariant 0 <= it <= |mem| && r + Decode(mem[it..]) == Decode(mem)
    {
      var op := mem[it];
      var data, next := ReadOperand(mem, it + 1, Additional(op));
      DecodeNext(mem, it, next);
      r := r + [Instr(op, data)];
      it := next;
    }
    DecodeNothing(mem[it..]);
  }

  lemma {:induction false} DecodeNothing(mem: seq<Octet>)
    requires mem == []
    ensures Decode(mem) == []
  {
  }

  lemma {:induction false} DecodeNext(mem: seq<Octet>, it: nat, next: nat)
    requires it < |mem|
    requires var n := Additional(mem[it]);
             var m := if n <= |mem| - (it + 1) then n else |mem| - (it + 1);
             next == it + 1 + m
    ensures var n := Additional(mem[it]);
            Decode(mem[it..]) == [Instr(mem[it], FromBytes(mem[it + 1..next]) * Pow2(8 * (n - (next - it - 1))))] + Decode(mem[next..])
  {
    hide FromBytes, Pow2, Additional;
    var rest := mem[it..];
    var m := next - it - 1;
    assert rest[1..1 + m] == mem[it + 1..next] && rest[1 + m..] == mem[next..];
  }

  // ----- encoding -----

  /** A finished sub-assembly: its bytecode and where its tags ended up. */
  datatype Sub = Sub(bytecode: seq<Octet>, positions: seq<Option<nat>>)

  /** An assembly with its data; strings, data and libraries go by their hashes. */
  datatype Input = Input(items: seq<Item>, usedTags: nat, strings: map<Word, seq<Octet>>, data: seq<(Word, seq<Octet>)>,
                         subs: seq<Sub>, auxiliary: seq<Octet>, libraries: set<Word>)

  /** Bytes per tag reference, and per reference to data, sub-assemblies or the program size. */
  datatype Widths = Widths(tag: nat, data: nat)

  function SizeOfSub(x: Input, i: nat): nat { if i < |x.subs| then |x.subs[i].bytecode| else 0 }

  function AtLeastOne(n: nat): nat { if n == 0 then 1 else n }

  /** The number of operand bytes written for an item. */
  function OperandWidth(x: Input, w: Widths, item: Item): nat {
    match item
    case Undefined(_) => 0
    case Operation(_) => 0
    case Data(kind, data) =>
      match kind
      case Tag => 0
      case PushString => 32
      case Push => AtLeastOne(BytesRequired(data))
      case PushSubSize => AtLeastOne(BytesRequired(SizeOfSub(x, Cut(data))))
      case PushTag => w.tag
      case PushData => w.data
      case PushSub => w.data
      case PushProgramSize => w.data
      case PushLibraryAddress => 20
      case PushDeployTimeAddress => 20
  }

  /** The byte that starts an item: the opcode, or the push with the right number of operand bytes. */
  function Head(item: Item, width: nat): Octet {
    if item.Operation? then item.op else if IsTag(item) then JUMPDEST else (PUSH1 - 1 + width) % 256
  }

  function Encode(item: Item, width: nat, value: nat): (r: seq<Octet>)
    ensures |r| == 1 + width
  {
    [Head(item, width)] + BytesOf(value, width)
  }

  /** The bytes of the first items, given their operands. */
  function CodeOf(x: Input, w: Widths, values: seq<nat>): seq<Octet>
    requires |values| <= |x.items|
    decreases |values|
  {
    if values == [] then []
    else
      var n := |values| - 1;
      CodeOf(x, w, values[..n]) + Encode(x.items[n], OperandWidth(x, w, x.items[n]), values[n])
  }

  /** Where the k-th item starts. */
  function Offset(x: Input, w: Widths, k: nat): nat
    requires k <= |x.items|
  {
    if k == 0 then 0 else Offset(x, w, k - 1) + 1 + OperandWidth(x, w, x.items[k - 1])
  }

  lemma {:induction false} CodeLength(x: Input, w: Widths, values: seq<nat>)
    requires |values| <= |x.items|
    ensures |CodeOf(x, w, values)| == Offset(x, w, |values|)
    decreases |values|
  {
    hide OperandWidth, Encode;
    if values != [] { CodeLength(x, w, values[..|values| - 1]); }
  }

  lemma {:induction false} CodeSnoc(x: Input, w: Widths, values: seq<nat>, v: nat)
    requires |values| < |x.items|
    ensures CodeOf(x, w, values + [v]) == CodeOf(x, w, values) + Encode(x.items[|values|], OperandWidth(x, w, x.items[|values|]), v)
  {
    hide OperandWidth, Encode;
    assert (values + [v])[..|values|] == values;
  }

  lemma {:induction false} OffsetGrows(x: Input, w: Widths, j: nat, k: nat)
    requires j <= k <= |x.items|
    ensures Offset(x, w, j) + (k - j) <= Offset(x, w, k)
    decreases k
  {
    hide OperandWidth;
    if j < k { OffsetGrows(x, w, j, k - 1); }
  }

  /** The bytes of one item lie between two offsets. */
  lemma {:induction false} CodeAtItem(x: Input, w: Widths, values: seq<nat>, k: nat)
    requires k < |values| <= |x.items|
    ensures Offset(x, w, k + 1) <= |CodeOf(x, w, values)|
    ensures CodeOf(x, w, values)[Offset(x, w, k)..Offset(x, w, k + 1)] == Encode(x.items[k], OperandWidth(x, w, x.items[k]), values[k])
    decreases |values|
  {
    hide OperandWidth, Encode;
    var n := |values| - 1;
    CodeLength(x, w, values[..n]);
    CodeLength(x, w, values);
    if k < n {
      CodeAtItem(x, w, values[..n], k);
      assert CodeOf(x, w, values)[..Offset(x, w, n)] == CodeOf(x, w, values[..n]);
      assert CodeOf(x, w, values)[Offset(x, w, k)..Offset(x, w, k + 1)] == CodeOf(x, w, values[..n])[Offset(x, w, k)..Offset(x, w, k + 1)];
    }
  }

  /** Some bytes replaced by as many others. */
  function Overwritten(bytes: seq<Octet>, at: nat, replacement: seq<Octet>): seq<Octet>
    requires at + |replacement| <= |bytes|
  {
    bytes[..at] + replacement + bytes[at + |replacement|..]
  }

  lemma {:induction false} PatchedLeft(a: seq<Octet>, b: seq<Octet>, at: nat, r: seq<Octet>)
    requires at + |r| <= |a|
    ensures Overwritten(a + b, at, r) == Overwritten(a, at, r) + b
  {
  }

  lemma {:induction false} PatchedRight(a: seq<Octet>, b: seq<Octet>, at: nat, r: seq<Octet>)
    requires |a| <= at && at + |r| <= |a + b|
    ensures Overwritten(a + b, at, r) == a + Overwritten(b, at - |a|, r)
  {
  }

  /** Overwriting the operand bytes of an item changes its operand and nothing else. */
  lemma {:induction false} PatchOperand(x: Input, w: Widths, values: seq<nat>, k: nat, v: nat)
    requires k < |values| <= |x.items|
    ensures var width := OperandWidth(x, w, x.items[k]);
            && Offset(x, w, k) + 1 + width <= |CodeOf(x, w, values)|
            && CodeOf(x, w, values[k := v]) == Overwritten(CodeOf(x, w, values), Offset(x, w, k) + 1, BytesOf(v, width))
    decreases |values|
  {
    hide OperandWidth, Encode, BytesOf;
    var n := |values| - 1;
    var width, r, at := OperandWidth(x, w, x.items[k]), BytesOf(v, OperandWidth(x, w, x.items[k])), Offset(x, w, k) + 1;
    var body := CodeOf(x, w, values[..n]);
    CodeLength(x, w, values[..n]);
    if k < n {
      PatchOperand(x, w, values[..n], k, v);
      assert values[k := v][..n] == values[..n][k := v];
      PatchedLeft(body, Encode(x.items[n], OperandWidth(x, w, x.items[n]), values[n]), at, r);
    } else {
      assert values[k := v][..n] == values[..n];
      PatchedRight(body, Encode(x.items[n], width, values[n]), at, r);
      PatchItem(x.items[n], width, values[n], v);
    }
  }

  lemma {:induction false} PatchItem(item: Item, width: nat, old_value: nat, v: nat)
    ensures Encode(item, width, v) == Overwritten(Encode(item, width, old_value), 1, BytesOf(v, width))
  {
    hide BytesOf;
  }

  // ----- decoding what was encoded -----

  /** The operand fits its bytes, and the head is that of a push with that many operand bytes. */
  predicate Decodable(item: Item, width: nat, value: nat) {
    value < Pow2(8 * width) && width == Additional(Head(item, width))
  }

  /** Operation items are not pushes; widths are those of pushes. */
  lemma {:induction false} HeadWidth(x: Input, w: Widths, item: Item)
    requires !item.Undefined? && (item.Operation? ==> !IsPush(item.op))
    requires (item.Data? && item.kind != Tag ==> 1 <= OperandWidth(x, w, item) <= 32)
    ensures Additional(Head(item, OperandWidth(x, w, item))) == OperandWidth(x, w, item)
  {
  }

  lemma {:induction false} DecodeOne(item: Item, width: nat, value: nat, rest: seq<Octet>)
    requires Decodable(item, width, value)
    ensures Decode(Encode(item, width, value) + rest) == [Instr(Head(item, width), value)] + Decode(rest)
  {
    hide BytesOf, FromBytes, Additional, Head;
    var mem := Encode(item, width, value) + rest;
    assert mem[1..1 + width] == BytesOf(value, width) && mem[1 + width..] == rest;
    BytesRoundTrip(value, width);
  }

  /** What the decoder should find. */
  function Expected(x: Input, w: Widths, values: seq<nat>): (r: seq<Instr>)
    requires |values| <= |x.items|
    ensures |r| == |values|
  {
    seq(|values|, k requires 0 <= k < |values| => Instr(Head(x.items[k], OperandWidth(x, w, x.items[k])), values[k]))
  }

  predicate AllDecodable(x: Input, w: Widths, values: seq<nat>)
    requires |values| <= |x.items|
  {
    forall k :: 0 <= k < |values| ==> Decodable(x.items[k], OperandWidth(x, w, x.items[k]), values[k])
  }

  lemma {:induction false} DecodeCode(x: Input, w: Widths, values: seq<nat>, rest: seq<Octet>)
    requires |values| <= |x.items| && AllDecodable(x, w, values)
    ensures Decode(CodeOf(x, w, values) + rest) == Expected(x, w, values) + Decode(rest)
    decreases |values|
  {
    hide Decodable, OperandWidth, Encode, Decode, Head;
    if values == [] {
      assert CodeOf(x, w, values) + rest == rest && Expected(x, w, values) == [];
    } else {
      var n := |values| - 1;
      var item, width := x.items[n], OperandWidth(x, w, x.items[n]);
      var last := Encode(item, width, values[n]);
      assert AllDecodable(x, w, values[..n]);
      DecodeCode(x, w, values[..n], last + rest);
      assert CodeOf(x, w, values) + rest == CodeOf(x, w, values[..n]) + (last + rest);
      DecodeOne(item, width, values[n], rest);
      assert Expected(x, w, values) == Expected(x, w, values[..n]) + [Instr(Head(item, width), values[n])];
      assert Expected(x, w, values[..n]) + ([Instr(Head(item, width), values[n])] + Decode(rest)) == Expected(x, w, values) + Decode(rest);
    }
  }

  /** The start of every tag item is a jump destination of the whole bytecode. */
  lemma {:induction false} TagIsJumpDest(x: Input, w: Widths, values: seq<nat>, rest: seq<Octet>, j: nat, k: nat)
    requires j <= k < |values| <= |x.items| && AllDecodable(x, w, values) && IsTag(x.items[k])
    ensures IsJumpDest(CodeOf(x, w, values) + rest, Offset(x, w, j), Offset(x, w, k))
    decreases k - j
  {
    hide OperandWidth, Additional;
    var mem := CodeOf(x, w, values) + rest;
    var width := OperandWidth(x, w, x.items[j]);
    CodeAtItem(x, w, values, j);
    assert mem[Offset(x, w, j)..Offset(x, w, j + 1)] == Encode(x.items[j], width, values[j]);
    assert mem[Offset(x, w, j)] == Encode(x.items[j], width, values[j])[0] == Head(x.items[j], width);
    if j < k {
      TagIsJumpDest(x, w, values, rest, j + 1, k);
      assert Decodable(x.items[j], width, values[j]);
    }
  }
}
