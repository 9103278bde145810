/** Assembled bytecode means its items. */
module Bytecode {
  import opened Words
  import opened Instructions
  import opened Items
  import opened Machine
  import opened Encoding
  import opened Linking
  import opened TagData
  import opened Assembler

  /** Operation items stand for instructions without operand bytes. */
  predicate PlainOperations(items: seq<Item>) { forall i :: 0 <= i < |items| ==> PlainAt(items[i]) }

  predicate PlainAt(item: Item) { item.Operation? ==> !IsPush(item.op) }

  lemma {:induction false} LowBelow(v: nat, width: nat)
    ensures Low(v, width) < Pow2(8 * width)
  {
    hide Pow2;
  }

  lemma {:induction false} NumberFits(v: nat)
    ensures v < Pow2(8 * AtLeastOne(BytesRequired(v)))
  {
    hide Pow2;
    BytesRequiredEnough(v);
    Pow2Monotone(8 * BytesRequired(v), 8 * AtLeastOne(BytesRequired(v)));
  }

  lemma {:induction false} PositiveWidths(x: Input)
    requires FullEstimate(x) < 0x1_0000_0000
    ensures var w := WidthsOf(x); 1 <= w.tag <= 4 && 1 <= w.data <= 4
  {
    hide DataBytes, ItemsBytes, FitFrom, SubTagSize, SubsBytes;
    WidthsFit(x);
    AtLeastOneByte(CodeEstimate(x));
    AtLeastOneByte(FullEstimate(x));
  }

  lemma {:induction false} AtLeastOneByte(v: nat)
    requires v > 0
    ensures BytesRequired(v) >= 1
  {
  }

  lemma {:induction false} WidthOfPush(x: Input, item: Item)
    requires FullEstimate(x) < 0x1_0000_0000 && item.Data? && item.kind != Tag
    requires (item.kind == PushSubSize ==> Cut(item.data) < |x.subs|)
    ensures 1 <= OperandWidth(x, WidthsOf(x), item) <= 32
  {
    hide BytesRequired, FullEstimate, WidthsOf;
    PositiveWidths(x);
    WidthsFit(x);
    WordBytes(item.data);
  }

  /** Every operand fits its bytes. */
  lemma {:induction false} OperandFits(x: Input, k: nat)
    requires Assemblable(x) && k < |x.items|
    ensures Operand(x, WidthsOf(x), k) < Pow2(8 * OperandWidth(x, WidthsOf(x), x.items[k]))
  {
    hide Pow2, BytesRequired, WidthsOf, Low, SubOffset, DataOffset, TotalSize, DataIndex, Target, FromBytes, SizesOk;
    hide Position, Offset, IsLocal, Cut;
    var w, item := WidthsOf(x), x.items[k];
    assert ItemOk(x, w, k) && ReferenceOk(x, w, item);
    if item.Data? {
      match item.kind
      case Push => NumberFits(item.data);
      case PushString => BytesBound(PaddedString(x.strings[item.data]));
      case PushSubSize => NumberFits(SizeOfSub(x, Cut(item.data)));
      case PushTag => LowExact(Target(x, w, item.data).value, w.tag);
      case PushSub => if Cut(item.data) < |x.subs| { LowBelow(SubOffset(x, w, Cut(item.data)), w.data); }
      case PushData => if DataIndex(x.data, item.data).Some? { LowBelow(DataOffset(x, w, DataIndex(x.data, item.data).value), w.data); }
      case PushProgramSize => LowBelow(TotalSize(x, w), w.data);
      case PushLibraryAddress =>
      case PushDeployTimeAddress =>
      case Tag =>
    }
  }

  lemma {:induction false} OperandsDecodable(x: Input)
    requires Assemblable(x) && PlainOperations(x.items)
    ensures AllDecodable(x, WidthsOf(x), Operands(x, WidthsOf(x)))
  {
    hide WidthsOf, OperandWidth, Operand, Head, Additional, FullEstimate;
    var w := WidthsOf(x);
    forall k | 0 <= k < |x.items| ensures Decodable(x.items[k], OperandWidth(x, w, x.items[k]), Operand(x, w, k)) {
      var item := x.items[k];
      OperandFits(x, k);
      SizedItem(x, k);
      if item.Data? && item.kind != Tag { WidthOfPush(x, item); }
      HeadWidth(x, w, item);
    }
  }

  lemma {:induction false} SizedItem(x: Input, k: nat)
    requires Assemblable(x) && k < |x.items|
    ensures !x.items[k].Undefined? && (Is(x.items[k], PushSubSize) ==> Cut(x.items[k].data) < |x.subs|)
  {
    hide WidthsOf, FullEstimate, Cut, Position, Offset, ReferenceOk;
    assert ItemOk(x, WidthsOf(x), k);
  }

  /** Decoding gives back one instruction per item, with its operand, and then whatever follows the code. */
  lemma {:induction false} AssembledDecodes(x: Input, o: Object)
    requires Assemblable(x) && PlainOperations(x.items) && Assembled(x, o)
    ensures var w := WidthsOf(x);
            && CodeSize(x, w) <= |o.bytecode|
            && Decode(o.bytecode[..CodeSize(x, w)]) == Expected(x, w, Operands(x, w))
            && Decode(o.bytecode) == Expected(x, w, Operands(x, w)) + Decode(Tail(x))
  {
    hide WidthsOf, Operands, Assemblable, AllDecodable, CodeOf, Tail, Offset, Expected;
    var w := WidthsOf(x);
    var code := CodeOf(x, w, Operands(x, w));
    OperandsDecodable(x);
    CodeLength(x, w, Operands(x, w));
    DecodeCode(x, w, Operands(x, w), Tail(x));
    DecodeCode(x, w, Operands(x, w), []);
    DecodeNothing([]);
    assert o.bytecode[..CodeSize(x, w)] == code == code + [];
  }

  /** A reference to a tag of this assembly pushes the position of that tag's JUMPDEST, a valid jump destination. */
  lemma {:induction false} TagReferencesLand(x: Input, o: Object, k: nat)
    requires Assemblable(x) && PlainOperations(x.items) && Assembled(x, o)
    requires k < |x.items| && Is(x.items[k], PushTag) && IsLocal(x.items[k].data) && Cut(x.items[k].data) != 0
    ensures exists j: nat :: j < |x.items| && IsTag(x.items[j]) && Cut(x.items[j].data) == Cut(x.items[k].data) &&
                             Operand(x, WidthsOf(x), k) == Offset(x, WidthsOf(x), j)
    ensures IsJumpDest(o.bytecode, 0, Operand(x, WidthsOf(x), k))
  {
    hide WidthsOf, SizesOk, AllDecodable, CodeOf, Tail, Offset, IsJumpDest, IsLocal, ItemOk, Cut, Position;
    var w, t := WidthsOf(x), Cut(x.items[k].data);
    assert ReferenceOk(x, w, x.items[k]);
    PositionOfTag(x, w, |x.items|, t);
    var j: nat :| j < |x.items| && Marks(x.items[j], t) && Position(x, w, |x.items|, t) == Some(Offset(x, w, j));
    OperandsDecodable(x);
    TagIsJumpDest(x, w, Operands(x, w), Tail(x), 0, j);
    OffsetZero(x, w);
  }

  lemma {:induction false} OffsetZero(x: Input, w: Widths)
    ensures Offset(x, w, 0) == 0
  {
  }

  // ----- data and sub-assemblies -----

  lemma {:induction false} SubTailPart(x: Input, i: nat, n: nat)
    requires i < n <= |x.subs| && Refers(x, PushSub, i)
    ensures |SubTail(x, i)| + |x.subs[i].bytecode| <= |SubTail(x, n)|
    ensures SubTail(x, n)[|SubTail(x, i)|..][..|x.subs[i].bytecode|] == x.subs[i].bytecode
    decreases n
  {
    hide Refers;
    if i < n - 1 { SubTailPart(x, i, n - 1); }
  }

  lemma {:induction false} DataTailPart(x: Input, j: nat, n: nat)
    requires j < n <= |x.data| && Refers(x, PushData, x.data[j].0)
    ensures |DataTail(x, j)| + |x.data[j].1| <= |DataTail(x, n)|
    ensures DataTail(x, n)[|DataTail(x, j)|..][..|x.data[j].1|] == x.data[j].1
    decreases n
  {
    hide Refers;
    if j < n - 1 { DataTailPart(x, j, n - 1); }
  }

  lemma {:induction false} Inside(a: seq<Octet>, b: seq<Octet>, c: seq<Octet>, i: nat, part: seq<Octet>)
    requires i + |part| <= |b| && b[i..][..|part|] == part
    ensures (a + b + c)[|a| + i..][..|part|] == part
  {
    forall m | 0 <= m < |part| ensures (a + b + c)[|a| + i..][m] == part[m] {
      assert b[i..][..|part|][m] == b[i + m];
    }
  }

  lemma {:induction false} AssembledSize(x: Input, o: Object)
    requires Assembled(x, o)
    ensures |o.bytecode| == TotalSize(x, WidthsOf(x))
  {
    hide WidthsOf, Operands, CodeOf, Gap, SubTail, DataTail, Offset;
    CodeLength(x, WidthsOf(x), Operands(x, WidthsOf(x)));
  }

  /** Where a sub-assembly lies; the reference is exact just when that position fits the bytes set aside. */
  lemma {:induction false} SubReferences(x: Input, o: Object, k: nat)
    requires Assembled(x, o) && k < |x.items| && Is(x.items[k], PushSub) && Cut(x.items[k].data) < |x.subs|
    ensures var i, w := Cut(x.items[k].data), WidthsOf(x);
            && SubOffset(x, w, i) + |x.subs[i].bytecode| <= |o.bytecode|
            && o.bytecode[SubOffset(x, w, i)..][..|x.subs[i].bytecode|] == x.subs[i].bytecode
            && (Operand(x, w, k) == SubOffset(x, w, i) <==> SubOffset(x, w, i) < Pow2(8 * w.data))
  {
    hide WidthsOf, Operands, CodeOf, SubTail, DataTail, Gap, Pow2, Offset, Cut;
    var i, w := Cut(x.items[k].data), WidthsOf(x);
    assert Refers(x, PushSub, i);
    SubTailPart(x, i, |x.subs|);
    var code := CodeOf(x, w, Operands(x, w));
    CodeLength(x, w, Operands(x, w));
    var before, after := code + Gap(x), DataTail(x, |x.data|) + x.auxiliary;
    Inside(before, SubTail(x, |x.subs|), after, |SubTail(x, i)|, x.subs[i].bytecode);
    assert o.bytecode == before + SubTail(x, |x.subs|) + after;
    SmallRemainder(SubOffset(x, w, i), Pow2(8 * w.data));
  }

  lemma {:induction false} DataReferences(x: Input, o: Object, k: nat, j: nat)
    requires Assembled(x, o) && DistinctData(x) && k < |x.items| && j < |x.data| && Is(x.items[k], PushData)
    requires x.items[k].data == x.data[j].0
    ensures var w := WidthsOf(x);
            && DataOffset(x, w, j) + |x.data[j].1| <= |o.bytecode|
            && o.bytecode[DataOffset(x, w, j)..][..|x.data[j].1|] == x.data[j].1
            && (Operand(x, w, k) == DataOffset(x, w, j) <==> DataOffset(x, w, j) < Pow2(8 * w.data))
  {
    hide WidthsOf, Operands, CodeOf, SubTail, DataTail, Gap, Pow2, Offset;
    var w := WidthsOf(x);
    assert RefKey(x.items[k]) == x.data[j].0;
    assert Refers(x, PushData, x.data[j].0);
    DataTailPart(x, j, |x.data|);
    var code := CodeOf(x, w, Operands(x, w));
    CodeLength(x, w, Operands(x, w));
    var before := code + Gap(x) + SubTail(x, |x.subs|);
    Inside(before, DataTail(x, |x.data|), x.auxiliary, |DataTail(x, j)|, x.data[j].1);
    assert o.bytecode == before + DataTail(x, |x.data|) + x.auxiliary;
    assert DataIndex(x.data, x.data[j].0).value == j;
    SmallRemainder(DataOffset(x, w, j), Pow2(8 * w.data));
  }

  lemma {:induction false} SizeReferences(x: Input, o: Object, k: nat)
    requires Assembled(x, o) && k < |x.items| && Is(x.items[k], PushProgramSize)
    ensures Operand(x, WidthsOf(x), k) == |o.bytecode| <==> |o.bytecode| < Pow2(8 * WidthsOf(x).data)
  {
    hide WidthsOf, TotalSize, Pow2;
    AssembledSize(x, o);
    SmallRemainder(|o.bytecode|, Pow2(8 * WidthsOf(x).data));
  }

  // ----- the space set aside for tags -----

  /** Unless data references are wider than the tags of the estimate, the code is no longer than estimated. */
  lemma {:induction false} CodeFitsEstimate(x: Input, n: nat)
    requires SizesOk(x) && n <= |x.items| && WidthsOf(x).data <= FitFrom(x, SubTagSize(x.subs))
    requires forall k :: 0 <= k < |x.items| && Is(x.items[k], PushSubSize) ==> Cut(x.items[k].data) < |x.subs|
    ensures Offset(x, WidthsOf(x), n) <= ItemsBytes(x.items[..n], FitFrom(x, SubTagSize(x.subs)))
  {
    hide WidthsOf, FitFrom, SubTagSize, OperandWidth, SizeOf, FullEstimate, Cut;
    if n > 0 {
      CodeFitsEstimate(x, n - 1);
      ItemFitsEstimate(x, x.items[n - 1]);
      assert x.items[..n][..n - 1] == x.items[..n - 1];
    }
  }

  lemma {:induction false} ItemFitsEstimate(x: Input, item: Item)
    requires FullEstimate(x) < 0x1_0000_0000 && !item.Undefined? && WidthsOf(x).data <= FitFrom(x, SubTagSize(x.subs))
    requires Is(item, PushSubSize) ==> Cut(item.data) < |x.subs|
    ensures 1 + OperandWidth(x, WidthsOf(x), item) <= SizeOf(item, FitFrom(x, SubTagSize(x.subs)))
  {
    hide FullEstimate, BytesRequired, SubTagSize, Estimate, SubsBytes, Cut;
    PositiveWidths(x);
    if Is(item, PushSubSize) { SubSizeFits(x, Cut(item.data)); }
  }

  lemma {:induction false} SubSizeFits(x: Input, i: nat)
    requires FullEstimate(x) < 0x1_0000_0000 && i < |x.subs|
    ensures BytesRequired(|x.subs[i].bytecode|) <= 4
  {
    hide CodeEstimate, SubsBytes, BytesRequired;
    SubFits(x.subs, i);
    SmallWidth(|x.subs[i].bytecode|);
  }

  /** ... and then no tag of this assembly is too large for its references. */
  lemma {:induction false} LocalTagsFit(x: Input, data: Word)
    requires SizesOk(x) && WidthsOf(x).data <= FitFrom(x, SubTagSize(x.subs))
    requires forall k :: 0 <= k < |x.items| && Is(x.items[k], PushSubSize) ==> Cut(x.items[k].data) < |x.subs|
    requires IsLocal(data) && Target(x, WidthsOf(x), data).Some?
    ensures BytesRequired(Target(x, WidthsOf(x), data).value) <= WidthsOf(x).tag
  {
    hide FullEstimate, BytesRequired, SubTagSize, FitFrom, SubsBytes, Cut, Offset, Position, ItemsBytes, DataBytes;
    hide Pow2, OperandWidth;
    var w, t := WidthsOf(x), Cut(data);
    PositionOfTag(x, w, |x.items|, t);
    var j: nat :| j < |x.items| && Position(x, w, |x.items|, t) == Some(Offset(x, w, j));
    OffsetGrows(x, w, j, |x.items|);
    CodeFitsEstimate(x, |x.items|);
    assert x.items[..|x.items|] == x.items;
    BytesRequiredEnough(CodeEstimate(x));
    BytesRequiredBound(Offset(x, w, j), w.tag);
  }

  // ----- where instructions start -----

  /** Position p is reached from i by stepping over whole instructions. */
  predicate IsBoundary(mem: seq<Octet>, i: nat, p: nat)
    decreases |mem| - i
  {
    i < |mem| && (p == i || IsBoundary(mem, i + 1 + Additional(mem[i]), p))
  }

  lemma {:induction false} BoundaryAhead(mem: seq<Octet>, i: nat, p: nat)
    requires IsBoundary(mem, i, p)
    ensures i <= p
    decreases |mem| - i
  {
    hide Additional;
    if p != i { BoundaryAhead(mem, i + 1 + Additional(mem[i]), p); }
  }

  /** The byte at an item's start, and how far the decoder goes from there. */
  lemma {:induction false} HeadAt(x: Input, values: seq<nat>, k: nat)
    requires Assemblable(x) && k < |x.items| && values == Operands(x, WidthsOf(x))
    ensures var w, code := WidthsOf(x), CodeOf(x, WidthsOf(x), values);
            && Offset(x, w, k) < Offset(x, w, k + 1) <= |code|
            && code[Offset(x, w, k)] == Head(x.items[k], OperandWidth(x, w, x.items[k]))
            && (PlainAt(x.items[k]) ==> Offset(x, w, k) + 1 + Additional(code[Offset(x, w, k)]) == Offset(x, w, k + 1))
            && (!PlainAt(x.items[k]) ==> Offset(x, w, k) + 1 + Additional(code[Offset(x, w, k)]) > Offset(x, w, k + 1))
  {
    hide WidthsOf, OperandWidth, Head, CodeOf, Assemblable, Additional;
    var w, item := WidthsOf(x), x.items[k];
    var code, width := CodeOf(x, w, values), OperandWidth(x, w, item);
    CodeAtItem(x, w, values, k);
    assert code[Offset(x, w, k)..Offset(x, w, k + 1)][0] == Encode(item, width, values[k])[0];
    SizedItem(x, k);
    AssemblableSize(x);
    if item.Data? && item.kind != Tag { WidthOfPush(x, item); }
    if PlainAt(item) { HeadWidth(x, w, item); } else { PushWidth(x, w, item); }
  }

  lemma {:induction false} AssemblableSize(x: Input)
    requires Assemblable(x)
    ensures FullEstimate(x) < 0x1_0000_0000
  {
    hide FullEstimate, ItemOk, ReferenceOk, WidthsOf;
  }

  lemma {:induction false} PushWidth(x: Input, w: Widths, item: Item)
    requires !PlainAt(item)
    ensures OperandWidth(x, w, item) == 0 && Additional(Head(item, 0)) >= 1
  {
  }

  lemma {:induction false} PlainBoundary(x: Input, values: seq<nat>, j: nat, k: nat)
    requires Assemblable(x) && j <= k < |x.items| && values == Operands(x, WidthsOf(x)) && forall i :: j <= i < k ==>
              PlainAt(x.items[i])
    ensures IsBoundary(CodeOf(x, WidthsOf(x), values), Offset(x, WidthsOf(x), j), Offset(x, WidthsOf(x), k))
    decreases k - j
  {
    hide WidthsOf, OperandWidth, Head, CodeOf, Assemblable, Additional, Offset, PlainAt;
    HeadAt(x, values, j);
    if j < k { PlainBoundary(x, values, j + 1, k); }
  }

  lemma {:induction false} BoundaryBeyond(x: Input, values: seq<nat>, j: nat, k: nat, p: nat)
    requires Assemblable(x) && j <= k < |x.items| && values == Operands(x, WidthsOf(x)) && forall i :: j <= i < k ==>
              PlainAt(x.items[i])
    requires IsBoundary(CodeOf(x, WidthsOf(x), values), Offset(x, WidthsOf(x), j), p) && p >= Offset(x, WidthsOf(x), k)
    ensures IsBoundary(CodeOf(x, WidthsOf(x), values), Offset(x, WidthsOf(x), k), p)
    decreases k - j
  {
    hide WidthsOf, OperandWidth, Head, CodeOf, Assemblable, Additional, Offset, PlainAt;
    if j < k {
      HeadAt(x, values, j);
      OffsetGrows(x, WidthsOf(x), j + 1, k);
      BoundaryBeyond(x, values, j + 1, k, p);
    }
  }

  /** Every item starts at an instruction boundary just when no operation item but the last is a push. */
  lemma {:induction false} ItemsAreInstructions(x: Input, o: Object)
    requires Assemblable(x) && Assembled(x, o)
    ensures (forall k :: 0 <= k < |x.items| ==> IsBoundary(CodeOf(x, WidthsOf(x), Operands(x, WidthsOf(x))), 0, Offset(x, WidthsOf(x), k))) <==>
            (forall k :: 0 <= k < |x.items| - 1 ==> PlainAt(x.items[k]))
  {
    hide WidthsOf, CodeOf, Operands, Assemblable, Offset, PlainAt, IsBoundary;
    var w, values := WidthsOf(x), Operands(x, WidthsOf(x));
    OffsetZero(x, w);
    if forall k :: 0 <= k < |x.items| - 1 ==> PlainAt(x.items[k]) {
      forall k | 0 <= k < |x.items|
        ensures IsBoundary(CodeOf(x, w, values), 0, Offset(x, w, k))
      { PlainBoundary(x, values, 0, k); }
    } else {
      var k := FirstPush(x.items, |x.items| - 1);
      NoBoundary(x, values, k);
    }
  }

  lemma {:induction false} FirstPush(items: seq<Item>, n: nat) returns (k: nat)
    requires n <= |items| && !forall i :: 0 <= i < n ==> PlainAt(items[i])
    ensures k < n && !PlainAt(items[k]) && forall i :: 0 <= i < k ==> PlainAt(items[i])
  {
    hide PlainAt;
    if forall i :: 0 <= i < n - 1 ==> PlainAt(items[i]) {
      k := n - 1;
    } else {
      k := FirstPush(items, n - 1);
    }
  }

  lemma {:induction false} NoBoundary(x: Input, values: seq<nat>, k: nat)
    requires Assemblable(x) && k + 1 < |x.items| && values == Operands(x, WidthsOf(x)) && !PlainAt(x.items[k]) && forall i :: 0 <= i < k ==> PlainAt(x.items[i])
    ensures !IsBoundary(CodeOf(x, WidthsOf(x), values), 0, Offset(x, WidthsOf(x), k + 1))
  {
    hide WidthsOf, OperandWidth, Head, CodeOf, Assemblable, Additional, Offset, PlainAt;
    var w, code, p := WidthsOf(x), CodeOf(x, WidthsOf(x), values), Offset(x, WidthsOf(x), k + 1);
    OffsetZero(x, w);
    HeadAt(x, values, k);
    if IsBoundary(code, 0, p) {
      BoundaryBeyond(x, values, 0, k, p);
      BoundaryAhead(code, Offset(x, w, k) + 1 + Additional(code[Offset(x, w, k)]), p);
    }
  }
}
