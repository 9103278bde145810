/** What assembled bytecode is to be: sizes, tag positions, operands, and what follows the code. */
module Linking {
  import opened Words
  import opened Instructions
  import opened Items
  import opened Machine
  import opened Encoding
  import opened TagData

  // ----- the size estimate -----

  predicate AllSized(items: seq<Item>) { forall i :: 0 <= i < |items| ==> !items[i].Undefined? }

  function SizeOf(item: Item, addressLength: nat): nat {
    if ItemBytes(item, addressLength).Some? then ItemBytes(item, addressLength).value else 0
  }

  function ItemsBytes(items: seq<Item>, addressLength: nat): nat
    decreases |items|
  {
    if items == [] then 0 else ItemsBytes(items[..|items| - 1], addressLength) + SizeOf(items[|items| - 1], addressLength)
  }

  function DataBytes(data: seq<(Word, seq<Octet>)>): nat
    decreases |data|
  {
    if data == [] then 0 else DataBytes(data[..|data| - 1]) + |data[|data| - 1].1|
  }

  function SubsBytes(subs: seq<Sub>): nat
    decreases |subs|
  {
    if subs == [] then 0 else SubsBytes(subs[..|subs| - 1]) + |subs[|subs| - 1].bytecode|
  }

  /** The size of code and data if tags take so many bytes. */
  function Estimate(x: Input, tagSize: nat): nat { 1 + DataBytes(x.data) + ItemsBytes(x.items, tagSize) }

  predicate Fits(x: Input, tagSize: nat) { BytesRequired(Estimate(x, tagSize)) <= tagSize }

  lemma {:induction false} BytesRequiredBound(v: nat, n: nat)
    requires v < Pow2(8 * n)
    ensures BytesRequired(v) <= n
    decreases n
  {
    if v > 0 {
      if n > 0 {
        Pow2Sum(8, 8 * (n - 1));
        assert Pow2(8) == 256;
        BytesRequiredBound(v / 256, n - 1);
      }
    }
  }

  lemma {:induction false} BytesRequiredEnough(v: nat)
    ensures v < Pow2(8 * BytesRequired(v))
    decreases v
  {
    if v > 0 {
      var n := BytesRequired(v / 256);
      BytesRequiredEnough(v / 256);
      Pow2Byte(n);
      assert BytesRequired(v) == n + 1;
    }
  }

  lemma {:induction false} Pow2Byte(n: nat)
    ensures Pow2(8 * (n + 1)) == 256 * Pow2(8 * n)
  {
    Pow2Sum(8, 8 * n);
    assert Pow2(8) == 256;
  }

  lemma {:induction false} SizeGrows(item: Item, a: nat)
    ensures SizeOf(item, a) <= SizeOf(item, 0) + a
  {
  }

  lemma {:induction false} EstimateGrows(items: seq<Item>, a: nat)
    ensures ItemsBytes(items, a) <= ItemsBytes(items, 0) + |items| * a
    decreases |items|
  {
    hide SizeOf;
    if items != [] {
      EstimateGrows(items[..|items| - 1], a);
      SizeGrows(items[|items| - 1], a);
      assert |items| * a == (|items| - 1) * a + a;
    }
  }

  lemma {:induction false} SquareBelow(n: nat)
    ensures n * n < Pow2(8 * n)
  {
    if n > 0 {
      SquareBelow(n - 1);
      Pow2Sum(8, 8 * (n - 1));
      assert Pow2(8) == 256;
      NextSquare(n - 1, Pow2(8 * (n - 1)));
    }
  }

  lemma {:induction false} NextSquare(m: nat, p: nat)
    requires m * m < p
    ensures (m + 1) * (m + 1) < 256 * p
  {
    assert (m - 1) * (m - 1) >= 0;
    assert (m + 1) * (m + 1) == m * m + 2 * m + 1;
    assert (m - 1) * (m - 1) == m * m - 2 * m + 1;
  }

  /** Beyond this, every number of bytes per tag is enough. */
  function Limit(x: Input): nat { Estimate(x, 0) + |x.items| }

  lemma {:induction false} LimitFits(x: Input, n: nat)
    requires n >= Limit(x)
    ensures Fits(x, n)
  {
    hide ItemsBytes, DataBytes, BytesRequired, Pow2;
    EstimateGrows(x.items, n);
    SquareBelow(n);
    Square(Estimate(x, 0), |x.items|, n);
    BytesRequiredBound(Estimate(x, n), n);
  }

  lemma {:induction false} Square(a: nat, b: nat, n: nat)
    requires a + b <= n && 1 <= n
    ensures a + b * n <= n * n
  {
    assert a <= a * n;
    assert (a + b) * n <= n * n;
  }

  lemma {:induction false} NotAtLimit(x: Input, n: nat)
    requires !Fits(x, n)
    ensures n < Limit(x)
  {
    hide Fits, Limit;
    if n >= Limit(x) { LimitFits(x, n); }
  }

  /** The least number of bytes per tag, from a given one on, that is enough for its own estimate. */
  function FitFrom(x: Input, n: nat): (r: nat)
    ensures r >= n && Fits(x, r) && forall m :: n <= m < r ==> !Fits(x, m)
    decreases Limit(x) - n
  {
    if Fits(x, n) then n else NotAtLimit(x, n); FitFrom(x, n + 1)
  }

  /** One, or the largest position of a tag in a sub-assembly. */
  function SubTagSize(subs: seq<Sub>): nat
    decreases |subs|
  {
    if subs == [] then 1 else LargestPosition(subs[|subs| - 1].positions, SubTagSize(subs[..|subs| - 1]))
  }

  function LargestPosition(positions: seq<Option<nat>>, least: nat): nat
    decreases |positions|
  {
    if positions == [] then least
    else
      var r := LargestPosition(positions[..|positions| - 1], least);
      var p := positions[|positions| - 1];
      if p.Some? && p.value > r then p.value else r
  }

  function CodeEstimate(x: Input): nat { Estimate(x, FitFrom(x, SubTagSize(x.subs))) }

  function FullEstimate(x: Input): nat { CodeEstimate(x) + 1 + |x.auxiliary| + SubsBytes(x.subs) }

  function WidthsOf(x: Input): Widths { Widths(BytesRequired(CodeEstimate(x)), BytesRequired(FullEstimate(x))) }

  // ----- tags -----

  /** Tag t is defined by an item; tag zero stands for the first item that is no tag. */
  predicate Marks(item: Item, t: nat) { if IsTag(item) then Cut(item.data) == t else t == 0 }

  /** The position of a tag among the first n items. */
  function Position(x: Input, w: Widths, n: nat, t: nat): Option<nat>
    requires n <= |x.items|
  {
    if n == 0 then None
    else
      var before := Position(x, w, n - 1, t);
      if before.None? && Marks(x.items[n - 1], t) then Some(Offset(x, w, n - 1)) else before
  }

  lemma {:induction false} PositionOfTag(x: Input, w: Widths, n: nat, t: nat)
    requires n <= |x.items| && Position(x, w, n, t).Some?
    ensures exists j: nat :: j < n && Marks(x.items[j], t) && Position(x, w, n, t) == Some(Offset(x, w, j))
  {
    hide Offset;
    if Position(x, w, n - 1, t).Some? { PositionOfTag(x, w, n - 1, t); }
  }

  function Target(x: Input, w: Widths, data: Word): Option<nat> {
    var t := Cut(data);
    if IsLocal(data) then if t < x.usedTags then Position(x, w, |x.items|, t) else None
    else
      var s := SubOf(data);
      if s < |x.subs| && t < |x.subs[s].positions| then x.subs[s].positions[t] else None
  }

  // ----- what follows the code -----

  predicate HasTail(x: Input) { x.subs != [] || x.data != [] || x.auxiliary != [] }

  predicate Is(item: Item, kind: Kind) { item.Data? && item.kind == kind }

  /** References are found by the number of the sub-assembly or the hash of the data. */
  function RefKey(item: Item): nat
    requires item.Data?
  {
    if item.kind == PushSub then Cut(item.data) else item.data
  }

  predicate Refers(x: Input, kind: Kind, key: nat) {
    exists k :: 0 <= k < |x.items| && Is(x.items[k], kind) && RefKey(x.items[k]) == key
  }

  function SubTail(x: Input, n: nat): seq<Octet>
    requires n <= |x.subs|
  {
    if n == 0 then [] else SubTail(x, n - 1) + if Refers(x, PushSub, n - 1) then x.subs[n - 1].bytecode else []
  }

  function DataTail(x: Input, n: nat): seq<Octet>
    requires n <= |x.data|
  {
    if n == 0 then [] else DataTail(x, n - 1) + if Refers(x, PushData, x.data[n - 1].0) then x.data[n - 1].1 else []
  }

  function Gap(x: Input): seq<Octet> { if HasTail(x) then [INVALID] else [] }

  function Tail(x: Input): seq<Octet> { Gap(x) + SubTail(x, |x.subs|) + DataTail(x, |x.data|) + x.auxiliary }

  function CodeSize(x: Input, w: Widths): nat { Offset(x, w, |x.items|) }

  function SubOffset(x: Input, w: Widths, i: nat): nat
    requires i <= |x.subs|
  {
    CodeSize(x, w) + |Gap(x)| + |SubTail(x, i)|
  }

  function DataOffset(x: Input, w: Widths, j: nat): nat
    requires j <= |x.data|
  {
    SubOffset(x, w, |x.subs|) + |DataTail(x, j)|
  }

  function TotalSize(x: Input, w: Widths): nat { DataOffset(x, w, |x.data|) + |x.auxiliary| }

  predicate DistinctData(x: Input) { forall i, j :: 0 <= i < j < |x.data| ==> x.data[i].0 != x.data[j].0 }

  function DataIndex(data: seq<(Word, seq<Octet>)>, hash: Word): (r: Option<nat>)
    ensures r.Some? ==> r.value < |data| && data[r.value].0 == hash
    ensures r.None? ==> forall j :: 0 <= j < |data| ==> data[j].0 != hash
    decreases |data|
  {
    if data == [] then None
    else if data[|data| - 1].0 == hash then Some(|data| - 1)
    else DataIndex(data[..|data| - 1], hash)
  }

  /** The string's first 32 bytes, padded with zeros. */
  function PaddedString(s: seq<Octet>): (r: seq<Octet>)
    ensures |r| == 32
  {
    if |s| >= 32 then s[..32] else s + seq(32 - |s|, _ => 0)
  }

  // ----- operands -----

  function Low(v: nat, width: nat): nat { v % Pow2(8 * width) }

  /** What the k-th item pushes. */
  function Operand(x: Input, w: Widths, k: nat): nat
    requires k < |x.items|
  {
    match x.items[k]
    case Undefined(_) => 0
    case Operation(_) => 0
    case Data(kind, data) =>
      match kind
      case Tag => 0
      case Push => data
      case PushString => if data in x.strings then FromBytes(PaddedString(x.strings[data])) else 0
      case PushTag => if Target(x, w, data).Some? then Target(x, w, data).value else 0
      case PushSubSize => SizeOfSub(x, Cut(data))
      case PushSub => if Cut(data) < |x.subs| then Low(SubOffset(x, w, Cut(data)), w.data) else 0
      case PushData => if DataIndex(x.data, data).Some? then Low(DataOffset(x, w, DataIndex(x.data, data).value), w.data) else 0
      case PushProgramSize => Low(TotalSize(x, w), w.data)
      case PushLibraryAddress => 0
      case PushDeployTimeAddress => 0
  }

  /** Operands that are filled in after the code has been laid out. */
  predicate IsLate(kind: Kind) { kind == PushSub || kind == PushTag || kind == PushData || kind == PushProgramSize }

  /** The operands when those of some kinds have been filled in. */
  function Filled(x: Input, w: Widths, done: set<Kind>): (r: seq<nat>)
    ensures |r| == |x.items|
  {
    seq(|x.items|, k requires 0 <= k < |x.items| =>
      if x.items[k].Data? && IsLate(x.items[k].kind) && x.items[k].kind !in done then 0 else Operand(x, w, k))
  }

  function Operands(x: Input, w: Widths): (r: seq<nat>)
    ensures |r| == |x.items|
  {
    seq(|x.items|, k requires 0 <= k < |x.items| => Operand(x, w, k))
  }

  // ----- when assembly succeeds -----

  predicate ItemOk(x: Input, w: Widths, k: nat)
    requires k < |x.items|
  {
    match x.items[k]
    case Undefined(_) => false
    case Operation(_) => true
    case Data(kind, data) =>
      match kind
      case PushString => data in x.strings
      case PushSubSize => Cut(data) < |x.subs|
      case PushLibraryAddress => data in x.libraries
      case Tag => data != 0 && IsLocal(data) && Offset(x, w, k) < 0xffff_ffff && Position(x, w, k, Cut(data)).None?
      case Push => true
      case PushTag => true
      case PushSub => true
      case PushData => true
      case PushProgramSize => true
      case PushDeployTimeAddress => true
  }

  /** A tag reference has a target that fits the bytes set aside. */
  predicate ReferenceOk(x: Input, w: Widths, item: Item) {
    Is(item, PushTag) ==> Target(x, w, item.data).Some? && BytesRequired(Target(x, w, item.data).value) <= w.tag
  }

  /** Sizes are 32-bit numbers. */
  predicate SizesOk(x: Input) { AllSized(x.items) && FullEstimate(x) < 0x1_0000_0000 }

  predicate Assemblable(x: Input) {
    && SizesOk(x)
    && (forall k :: 0 <= k < |x.items| ==> ItemOk(x, WidthsOf(x), k))
    && (forall k :: 0 <= k < |x.items| ==> ReferenceOk(x, WidthsOf(x), x.items[k]))
  }

  /** What the assembler relies on: data goes by distinct hashes, tags have been handed out. */
  predicate Wellformed(x: Input) {
    && DistinctData(x) && x.usedTags >= 1
    && forall k :: 0 <= k < |x.items| && IsTag(x.items[k]) ==> Cut(x.items[k].data) < x.usedTags
  }

  datatype Object = Object(bytecode: seq<Octet>, positions: seq<Option<nat>>)

  predicate Assembled(x: Input, o: Object) {
    var w := WidthsOf(x);
    && o.bytecode == CodeOf(x, w, Operands(x, w)) + Tail(x)
    && o.positions == seq(x.usedTags, t requires 0 <= t < x.usedTags => Position(x, w, |x.items|, t))
  }
}
