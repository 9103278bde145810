/** The assembler: code with gaps first, then every gap filled in when its value is known. */
module Assembler {
  import opened Words
  import opened Instructions
  import opened Items
  import opened Machine
  import opened Encoding
  import opened Linking
  import opened TagData

  // ----- sizes -----

  method LargestTag(subs: seq<Sub>) returns (size: nat)
    ensures size == SubTagSize(subs)
  {
    size := 1;
    for i := 0 to |subs|
      invariant size == SubTagSize(subs[..i])
    {
      var positions := subs[i].positions;
      ghost var least := size;
      for j := 0 to |positions|
        invariant size == LargestPosition(positions[..j], least)
      {
        if positions[j].Some? && positions[j].value > size { size := positions[j].value; }
        assert positions[..j + 1][..j] == positions[..j];
      }
      assert positions[..|positions|] == positions;
      assert subs[..i + 1][..i] == subs[..i];
    }
    assert subs[..|subs|] == subs;
  }

  lemma {:induction false} FirstFit(x: Input, n: nat, r: nat)
    requires n <= r && Fits(x, r) && forall m :: n <= m < r ==> !Fits(x, m)
    ensures r == FitFrom(x, n)
  {
    hide Fits;
  }

  method CountBytes(x: Input, tagSize: nat) returns (total: nat)
    ensures total == Estimate(x, tagSize)
  {
    hide SizeOf;
    total := 1;
    for i := 0 to |x.data|
      invariant total == 1 + DataBytes(x.data[..i])
    {
      total := total + |x.data[i].1|;
      assert x.data[..i + 1][..i] == x.data[..i];
    }
    assert x.data[..|x.data|] == x.data;
    for i := 0 to |x.items|
      invariant total == 1 + DataBytes(x.data) + ItemsBytes(x.items[..i], tagSize)
    {
      total := total + SizeOf(x.items[i], tagSize);
      assert x.items[..i + 1][..i] == x.items[..i];
    }
    assert x.items[..|x.items|] == x.items;
  }

  /** The loop ends: some number of bytes per tag is always enough. */
  method EstimateSize(x: Input, subTagSize: nat) returns (total: nat)
    ensures total == Estimate(x, FitFrom(x, subTagSize))
  {
    hide Estimate, Limit, FitFrom;
    var tagSize := subTagSize;
    while true
      invariant subTagSize <= tagSize && forall m :: subTagSize <= m < tagSize ==> !Fits(x, m)
      decreases Limit(x) - tagSize
    {
      total := CountBytes(x, tagSize);
      if BytesRequired(total) <= tagSize {
        FirstFit(x, subTagSize, tagSize);
        return;
      }
      NotAtLimit(x, tagSize);
      tagSize := tagSize + 1;
    }
  }

  method CountSubs(subs: seq<Sub>) returns (total: nat)
    ensures total == SubsBytes(subs)
  {
    total := 0;
    for i := 0 to |subs|
      invariant total == SubsBytes(subs[..i])
    {
      total := total + |subs[i].bytecode|;
      assert subs[..i + 1][..i] == subs[..i];
    }
    assert subs[..|subs|] == subs;
  }

  // ----- numbers into bytes -----

  lemma {:induction false} BytesOfSplit(v: nat, n: nat)
    requires n > 0
    ensures BytesOf(v, n) == BytesOf(v / 256, n - 1) + [v % 256]
  {
  }

  /** Writes a number into a part of the buffer, last byte first. */
  method WriteBigEndian(bytes: seq<Octet>, at: nat, width: nat, value: nat) returns (r: seq<Octet>)
    requires at + width <= |bytes|
    ensures r == Overwritten(bytes, at, BytesOf(value, width))
  {
    hide BytesOf;
    r := bytes;
    var v, i := value, width;
    ghost var written: seq<Octet> := [];
    assert BytesOf(value, width) + [] == BytesOf(value, width);
    while i != 0
      invariant 0 <= i <= width && |written| == width - i && |r| == |bytes|
      invariant r == bytes[..at + i] + written + bytes[at + width..]
      invariant BytesOf(value, width) == BytesOf(v, i) + written
    {
      BytesOfSplit(v, i);
      r := r[at + i - 1 := v % 256];
      assert BytesOf(v / 256, i - 1) + [v % 256] + written == BytesOf(v / 256, i - 1) + ([v % 256] + written);
      written := [v % 256] + written;
      v, i := v / 256, i - 1;
    }
    NoBytes(v);
    assert BytesOf(v, 0) + written == written;
  }

  lemma {:induction false} LowBytes(v: nat, n: nat)
    ensures BytesOf(Low(v, n), n) == BytesOf(v, n)
    decreases n
  {
    if n > 0 {
      Pow2Sum(8, 8 * (n - 1));
      assert Pow2(8) == 256;
      LowQuotient(v, Pow2(8 * (n - 1)));
      LowBytes(v / 256, n - 1);
    }
  }

  lemma {:induction false} LowQuotient(v: nat, p: nat)
    requires p > 0
    ensures (v % (256 * p)) / 256 == (v / 256) % p && (v % (256 * p)) % 256 == v % 256
  {
    var q, r := v / 256, v % 256;
    var a, b := q / p, q % p;
    assert v == 256 * q + r && q == p * a + b;
    assert v == (256 * p) * a + (256 * b + r) by { assert 256 * (p * a) == (256 * p) * a; }
    assert 0 <= 256 * b + r < 256 * p;
    QuotientIs(v, 256 * p, a, 256 * b + r);
  }

  // ----- first pass -----

  /** Where a reference is to be filled in, and what it refers to. */
  datatype Ref = Ref(at: nat, key: nat)

  function RefsOf(x: Input, w: Widths, kind: Kind, n: nat): seq<Ref>
    requires n <= |x.items|
  {
    if n == 0 then []
    else RefsOf(x, w, kind, n - 1) + if Is(x.items[n - 1], kind) then [Ref(Offset(x, w, n - 1) + 1, RefKey(x.items[n - 1]))] else []
  }

  /** The items that the references belong to. */
  function Owners(x: Input, kind: Kind, n: nat): seq<nat>
    requires n <= |x.items|
  {
    if n == 0 then [] else Owners(x, kind, n - 1) + if Is(x.items[n - 1], kind) then [n - 1] else []
  }

  lemma {:induction false} OwnerOf(x: Input, w: Widths, kind: Kind, n: nat, j: nat)
    requires n <= |x.items| && j < |RefsOf(x, w, kind, n)|
    ensures |Owners(x, kind, n)| == |RefsOf(x, w, kind, n)|
    ensures var k := Owners(x, kind, n)[j];
            k < n && Is(x.items[k], kind) && RefsOf(x, w, kind, n)[j] == Ref(Offset(x, w, k) + 1, RefKey(x.items[k]))
    decreases n
  {
    hide Offset, RefKey;
    OwnersMatch(x, w, kind, n);
    OwnersMatch(x, w, kind, n - 1);
    if j < |RefsOf(x, w, kind, n - 1)| { OwnerOf(x, w, kind, n - 1, j); }
  }

  lemma {:induction false} OwnersMatch(x: Input, w: Widths, kind: Kind, n: nat)
    requires n <= |x.items|
    ensures |Owners(x, kind, n)| == |RefsOf(x, w, kind, n)|
  {
    hide Offset, RefKey;
    if n > 0 { OwnersMatch(x, w, kind, n - 1); }
  }

  lemma {:induction false} OwnedBy(x: Input, kind: Kind, n: nat, k: nat)
    requires k < n <= |x.items| && Is(x.items[k], kind)
    ensures k in Owners(x, kind, n)
  {
    if k < n - 1 { OwnedBy(x, kind, n - 1, k); }
  }

  /** A string as the operand of a 32-byte push. */
  method WriteString(s: seq<Octet>) returns (r: seq<Octet>)
    ensures r == PaddedString(s)
  {
    r := [];
    var ii := 0;
    while ii < |s| && ii < 32
      invariant 0 <= ii <= |s| && ii <= 32 && r == s[..ii]
    {
      r := r + [s[ii]];
      ii := ii + 1;
    }
    ghost var written := r;
    while ii < 32
      invariant |written| <= ii <= 32 && |r| == ii && r == written + Zeros(ii - |written|)
    {
      assert Zeros(ii - |written| + 1) == Zeros(ii - |written|) + [0];
      r := r + [0];
      ii := ii + 1;
    }
  }

  /** A push of a number in the least number of bytes. */
  method EmitNumber(bytes: seq<Octet>, value: nat) returns (r: seq<Octet>)
    requires BytesRequired(value) <= 32
    ensures var b := AtLeastOne(BytesRequired(value)); r == bytes + [PUSH1 - 1 + b] + BytesOf(value, b)
  {
    hide BytesOf, BytesRequired;
    var b := if BytesRequired(value) > 1 then BytesRequired(value) else 1;
    r := bytes + [PUSH1 - 1 + b];
    ghost var start := r;
    r := r + Zeros(b);
    r := WriteBigEndian(r, |r| - b, b, value);
    assert start + Zeros(b) == start + Zeros(b);
    assert r == start + BytesOf(value, b);
  }

  lemma {:induction false} WordBytes(v: Word)
    ensures BytesRequired(v) <= 32
  {
    Pow2At256();
    BytesRequiredBound(v, 32);
  }

  /** One item without tag bookkeeping; references leave a gap of zeros. */
  method EmitItem(x: Input, w: Widths, k: nat, bytes: seq<Octet>) returns (ok: bool, r: seq<Octet>)
    requires k < |x.items| && w.tag <= 32 && w.data <= 32
    requires (forall i :: 0 <= i < |x.subs| ==> BytesRequired(|x.subs[i].bytecode|) <= 32)
    ensures IsTag(x.items[k]) ==> ok
    ensures !IsTag(x.items[k]) ==> ok == ItemOk(x, w, k)
    ensures ok ==> r == bytes + Encode(x.items[k], OperandWidth(x, w, x.items[k]), Filled(x, w, {})[k])
  {
    hide BytesOf, BytesRequired, Target, DataIndex, SubOffset, DataOffset, TotalSize, Low, PaddedString, FromBytes;
    hide Position, Offset;
    var item := x.items[k];
    ok, r := true, bytes;
    match item {
      case Undefined(_) => ok := false;
      case Operation(op) => r := bytes + [op]; NoBytes(0);
      case Data(kind, data) =>
        match kind {
          case Tag => r := bytes + [JUMPDEST]; NoBytes(0);
          case Push => WordBytes(data); r := EmitNumber(bytes, data);
          case PushString =>
            if data !in x.strings { return false, bytes; }
            var text := WriteString(x.strings[data]);
            NumberRoundTrip(text);
            r := bytes + [PUSH32] + text;
          case PushSubSize =>
            if Cut(data) >= |x.subs| { return false, bytes; }
            r := EmitNumber(bytes, |x.subs[Cut(data)].bytecode|);
          case PushTag => r := bytes + [PUSH1 - 1 + w.tag] + Zeros(w.tag); ZeroBytes(w.tag);
          case PushData => r := bytes + [PUSH1 - 1 + w.data] + Zeros(w.data); ZeroBytes(w.data);
          case PushSub => r := bytes + [PUSH1 - 1 + w.data] + Zeros(w.data); ZeroBytes(w.data);
          case PushProgramSize => r := bytes + [PUSH1 - 1 + w.data] + Zeros(w.data); ZeroBytes(w.data);
          case PushLibraryAddress =>
            if data !in x.libraries { return false, bytes; }
            r := bytes + [PUSH20] + Zeros(20);
            ZeroBytes(20);
          case PushDeployTimeAddress => r := bytes + [PUSH20] + Zeros(20); ZeroBytes(20);
        }
    }
  }

  ghost predicate WidthsOk(x: Input, w: Widths) {
    w.tag <= 32 && w.data <= 32 && forall i :: 0 <= i < |x.subs| ==> BytesRequired(|x.subs[i].bytecode|) <= 32
  }

  function PositionsOf(x: Input, w: Widths, n: nat): (r: seq<Option<nat>>)
    requires n <= |x.items|
    ensures |r| == x.usedTags
  {
    seq(x.usedTags, t requires 0 <= t < x.usedTags => Position(x, w, n, t))
  }

  /** Setting the position of the tag an item marks. */
  lemma {:induction false} NextPosition(x: Input, w: Widths, n: nat, t: nat)
    requires n < |x.items| && t < x.usedTags && Marks(x.items[n], t)
    requires IsTag(x.items[n]) ==> Position(x, w, n, t).None?
    ensures PositionsOf(x, w, n + 1) ==
            if Position(x, w, n, t).None? then PositionsOf(x, w, n)[t := Some(Offset(x, w, n))] else PositionsOf(x, w, n)
  {
    hide Offset, Cut;
    forall u: nat | u < x.usedTags
      ensures Position(x, w, n + 1, u) == if u == t && Position(x, w, n, t).None? then Some(Offset(x, w, n)) else Position(x, w, n, u)
    {
      if u != t { assert !Marks(x.items[n], u); }
    }
  }

  datatype Refs = Refs(tags: seq<Ref>, data: seq<Ref>, subs: seq<Ref>, sizes: seq<Ref>)

  function AllRefs(x: Input, w: Widths, n: nat): Refs
    requires n <= |x.items|
  {
    Refs(RefsOf(x, w, PushTag, n), RefsOf(x, w, PushData, n), RefsOf(x, w, PushSub, n), RefsOf(x, w, PushProgramSize, n))
  }

  /** Notes a reference whose operand starts at the given position. */
  function Noted(refs: Refs, item: Item, at: nat): Refs {
    if !item.Data? then refs
    else if item.kind == PushTag then refs.(tags := refs.tags + [Ref(at, RefKey(item))])
    else if item.kind == PushData then refs.(data := refs.data + [Ref(at, RefKey(item))])
    else if item.kind == PushSub then refs.(subs := refs.subs + [Ref(at, RefKey(item))])
    else if item.kind == PushProgramSize then refs.(sizes := refs.sizes + [Ref(at, RefKey(item))])
    else refs
  }

  lemma {:induction false} NextRefs(x: Input, w: Widths, n: nat)
    requires n < |x.items|
    ensures AllRefs(x, w, n + 1) == Noted(AllRefs(x, w, n), x.items[n], Offset(x, w, n) + 1)
  {
    hide Offset, RefKey;
    assert forall s: seq<Ref> :: s + [] == s;
  }

  /** All items in order; fails on items that cannot be assembled and on bad tags. */
  method EmitItems(x: Input, w: Widths) returns (ok: bool, bytes: seq<Octet>, positions: seq<Option<nat>>, refs: Refs)
    requires Wellformed(x) && WidthsOk(x, w)
    ensures ok == forall k :: 0 <= k < |x.items| ==> ItemOk(x, w, k)
    ensures ok ==> bytes == CodeOf(x, w, Filled(x, w, {})) && positions == PositionsOf(x, w, |x.items|)
    ensures ok ==> refs == AllRefs(x, w, |x.items|)
  {
    hide Filled, Encode, OperandWidth, CodeOf, RefsOf, RefKey, PositionsOf, Noted, ItemOk;
    ok, bytes, refs := true, [], Refs([], [], [], []);
    positions := seq(x.usedTags, _ => None);
    var i := 0;
    StartOfCode(x, w, positions);
    assert Filled(x, w, {})[..0] == [];
    while i < |x.items|
      invariant 0 <= i <= |x.items| && forall k :: 0 <= k < i ==> ItemOk(x, w, k)
      invariant bytes == CodeOf(x, w, Filled(x, w, {})[..i])
      invariant positions == PositionsOf(x, w, i) && refs == AllRefs(x, w, i)
    {
      var item := x.items[i];
      ghost var values := Filled(x, w, {});
      CodeLength(x, w, values[..i]);
      CodeSnoc(x, w, values[..i], values[i]);
      assert values[..i] + [values[i]] == values[..i + 1];
      NextRefs(x, w, i);
      var marked;
      marked, positions := NotePosition(x, w, i, |bytes|, positions);
      if !marked { return false, bytes, positions, refs; }
      refs := Noted(refs, item, |bytes| + 1);
      var fine;
      fine, bytes := EmitItem(x, w, i, bytes);
      if !fine { return false, bytes, positions, refs; }
      i := i + 1;
    }
    assert Filled(x, w, {})[..i] == Filled(x, w, {});
  }

  lemma {:induction false} StartOfCode(x: Input, w: Widths, positions: seq<Option<nat>>)
    requires positions == seq(x.usedTags, _ => None)
    ensures CodeOf(x, w, []) == [] && positions == PositionsOf(x, w, 0) && AllRefs(x, w, 0) == Refs([], [], [], [])
  {
  }

  /** The position of a tag, or of the first item that is no tag. */
  method NotePosition(x: Input, w: Widths, k: nat, size: nat, positions: seq<Option<nat>>) returns (ok: bool,
      r: seq<Option<nat>>)
    requires Wellformed(x) && k < |x.items| && size == Offset(x, w, k) && positions == PositionsOf(x, w, k)
    ensures ok == (IsTag(x.items[k]) ==> ItemOk(x, w, k))
    ensures ok ==> r == PositionsOf(x, w, k + 1)
  {
    hide Offset, Cut, Position;
    ok, r := true, positions;
    var item := x.items[k];
    if !IsTag(item) {
      NextPosition(x, w, k, 0);
      if positions[0].None? { r := positions[0 := Some(size)]; }
    } else {
      if item.data == 0 || !IsLocal(item.data) || size >= 0xffff_ffff { return false, r; }
      if positions[Cut(item.data)].Some? { return false, r; }
      NextPosition(x, w, k, Cut(item.data));
      r := positions[Cut(item.data) := Some(size)];
    }
  }

  // ----- filling the gaps -----

  /** One reference filled in. */
  method FillIn(x: Input, w: Widths, ghost values: seq<nat>, ghost tail: seq<Octet>, bytes: seq<Octet>, kind: Kind,
      refs: seq<Ref>, j: nat, width: nat, value: nat)
    returns (r: seq<Octet>)
    requires refs == RefsOf(x, w, kind, |x.items|) && j < |refs| && |values| == |x.items|
    requires bytes == CodeOf(x, w, values) + tail
    requires forall k :: 0 <= k < |x.items| && Is(x.items[k], kind) ==> OperandWidth(x, w, x.items[k]) == width
    ensures |Owners(x, kind, |x.items|)| == |refs|
    ensures var k := Owners(x, kind, |x.items|)[j];
            && k < |values| && Is(x.items[k], kind) && refs[j].key == RefKey(x.items[k])
            && r == CodeOf(x, w, values[k := Low(value, width)]) + tail
  {
    hide RefsOf, Owners, OperandWidth, Offset, BytesOf, CodeOf, RefKey;
    OwnerOf(x, w, kind, |x.items|, j);
    ghost var k := Owners(x, kind, |x.items|)[j];
    PatchOperand(x, w, values, k, Low(value, width));
    LowBytes(value, width);
    PatchedLeft(CodeOf(x, w, values), tail, refs[j].at, BytesOf(value, width));
    r := WriteBigEndian(bytes, refs[j].at, width, value);
  }

  /** All references to one key get the same value. */
  function Assigned(x: Input, values: seq<nat>, kind: Kind, key: nat, value: nat): (r: seq<nat>)
    requires |values| == |x.items|
    ensures |r| == |values|
  {
    seq(|values|, k requires 0 <= k < |values| => if Is(x.items[k], kind) && RefKey(x.items[k]) == key then value else values[k])
  }

  method FillKey(x: Input, w: Widths, ghost values: seq<nat>, ghost tail: seq<Octet>, bytes: seq<Octet>, kind: Kind,
      refs: seq<Ref>, key: nat, width: nat, value: nat)
    returns (r: seq<Octet>)
    requires refs == RefsOf(x, w, kind, |x.items|) && |values| == |x.items| && bytes == CodeOf(x, w, values) + tail
    requires forall k :: 0 <= k < |x.items| && Is(x.items[k], kind) ==> OperandWidth(x, w, x.items[k]) == width
    ensures r == CodeOf(x, w, Assigned(x, values, kind, key, Low(value, width))) + tail
  {
    hide RefsOf, Owners, OperandWidth, CodeOf, Low, RefKey;
    r := bytes;
    ghost var now: seq<nat> := values;
    ghost var owners := Owners(x, kind, |x.items|);
    OwnersMatch(x, w, kind, |x.items|);
    for j := 0 to |refs|
      invariant |now| == |values| && r == CodeOf(x, w, now) + tail
      invariant forall k :: 0 <= k < |now| ==> now[k] == values[k] || (Is(x.items[k], kind) && RefKey(x.items[k]) == key && now[k] == Low(value, width))
      invariant forall i :: 0 <= i < j && owners[i] < |now| && Is(x.items[owners[i]], kind) && RefKey(x.items[owners[i]]) == key ==> now[owners[i]] == Low(value, width)
    {
      OwnerOf(x, w, kind, |x.items|, j);
      if refs[j].key == key {
        r := FillIn(x, w, now, tail, r, kind, refs, j, width, value);
        now := now[owners[j] := Low(value, width)];
      }
    }
    forall k | 0 <= k < |now| ensures now[k] == Assigned(x, values, kind, key, Low(value, width))[k] {
      if Is(x.items[k], kind) && RefKey(x.items[k]) == key { OwnedBy(x, kind, |x.items|, k); }
    }
    assert now == Assigned(x, values, kind, key, Low(value, width));
  }

  predicate HasRef(refs: seq<Ref>, key: nat) { exists j :: 0 <= j < |refs| && refs[j].key == key }

  lemma {:induction false} HasRefRefers(x: Input, w: Widths, kind: Kind, key: nat)
    ensures HasRef(RefsOf(x, w, kind, |x.items|), key) == Refers(x, kind, key)
  {
    hide RefsOf, Owners, RefKey;
    var n, refs := |x.items|, RefsOf(x, w, kind, |x.items|);
    if HasRef(refs, key) {
      var j :| 0 <= j < |refs| && refs[j].key == key;
      OwnerOf(x, w, kind, n, j);
    }
    if Refers(x, kind, key) {
      var k :| 0 <= k < n && Is(x.items[k], kind) && RefKey(x.items[k]) == key;
      OwnedBy(x, kind, n, k);
      OwnersMatch(x, w, kind, n);
      var j :| 0 <= j < |refs| && Owners(x, kind, n)[j] == k;
      OwnerOf(x, w, kind, n, j);
      assert refs[j].key == key;
    }
  }

  // ----- sub-assemblies -----

  /** The operands when the references to the first sub-assemblies have been filled in. */
  function SubValues(x: Input, w: Widths, n: nat): (r: seq<nat>)
    ensures |r| == |x.items|
  {
    seq(|x.items|, k requires 0 <= k < |x.items| =>
      if Is(x.items[k], PushSub) && RefKey(x.items[k]) < n then Operand(x, w, k) else Filled(x, w, {})[k])
  }

  lemma {:induction false} NextSub(x: Input, w: Widths, i: nat)
    requires i < |x.subs|
    ensures SubValues(x, w, i + 1) == Assigned(x, SubValues(x, w, i), PushSub, i, Low(SubOffset(x, w, i), w.data))
    ensures !Refers(x, PushSub, i) ==> SubValues(x, w, i + 1) == SubValues(x, w, i)
  {
    hide Filled, SubOffset, Low, Target, DataIndex, DataOffset, TotalSize, SubTail;
  }

  lemma {:induction false} SubsDone(x: Input, w: Widths)
    ensures SubValues(x, w, 0) == Filled(x, w, {}) && SubValues(x, w, |x.subs|) == Filled(x, w, {PushSub})
  {
    hide SubOffset, Low, Target, DataIndex, DataOffset, TotalSize, SubTail;
  }

  method AppendSubs(x: Input, w: Widths, bytes: seq<Octet>, refs: seq<Ref>) returns (r: seq<Octet>)
    requires bytes == CodeOf(x, w, Filled(x, w, {})) + Gap(x) && refs == RefsOf(x, w, PushSub, |x.items|)
    ensures r == CodeOf(x, w, Filled(x, w, {PushSub})) + Gap(x) + SubTail(x, |x.subs|)
  {
    hide RefsOf, CodeOf, Filled, SubValues, Low, RefKey, Refers, HasRef, Operand, Gap, Assigned;
    r := bytes;
    SubsDone(x, w);
    assert Gap(x) + SubTail(x, 0) == Gap(x);
    for i := 0 to |x.subs|
      invariant r == CodeOf(x, w, SubValues(x, w, i)) + (Gap(x) + SubTail(x, i))
    {
      NextSub(x, w, i);
      HasRefRefers(x, w, PushSub, i);
      CodeLength(x, w, SubValues(x, w, i));
      if HasRef(refs, i) {
        r := FillKey(x, w, SubValues(x, w, i), Gap(x) + SubTail(x, i), r, PushSub, refs, i, w.data, |r|);
        assert Gap(x) + SubTail(x, i) + x.subs[i].bytecode == Gap(x) + (SubTail(x, i) + x.subs[i].bytecode);
        r := r + x.subs[i].bytecode;
      } else {
        assert SubTail(x, i) + [] == SubTail(x, i);
      }
    }
  }

  // ----- tags -----

  lemma {:induction false} TagDone(x: Input, w: Widths, values: seq<nat>)
    requires |values| == |x.items|
    requires forall k :: 0 <= k < |values| ==>
              if Is(x.items[k], PushTag) then values[k] == Operand(x, w, k) else values[k] == Filled(x, w, {PushSub})[k]
    ensures values == Filled(x, w, {PushSub, PushTag})
  {
    hide Operand;
  }

  /** Where a tag reference leads. */
  method Resolve(x: Input, w: Widths, data: Word, positions: seq<Option<nat>>) returns (r: Option<nat>)
    requires positions == PositionsOf(x, w, |x.items|)
    ensures r == Target(x, w, data)
  {
    hide Position;
    var t := Cut(data);
    if IsLocal(data) {
      if t >= |positions| { return None; }
      r := positions[t];
    } else {
      var s := SubOf(data);
      if s >= |x.subs| || t >= |x.subs[s].positions| { return None; }
      r := x.subs[s].positions[t];
    }
  }

  lemma {:induction false} LowExact(v: nat, width: nat)
    requires BytesRequired(v) <= width
    ensures Low(v, width) == v < Pow2(8 * width)
  {
    hide Pow2, BytesRequired;
    BytesRequiredEnough(v);
    Pow2Monotone(8 * BytesRequired(v), 8 * width);
    SmallRemainder(v, Pow2(8 * width));
  }

  lemma {:induction false} SmallRemainder(v: nat, p: nat)
    requires p > 0
    ensures v % p == v <==> v < p
  {
  }

  method FillTags(x: Input, w: Widths, ghost tail: seq<Octet>, bytes: seq<Octet>, refs: seq<Ref>,
      positions: seq<Option<nat>>) returns (ok: bool, r: seq<Octet>)
    requires bytes == CodeOf(x, w, Filled(x, w, {PushSub})) + tail && refs == RefsOf(x, w, PushTag, |x.items|)
    requires positions == PositionsOf(x, w, |x.items|)
    ensures ok == forall k :: 0 <= k < |x.items| ==> ReferenceOk(x, w, x.items[k])
    ensures ok ==> r == CodeOf(x, w, Filled(x, w, {PushSub, PushTag})) + tail
  {
    hide RefsOf, Owners, CodeOf, Filled, Low, Operand, Target, BytesRequired, PositionsOf;
    ok, r := true, bytes;
    ghost var start := Filled(x, w, {PushSub});
    ghost var now: seq<nat> := start;
    ghost var n := |x.items|;
    ghost var owners := Owners(x, PushTag, n);
    OwnersMatch(x, w, PushTag, n);
    for j := 0 to |refs|
      invariant |now| == n == |start| && r == CodeOf(x, w, now) + tail
      invariant forall k :: 0 <= k < n ==> now[k] == start[k] || (Is(x.items[k], PushTag) && now[k] == Operand(x, w, k))
      invariant forall i :: 0 <= i < j && owners[i] < n ==>
                now[owners[i]] == Operand(x, w, owners[i]) && ReferenceOk(x, w, x.items[owners[i]])
    {
      OwnerOf(x, w, PushTag, n, j);
      var pos := Resolve(x, w, refs[j].key, positions);
      if pos.None? || BytesRequired(pos.value) > w.tag {
        assert !ReferenceOk(x, w, x.items[owners[j]]);
        return false, r;
      }
      LowExact(pos.value, w.tag);
      TagOperand(x, w, owners[j]);
      r := FillIn(x, w, now, tail, r, PushTag, refs, j, w.tag, pos.value);
      now := now[owners[j] := pos.value];
    }
    forall k | 0 <= k < n
      ensures ReferenceOk(x, w, x.items[k]) && (Is(x.items[k], PushTag) ==> now[k] == Operand(x, w, k))
    {
      if Is(x.items[k], PushTag) { OwnedBy(x, PushTag, n, k); }
    }
    TagDone(x, w, now);
  }

  lemma {:induction false} TagOperand(x: Input, w: Widths, k: nat)
    requires k < |x.items| && Is(x.items[k], PushTag) && Target(x, w, x.items[k].data).Some?
    ensures Operand(x, w, k) == Target(x, w, x.items[k].data).value
  {
    hide Target;
  }

  // ----- data -----

  predicate Known(x: Input, key: nat, n: nat)
    requires n <= |x.data|
  {
    exists i :: 0 <= i < n && x.data[i].0 == key
  }

  function DataValues(x: Input, w: Widths, n: nat): (r: seq<nat>)
    requires n <= |x.data|
    ensures |r| == |x.items|
  {
    seq(|x.items|, k requires 0 <= k < |x.items| =>
      if Is(x.items[k], PushData) && Known(x, RefKey(x.items[k]), n) then Operand(x, w, k) else Filled(x, w, {PushSub, PushTag})[k])
  }

  function KeyAt(x: Input, k: nat): nat
    requires k < |x.items|
  {
    if x.items[k].Data? then RefKey(x.items[k]) else 0
  }

  lemma {:induction false} NextData(x: Input, w: Widths, j: nat)
    requires DistinctData(x) && j < |x.data|
    ensures DataValues(x, w, j + 1) == Assigned(x, DataValues(x, w, j), PushData, x.data[j].0, Low(DataOffset(x, w, j), w.data))
    ensures !Refers(x, PushData, x.data[j].0) ==> DataValues(x, w, j + 1) == DataValues(x, w, j)
  {
    hide Filled, SubOffset, Low, Target, DataOffset, TotalSize;
    var key := x.data[j].0;
    assert DataIndex(x.data, key).value == j;
    forall k | 0 <= k < |x.items|
      ensures Known(x, KeyAt(x, k), j + 1) == (Known(x, KeyAt(x, k), j) || KeyAt(x, k) == key)
    {
      assert x.data[j].0 == key;
    }
  }

  lemma {:induction false} DataDone(x: Input, w: Widths)
    ensures DataValues(x, w, 0) == Filled(x, w, {PushSub, PushTag})
    ensures DataValues(x, w, |x.data|) == Filled(x, w, {PushSub, PushTag, PushData})
  {
    hide SubOffset, Low, Target, DataOffset, TotalSize;
  }

  method AppendData(x: Input, w: Widths, bytes: seq<Octet>, refs: seq<Ref>) returns (r: seq<Octet>)
    requires DistinctData(x)
    requires bytes == CodeOf(x, w, Filled(x, w, {PushSub, PushTag})) + (Gap(x) + SubTail(x, |x.subs|))
    requires refs == RefsOf(x, w, PushData, |x.items|)
    ensures r == CodeOf(x, w, Filled(x, w, {PushSub, PushTag, PushData})) + (Gap(x) + SubTail(x, |x.subs|) + DataTail(x, |x.data|))
  {
    hide RefsOf, CodeOf, Filled, DataValues, Low, RefKey, Refers, HasRef, Operand, Gap, Assigned, SubTail, DistinctData;
    r := bytes;
    ghost var before := Gap(x) + SubTail(x, |x.subs|);
    DataDone(x, w);
    assert before + DataTail(x, 0) == before;
    for j := 0 to |x.data|
      invariant r == CodeOf(x, w, DataValues(x, w, j)) + (before + DataTail(x, j))
    {
      NextData(x, w, j);
      HasRefRefers(x, w, PushData, x.data[j].0);
      CodeLength(x, w, DataValues(x, w, j));
      if HasRef(refs, x.data[j].0) {
        r := FillKey(x, w, DataValues(x, w, j), before + DataTail(x, j), r, PushData, refs, x.data[j].0, w.data, |r|);
        assert before + DataTail(x, j) + x.data[j].1 == before + (DataTail(x, j) + x.data[j].1);
        r := r + x.data[j].1;
      } else {
        assert DataTail(x, j) + [] == DataTail(x, j);
      }
    }
  }

  // ----- program size -----

  lemma {:induction false} SizesDone(x: Input, w: Widths, values: seq<nat>)
    requires |values| == |x.items|
    requires forall k :: 0 <= k < |values| ==>
               values[k] == if Is(x.items[k], PushProgramSize) then Low(TotalSize(x, w), w.data) else Filled(x, w, {PushSub, PushTag, PushData})[k]
    ensures values == Operands(x, w)
  {
    hide SubOffset, Low, Target, DataIndex, DataOffset, TotalSize, SubTail, DataTail;
  }

  method FillSizes(x: Input, w: Widths, bytes: seq<Octet>, refs: seq<Ref>) returns (r: seq<Octet>)
    requires bytes == CodeOf(x, w, Filled(x, w, {PushSub, PushTag, PushData})) + Tail(x)
    requires refs == RefsOf(x, w, PushProgramSize, |x.items|)
    ensures r == CodeOf(x, w, Operands(x, w)) + Tail(x)
  {
    hide RefsOf, Owners, CodeOf, Filled, Low, Operand, Operands, Gap, SubTail, DataTail;
    r := bytes;
    ghost var start := Filled(x, w, {PushSub, PushTag, PushData});
    ghost var now: seq<nat> := start;
    ghost var n := |x.items|;
    ghost var owners := Owners(x, PushProgramSize, n);
    OwnersMatch(x, w, PushProgramSize, n);
    CodeLength(x, w, start);
    assert |bytes| == TotalSize(x, w);
    for j := 0 to |refs|
      invariant |now| == n == |start| && r == CodeOf(x, w, now) + Tail(x) && |r| == |bytes|
      invariant forall k :: 0 <= k < n ==>
                now[k] == start[k] || (Is(x.items[k], PushProgramSize) && now[k] == Low(|bytes|, w.data))
      invariant forall i :: 0 <= i < j && owners[i] < n ==> now[owners[i]] == Low(|bytes|, w.data)
    {
      OwnerOf(x, w, PushProgramSize, n, j);
      r := FillIn(x, w, now, Tail(x), r, PushProgramSize, refs, j, w.data, |r|);
      now := now[owners[j] := Low(|bytes|, w.data)];
      CodeLength(x, w, now);
    }
    forall k | 0 <= k < n ensures Is(x.items[k], PushProgramSize) ==> now[k] == Low(|bytes|, w.data) {
      if Is(x.items[k], PushProgramSize) { OwnedBy(x, PushProgramSize, n, k); }
    }
    SizesDone(x, w, now);
  }

  // ----- the whole assembler -----

  lemma {:induction false} SubFits(subs: seq<Sub>, i: nat)
    requires i < |subs|
    ensures |subs[i].bytecode| <= SubsBytes(subs)
    decreases |subs|
  {
    if i < |subs| - 1 { SubFits(subs[..|subs| - 1], i); }
  }

  lemma {:induction false} SmallWidth(v: nat)
    requires v < 0x1_0000_0000
    ensures BytesRequired(v) <= 4
  {
    assert Pow2(32) == 0x1_0000_0000 by { assert Pow2(8) == 256; Pow2Square(8, 256); Pow2Square(16, 0x1_0000); }
    BytesRequiredBound(v, 4);
  }

  lemma {:induction false} WidthsFit(x: Input)
    requires FullEstimate(x) < 0x1_0000_0000
    ensures WidthsOk(x, WidthsOf(x)) && WidthsOf(x).tag <= 4 && WidthsOf(x).data <= 4
  {
    hide BytesRequired, CodeEstimate, SubsBytes;
    SmallWidth(CodeEstimate(x));
    SmallWidth(FullEstimate(x));
    forall i | 0 <= i < |x.subs| ensures BytesRequired(|x.subs[i].bytecode|) <= 32 {
      SubFits(x.subs, i);
      SmallWidth(|x.subs[i].bytecode|);
    }
  }

  method Assemble(x: Input) returns (r: Option<Object>)
    requires Wellformed(x)
    ensures r.Some? <==> Assemblable(x)
    ensures r.Some? ==> Assembled(x, r.value)
  {
    hide CodeOf, Filled, Operands, RefsOf, ItemOk, ReferenceOk, BytesRequired, Estimate, FitFrom, SubTagSize, SubsBytes;
    hide SubTail, DataTail, Position, DistinctData;
    for i := 0 to |x.items|
      invariant AllSized(x.items[..i])
    {
      if x.items[i].Undefined? { return None; }
    }
    var subTagSize := LargestTag(x.subs);
    var codeSize := EstimateSize(x, subTagSize);
    var subSize := CountSubs(x.subs);
    var fullSize := codeSize + 1 + |x.auxiliary| + subSize;
    if fullSize >= 0x1_0000_0000 { return None; }
    WidthsFit(x);
    var w := Widths(BytesRequired(codeSize), BytesRequired(fullSize));
    var ok, bytes, positions, refs := EmitItems(x, w);
    if !ok { return None; }
    if x.subs != [] || x.data != [] || x.auxiliary != [] { bytes := bytes + [INVALID]; }
    assert bytes == CodeOf(x, w, Filled(x, w, {})) + Gap(x);
    bytes := AppendSubs(x, w, bytes, refs.subs);
    ghost var tail := Gap(x) + SubTail(x, |x.subs|);
    assert bytes == CodeOf(x, w, Filled(x, w, {PushSub})) + tail;
    ok, bytes := FillTags(x, w, tail, bytes, refs.tags, positions);
    if !ok { return None; }
    bytes := AppendData(x, w, bytes, refs.data);
    bytes := bytes + x.auxiliary;
    assert bytes == CodeOf(x, w, Filled(x, w, {PushSub, PushTag, PushData})) + Tail(x);
    bytes := FillSizes(x, w, bytes, refs.sizes);
    r := Some(Object(bytes, positions));
  }
}
