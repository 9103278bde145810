/** Unifying blocks with the same content. */
module Deduplicator {
  import opened Words
  import opened Instructions
  import opened Items
  import opened Machine
  import opened Segments
  import opened TagRelation
  import opened Bisimulation
  import opened TagData

  // ----- order of items and of sequences of items -----

  function TypeRank(i: Item): nat {
    match i
    case Undefined(_) => 0
    case Operation(_) => 1
    case Data(kind, _) =>
      match kind
      case Push => 2
      case PushString => 3
      case PushTag => 4
      case PushSub => 5
      case PushSubSize => 6
      case PushProgramSize => 7
      case Tag => 8
      case PushData => 9
      case PushLibraryAddress => 10
      case PushDeployTimeAddress => 11
  }

  function Content(i: Item): int {
    match i
    case Undefined(h) => h
    case Operation(op) => op
    case Data(_, d) => d
  }

  predicate ItemLess(a: Item, b: Item) {
    TypeRank(a) < TypeRank(b) || (TypeRank(a) == TypeRank(b) && Content(a) < Content(b))
  }

  lemma {:induction false} ItemOrder(a: Item, b: Item)
    ensures a == b <==> !ItemLess(a, b) && !ItemLess(b, a)
  {
  }

  predicate LexLess(x: seq<Item>, y: seq<Item>)
    decreases |x|
  {
    |y| > 0 && (|x| == 0 || ItemLess(x[0], y[0]) || (!ItemLess(y[0], x[0]) && LexLess(x[1..], y[1..])))
  }

  /** Sequences that are not ordered either way are equal. */
  lemma {:induction false} LexTotal(x: seq<Item>, y: seq<Item>)
    ensures x == y <==> !LexLess(x, y) && !LexLess(y, x)
    decreases |x|
  {
    hide ItemLess;
    if |x| > 0 && |y| > 0 {
      ItemOrder(x[0], y[0]);
      LexTotal(x[1..], y[1..]);
      assert x == [x[0]] + x[1..] && y == [y[0]] + y[1..];
    }
  }

  lemma {:induction false} LexTransitive(x: seq<Item>, y: seq<Item>, z: seq<Item>)
    requires LexLess(x, y) && LexLess(y, z)
    ensures LexLess(x, z)
    decreases |x|
  {
    if |x| > 0 && !ItemLess(x[0], y[0]) && !ItemLess(y[0], z[0]) {
      ItemOrder(x[0], y[0]);
      ItemOrder(y[0], z[0]);
      LexTransitive(x[1..], y[1..], z[1..]);
    }
  }

  // ----- the normalised content of a block -----

  /** Stands for "the block itself", so that loops can be compared. */
  const SELF: Word := MODULUS - 4

  function KeyItem(own: Word, item: Item): Item { if item == PushTagItem(own) then PushTagItem(SELF) else item }

  function KeyFrom(items: seq<Item>, own: Word, i: nat): seq<Item>
    decreases |items| - i
  {
    if i >= |items| then []
    else if IsTag(items[i]) then KeyFrom(items, own, i + 1)
    else if EndsBlock(items[i]) then [KeyItem(own, items[i])]
    else [KeyItem(own, items[i])] + KeyFrom(items, own, i + 1)
  }

  /** The content of the block at a tag: tags skipped, up to the end of the control flow, pushes of
      its own tag made anonymous. */
  function Key(items: seq<Item>, i: nat): seq<Item>
    requires i < |items| && IsTag(items[i])
  {
    KeyFrom(items, items[i].data, i + 1)
  }

  predicate Less(items: seq<Item>, i: nat, j: nat)
    requires i < |items| && j < |items| && IsTag(items[i]) && IsTag(items[j])
  {
    i != j && LexLess(Key(items, i), Key(items, j))
  }

  /** The comparator is a strict weak order, and blocks are equivalent in it exactly if their contents are equal. */
  lemma {:induction false} ComparatorIsWeakOrder(items: seq<Item>, i: nat, j: nat, k: nat)
    requires i < |items| && j < |items| && k < |items| && IsTag(items[i]) && IsTag(items[j]) && IsTag(items[k])
    ensures !Less(items, i, i)
    ensures Less(items, i, j) && Less(items, j, k) ==> Less(items, i, k)
    ensures !Less(items, i, j) && !Less(items, j, i) <==> Key(items, i) == Key(items, j)
  {
    hide LexLess, Key;
    LexTotal(Key(items, i), Key(items, i));
    LexTotal(Key(items, i), Key(items, j));
    if Less(items, i, j) && Less(items, j, k) { LexTransitive(Key(items, i), Key(items, j), Key(items, k)); }
  }

  predicate NoSelf(items: seq<Item>) { TagItem(SELF) !in items && PushTagItem(SELF) !in items }

  // ----- equal contents, equivalent blocks -----

  lemma {:induction false} KeyHeads(rt: Roots, a: Word, b: Word, x: Item, y: Item)
    requires KeyItem(a, x) == KeyItem(b, y) && x != PushTagItem(SELF) && y != PushTagItem(SELF) && rt(a) == rt(b)
    ensures MapItem(rt, x) == MapItem(rt, y) && EndsBlock(x) == EndsBlock(y)
  {
  }

  lemma {:induction false} KeyImage(items: seq<Item>, rt: Roots, a: Word, b: Word, i: nat, j: nat)
    requires NoSelf(items) && rt(a) == rt(b) && KeyFrom(items, a, i) == KeyFrom(items, b, j)
    ensures Image(items, rt, i) == Image(items, rt, j)
    decreases |items| - i, |items| - j
  {
    hide KeyItem, EndsBlock, MapItem;
    if i < |items| && IsTag(items[i]) {
      KeyImage(items, rt, a, b, i + 1, j);
    } else if j < |items| && IsTag(items[j]) {
      KeyImage(items, rt, a, b, i, j + 1);
    } else if i < |items| && j < |items| {
      var x, y := KeyFrom(items, a, i), KeyFrom(items, b, j);
      assert x[0] == KeyItem(a, items[i]) && y[0] == KeyItem(b, items[j]);
      assert items[i] in items && items[j] in items;
      KeyHeads(rt, a, b, items[i], items[j]);
      if !EndsBlock(items[i]) {
        assert x[1..] == KeyFrom(items, a, i + 1) && y[1..] == KeyFrom(items, b, j + 1);
        KeyImage(items, rt, a, b, i + 1, j + 1);
      }
    }
  }

  /** The roots after two tags were found equivalent. */
  function Merged(rt: Roots, a: Word, b: Word): Roots { (x: Word) => if rt(x) == rt(a) then rt(b) else rt(x) }

  function MergeStep(rt: Roots, a: Word, b: Word, item: Item): Item {
    if IsPushTag(item) && item.data == rt(a) then PushTagItem(rt(b)) else item
  }

  function MapAll(rt: Roots, a: Word, b: Word, x: seq<Item>): (r: seq<Item>)
    ensures |r| == |x| && forall i :: 0 <= i < |x| ==> r[i] == MergeStep(rt, a, b, x[i])
  {
    seq(|x|, i requires 0 <= i < |x| => MergeStep(rt, a, b, x[i]))
  }

  lemma {:induction false} ImageMerged(items: seq<Item>, rt: Roots, a: Word, b: Word, i: nat)
    ensures Image(items, Merged(rt, a, b), i) == MapAll(rt, a, b, Image(items, rt, i))
    decreases |items| - i
  {
    if i < |items| {
      ImageMerged(items, rt, a, b, i + 1);
    }
  }

  lemma {:induction false} CoherentMerge(items: seq<Item>, rt: Roots, i: nat, j: nat)
    requires Coherent(items, rt) && NoSelf(items) && i < |items| && j < |items| && IsTag(items[i]) && IsTag(items[j])
    requires Key(items, i) == Key(items, j)
    ensures Coherent(items, Merged(rt, items[i].data, items[j].data))
  {
    hide Image, KeyFrom;
    var a, b := items[i].data, items[j].data;
    var rt' := Merged(rt, a, b);
    KeyImage(items, rt', a, b, i + 1, j + 1);
    TagImage(items, rt', i);
    TagImage(items, rt', j);
    assert PlacedAt(items, a, i) && PlacedAt(items, b, j);
    forall x: Word, y: Word, m: nat, n: nat | rt'(x) == rt'(y) && PlacedAt(items, x, m) && PlacedAt(items, y, n)
      ensures Image(items, rt', m) == Image(items, rt', n)
    {
      MergedImages(items, rt, i, j, x, m);
      MergedImages(items, rt, i, j, y, n);
      if rt(x) == rt(y) { ImageMerged(items, rt, a, b, m); ImageMerged(items, rt, a, b, n); }
    }
    forall x: Word, y: Word | rt'(x) == rt'(y) && x != y ensures exists k: nat :: PlacedAt(items, y, k) {
      if rt(x) != rt(y) && y != a && y != b { assert rt(y) == rt(a) || rt(y) == rt(b); }
    }
  }

  lemma {:induction false} TagImage(items: seq<Item>, rt: Roots, i: nat)
    requires i < |items| && IsTag(items[i])
    ensures Image(items, rt, i) == Image(items, rt, i + 1)
  {
  }

  /** A block equivalent to one of the two merged blocks has their common image. */
  lemma {:induction false} MergedImages(items: seq<Item>, rt: Roots, i: nat, j: nat, x: Word, m: nat)
    requires Coherent(items, rt) && i < |items| && j < |items| && IsTag(items[i]) && IsTag(items[j])
    requires PlacedAt(items, x, m)
    ensures var a, b := items[i].data, items[j].data; var rt' := Merged(rt, a, b);
            && (rt(x) == rt(a) ==> Image(items, rt', m) == Image(items, rt', i))
            && (rt(x) == rt(b) ==> Image(items, rt', m) == Image(items, rt', j))
  {
    hide Image;
    var a, b := items[i].data, items[j].data;
    assert PlacedAt(items, a, i) && PlacedAt(items, b, j);
    ImageMerged(items, rt, a, b, m);
    ImageMerged(items, rt, a, b, i);
    ImageMerged(items, rt, a, b, j);
  }

  // ----- replacing tags -----

  function ReplacedTag(item: Item, replacements: map<Word, Word>): Item {
    if IsPushTag(item) && IsOwn(item.data) && item.data in replacements then PushTagItem(replacements[item.data]) else item
  }

  /** Replaces the local tags that are pushed. */
  method ApplyTagReplacement(items: seq<Item>, replacements: map<Word, Word>) returns (result: seq<Item>, changed: bool)
    ensures |result| == |items| && forall i :: 0 <= i < |items| ==> result[i] == ReplacedTag(items[i], replacements)
    ensures changed <==> exists i :: 0 <= i < |items| && PushesOneOf(items[i], replacements)
  {
    result, changed := items, false;
    for i := 0 to |items|
      invariant |result| == |items|
      invariant forall k :: 0 <= k < i ==> result[k] == ReplacedTag(items[k], replacements)
      invariant forall k :: i <= k < |items| ==> result[k] == items[k]
      invariant changed <==> exists k :: 0 <= k < i && PushesOneOf(items[k], replacements)
    {
      if PushesOneOf(items[i], replacements) {
        changed := true;
        result := result[i := PushTagItem(replacements[items[i].data])];
      }
    }
  }

  predicate PushesOneOf(item: Item, replacements: map<Word, Word>) {
    IsPushTag(item) && IsOwn(item.data) && item.data in replacements
  }

  /** Every replacement is equivalent to what it replaces and placed earlier. */
  ghost predicate ReplacementsOk(items: seq<Item>, replacements: map<Word, Word>, rt: Roots) {
    forall t :: t in replacements ==> rt(t) == rt(replacements[t]) && Earlier(items, replacements[t], t)
  }

  ghost predicate Earlier(items: seq<Item>, a: Word, b: Word) {
    exists j: nat, k: nat :: j < k && PlacedAt(items, a, j) && PlacedAt(items, b, k)
  }

  lemma {:induction false} ReplacedIsSame(items: seq<Item>, replacements: map<Word, Word>, rt: Roots, result: seq<Item>)
    requires ReplacementsOk(items, replacements, rt)
    requires |result| == |items| && forall i :: 0 <= i < |items| ==> result[i] == ReplacedTag(items[i], replacements)
    ensures SameProgram(rt, items, result)
  {
    hide Earlier;
    forall i | 0 <= i < |items| ensures SameItem(rt, items[i], result[i]) { }
  }

  // ----- what every round lowers -----

  /** The place of a tag, counted from one; zero if it has none. */
  function PlaceOf(items: seq<Item>, t: Word): nat
    decreases |items|
  {
    if |items| == 0 then 0 else if items[|items| - 1] == TagItem(t) then |items| else PlaceOf(items[..|items| - 1], t)
  }

  lemma {:induction false} PlaceIs(items: seq<Item>, t: Word, k: nat)
    requires UniqueTags(items) && PlacedAt(items, t, k)
    ensures PlaceOf(items, t) == k + 1
    decreases |items|
  {
    var n := |items| - 1;
    if k < n {
      assert items[k] == items[..n][k];
      assert items[n] != TagItem(t);
      PlaceIs(items[..n], t, k);
    }
  }

  lemma {:induction false} SamePlace(rt: Roots, p: seq<Item>, q: seq<Item>, t: Word)
    requires SameProgram(rt, p, q)
    ensures PlaceOf(p, t) == PlaceOf(q, t)
    decreases |p|
  {
    if |p| > 0 {
      var n := |p| - 1;
      assert SameItem(rt, p[n], q[n]);
      SamePlace(rt, p[..n], q[..n], t);
    }
  }

  /** The summed places of the tags pushed among the first n items. */
  function PushedPlaces(items: seq<Item>, n: nat): nat
    requires n <= |items|
  {
    if n == 0 then 0
    else PushedPlaces(items, n - 1) + (if IsPushTag(items[n - 1]) then PlaceOf(items, items[n - 1].data) else 0)
  }

  lemma {:induction false} PlacesFall(items: seq<Item>, replacements: map<Word, Word>, rt: Roots, result: seq<Item>,
      n: nat)
    requires UniqueTags(items) && ReplacementsOk(items, replacements, rt) && n <= |items|
    requires |result| == |items| && forall i :: 0 <= i < |items| ==> result[i] == ReplacedTag(items[i], replacements)
    ensures PushedPlaces(result, n) <= PushedPlaces(items, n)
    ensures (exists i :: 0 <= i < n && PushesOneOf(items[i], replacements)) ==>
              PushedPlaces(result, n) < PushedPlaces(items, n)
    decreases n
  {
    hide Earlier, PlaceOf, UniqueTags;
    if n > 0 {
      PlacesFall(items, replacements, rt, result, n - 1);
      ReplacedIsSame(items, replacements, rt, result);
      var x := items[n - 1];
      if IsPushTag(x) {
        SamePlace(rt, items, result, x.data);
        if PushesOneOf(x, replacements) {
          SamePlace(rt, items, result, replacements[x.data]);
          EarlierPlace(items, replacements[x.data], x.data);
        }
      }
    }
  }

  lemma {:induction false} EarlierPlace(items: seq<Item>, a: Word, b: Word)
    requires UniqueTags(items) && Earlier(items, a, b)
    ensures PlaceOf(items, a) < PlaceOf(items, b)
  {
    var j: nat, k: nat :| j < k && PlacedAt(items, a, j) && PlacedAt(items, b, k);
    PlaceIs(items, a, j);
    PlaceIs(items, b, k);
  }

  // ----- the deduplicator -----

  class BlockDeduplicator {
    var items: seq<Item>
    var replacedTags: map<Word, Word>

    constructor (program: seq<Item>)
      ensures items == program && replacedTags == map[]
    {
      items, replacedTags := program, map[];
    }

    /** Among blocks seen so far, one with the content of block i. */
    method FindSeen(seen: seq<nat>, i: nat) returns (r: Option<nat>)
      requires i < |items| && IsTag(items[i]) && (forall k :: 0 <= k < |seen| ==> seen[k] < i && IsTag(items[seen[k]]))
      ensures r.Some? ==> r.value < i && IsTag(items[r.value]) && Key(items, i) == Key(items, r.value)
      ensures r.None? ==> forall k :: 0 <= k < |seen| ==> Key(items, seen[k]) != Key(items, i)
    {
      hide Key, Less;
      for k := 0 to |seen|
        invariant forall m :: 0 <= m < k ==> Key(items, seen[m]) != Key(items, i)
      {
        ComparatorIsWeakOrder(items, i, seen[k], i);
        if !Less(items, i, seen[k]) && !Less(items, seen[k], i) { return Some(seen[k]); }
      }
      r := None;
    }

    /** One round of looking for equal blocks. */
    method FindReplacements(ghost rt: Roots) returns (ghost rt': Roots)
      requires Coherent(items, rt) && NoSelf(items) && UniqueTags(items) && ReplacementsOk(items, replacedTags, rt)
      modifies this`replacedTags
      ensures Coherent(items, rt') && ReplacementsOk(items, replacedTags, rt') && Coarser(rt, rt')
      ensures AllFound(items, replacedTags)
    {
      hide Coherent, Earlier, Key, UniqueTags;
      rt' := rt;
      var seen: seq<nat> := [];
      for i := 0 to |items|
        invariant Coherent(items, rt') && ReplacementsOk(items, replacedTags, rt') && Coarser(rt, rt')
        invariant forall k :: 0 <= k < |seen| ==> seen[k] < i && IsTag(items[seen[k]])
        invariant forall k, m :: 0 <= k < m < |seen| ==> Key(items, seen[k]) != Key(items, seen[m])
        invariant forall k :: 0 <= k < i && IsTag(items[k]) ==> k in seen || items[k].data in replacedTags
      {
        if IsTag(items[i]) {
          var found := FindSeen(seen, i);
          if found.None? {
            seen := seen + [i];
          } else {
            var a, b := items[i].data, items[found.value].data;
            CoherentMerge(items, rt', i, found.value);
            MergeKeeps(items, replacedTags, rt', i, found.value);
            rt' := Merged(rt', a, b);
            replacedTags := replacedTags[a := b];
          }
        }
      }
      FoundAll(items, replacedTags, seen);
    }

    /** Makes every local jump to a repeated block a jump to its first copy, until nothing changes. */
    method Deduplicate() returns (changed: bool)
      requires UniqueTags(items) && replacedTags == map[]
      modifies this
      ensures Bisimilar(old(items), items) && SameExceptPushes(old(items), items)
      ensures forall i :: 0 <= i < |items| ==> !PushesOneOf(items[i], replacedTags)
      ensures NoSelf(old(items)) ==> AllFound(items, replacedTags)
      ensures changed ==> PushedPlaces(items, |items|) < PushedPlaces(old(items), |old(items)|)
      ensures !changed ==> items == old(items)
      ensures forall t :: t in replacedTags ==> TagItem(t) in old(items) && TagItem(replacedTags[t]) in old(items)
      ensures PushesPlaced(old(items), items)
    {
      hide Coherent, UniqueTags, Bisimilar, NoSelf, SameProgram, AllFound, PushesPlaced;
      PushedBefore(items);
      ghost var rt: Roots := (x: Word) => x;
      IdentityCoherent(items);
      SameAsItself(rt, items);
      SelfOccurs(items);
      if TagItem(SELF) in items || PushTagItem(SELF) in items {
        EquivalentPrograms(rt, items, items);
        return false;
      }
      ghost var program := items;
      var iterations := 0;
      while true
        invariant Coherent(items, rt) && NoSelf(items) && UniqueTags(items) && ReplacementsOk(items, replacedTags, rt)
        invariant SameProgram(rt, program, items) && PushesPlaced(program, items)
        invariant iterations > 0 ==> replacedTags != map[]
        invariant if iterations == 0 then items == program else PushedPlaces(items, |items|) < PushedPlaces(program, |program|)
        decreases PushedPlaces(items, |items|)
      {
        rt := Round(rt, program);
        var result, more := ApplyTagReplacement(items, replacedTags);
        if !more { break; }
        RoundKeeps(program, items, replacedTags, rt, result);
        PlacesFall(items, replacedTags, rt, result, |items|);
        ReplacedPlaced(program, items, replacedTags, rt, result);
        items := result;
        iterations := iterations + 1;
      }
      SameProgramBack(rt, program, items);
      CoherentToo(rt, items, program);
      EquivalentPrograms(rt, program, items);
      PushesOnly(rt, program, items);
      ReplacedArePlaced(program, items, replacedTags, rt);
      changed := iterations > 0;
    }

    method Round(ghost rt: Roots, ghost program: seq<Item>) returns (ghost rt': Roots)
      requires Coherent(items, rt) && NoSelf(items) && UniqueTags(items) && ReplacementsOk(items, replacedTags, rt)
      requires SameProgram(rt, program, items)
      modifies this`replacedTags
      ensures Coherent(items, rt') && ReplacementsOk(items, replacedTags, rt') && SameProgram(rt', program, items)
      ensures AllFound(items, replacedTags)
    {
      hide Coherent, UniqueTags, NoSelf, ReplacementsOk, AllFound;
      rt' := FindReplacements(rt);
      CoarserSame(rt, rt', program, items);
    }
  }

  ghost predicate Coarser(rt: Roots, rt': Roots) { forall a: Word, b: Word :: rt(a) == rt(b) ==> rt'(a) == rt'(b) }

  lemma {:induction false} CoarserSame(rt: Roots, rt': Roots, p: seq<Item>, q: seq<Item>)
    requires Coarser(rt, rt') && SameProgram(rt, p, q)
    ensures SameProgram(rt', p, q)
  {
    forall i | 0 <= i < |p| ensures SameItem(rt', p[i], q[i]) { assert SameItem(rt, p[i], q[i]); }
  }

  /** Blocks whose tags are not replaced have different contents. */
  ghost predicate AllFound(items: seq<Item>, replacements: map<Word, Word>) {
    forall i, j :: 0 <= i < j < |items| && IsTag(items[i]) && IsTag(items[j]) && items[i].data !in replacements && items[j].data !in replacements ==>
      Key(items, i) != Key(items, j)
  }

  lemma {:induction false} FoundAll(items: seq<Item>, replacements: map<Word, Word>, seen: seq<nat>)
    requires forall k :: 0 <= k < |seen| ==> seen[k] < |items| && IsTag(items[seen[k]])
    requires forall k, m :: 0 <= k < m < |seen| ==> Key(items, seen[k]) != Key(items, seen[m])
    requires forall k :: 0 <= k < |items| && IsTag(items[k]) ==> k in seen || items[k].data in replacements
    ensures AllFound(items, replacements)
  {
    hide Key;
    forall i, j | 0 <= i < j < |items| && IsTag(items[i]) && IsTag(items[j]) && items[i].data !in replacements && items[j].data !in replacements
      ensures Key(items, i) != Key(items, j)
    {
      var a :| 0 <= a < |seen| && seen[a] == i;
      var b :| 0 <= b < |seen| && seen[b] == j;
      if b < a { assert Key(items, seen[b]) != Key(items, seen[a]); }
    }
  }

  lemma {:induction false} MergeKeeps(items: seq<Item>, replacements: map<Word, Word>, rt: Roots, i: nat, j: nat)
    requires ReplacementsOk(items, replacements, rt) && j < i < |items| && IsTag(items[i]) && IsTag(items[j])
    ensures ReplacementsOk(items, replacements[items[i].data := items[j].data],
                           Merged(rt, items[i].data, items[j].data))
    ensures Coarser(rt, Merged(rt, items[i].data, items[j].data))
  {
    assert PlacedAt(items, items[j].data, j) && PlacedAt(items, items[i].data, i);
    assert Earlier(items, items[j].data, items[i].data);
    hide Earlier;
  }

  lemma {:induction false} IdentityCoherent(items: seq<Item>)
    requires UniqueTags(items)
    ensures Coherent(items, (x: Word) => x)
  {
    hide Image;
    var rt: Roots := (x: Word) => x;
    forall a: Word, b: Word, j: nat, k: nat | rt(a) == rt(b) && PlacedAt(items, a, j) && PlacedAt(items, b, k)
      ensures Image(items, rt, j) == Image(items, rt, k)
    {
      assert j == k;
    }
  }

  lemma {:induction false} SameAsItself(rt: Roots, items: seq<Item>)
    ensures SameProgram(rt, items, items)
  {
  }

  lemma {:induction false} SelfOccurs(items: seq<Item>)
    ensures NoSelf(items) <==> !(TagItem(SELF) in items || PushTagItem(SELF) in items)
  {
  }

  /** Replacing tags by equivalent ones keeps everything that a round relies on. */
  lemma {:induction false} RoundKeeps(program: seq<Item>, items: seq<Item>, replacements: map<Word, Word>, rt: Roots,
      result: seq<Item>)
    requires Coherent(items, rt) && NoSelf(items) && UniqueTags(items) && ReplacementsOk(items, replacements, rt)
    requires SameProgram(rt, program, items)
    requires |result| == |items| && forall i :: 0 <= i < |items| ==> result[i] == ReplacedTag(items[i], replacements)
    ensures Coherent(result, rt) && NoSelf(result) && UniqueTags(result) && ReplacementsOk(result, replacements, rt)
    ensures SameProgram(rt, program, result)
  {
    hide Coherent, UniqueTags, Earlier;
    ReplacedIsSame(items, replacements, rt, result);
    CoherentToo(rt, items, result);
    SameTags(rt, items, result);
    SameTwice(rt, program, items, result);
    forall t | t in replacements ensures Earlier(result, replacements[t], t) && replacements[t] != SELF {
      EarlierToo(rt, items, result, replacements[t], t);
    }
    forall i | 0 <= i < |result|
      ensures result[i] != TagItem(SELF) && result[i] != PushTagItem(SELF)
    { assert items[i] in items; }
  }

  lemma {:induction false} EarlierToo(rt: Roots, p: seq<Item>, q: seq<Item>, a: Word, b: Word)
    requires SameProgram(rt, p, q) && Earlier(p, a, b) && NoSelf(p)
    ensures Earlier(q, a, b) && a != SELF
  {
    var j: nat, k: nat :| j < k && PlacedAt(p, a, j) && PlacedAt(p, b, k);
    SamePlaces(rt, p, q, a, j);
    SamePlaces(rt, p, q, b, k);
    assert p[j] in p;
  }

  lemma {:induction false} SameTwice(rt: Roots, p: seq<Item>, q: seq<Item>, r: seq<Item>)
    requires SameProgram(rt, p, q) && SameProgram(rt, q, r)
    ensures SameProgram(rt, p, r)
  {
    forall i | 0 <= i < |p|
      ensures SameItem(rt, p[i], r[i])
    { assert SameItem(rt, p[i], q[i]) && SameItem(rt, q[i], r[i]); }
  }

  /** Only tags of the program are replaced, by tags of the program. */
  lemma {:induction false} ReplacedArePlaced(program: seq<Item>, items: seq<Item>, replacements: map<Word, Word>,
      rt: Roots)
    requires ReplacementsOk(items, replacements, rt) && SameExceptPushes(program, items)
    ensures forall t :: t in replacements ==> TagItem(t) in program && TagItem(replacements[t]) in program
  {
    forall t | t in replacements ensures TagItem(t) in program && TagItem(replacements[t]) in program {
      var j: nat, k: nat :| j < k && PlacedAt(items, replacements[t], j) && PlacedAt(items, t, k);
      assert program[j] == items[j] && program[k] == items[k];
    }
  }

  /** Every tag item was there before, or pushes a tag that is placed. */
  ghost predicate PushesPlaced(p: seq<Item>, q: seq<Item>) {
    forall x :: x in q ==> x in p || (IsPushTag(x) && TagItem(x.data) in p)
  }

  lemma {:induction false} PushedBefore(p: seq<Item>)
    ensures PushesPlaced(p, p)
  {
  }

  lemma {:induction false} ReplacedPlaced(program: seq<Item>, items: seq<Item>, replacements: map<Word, Word>,
      rt: Roots, result: seq<Item>)
    requires ReplacementsOk(items, replacements, rt) && SameProgram(rt, program, items) && PushesPlaced(program, items)
    requires |result| == |items| && forall i :: 0 <= i < |items| ==> result[i] == ReplacedTag(items[i], replacements)
    ensures PushesPlaced(program, result)
  {
    hide SameProgram, ReplacementsOk;
    PushesOnly(rt, program, items);
    ReplacedArePlaced(program, items, replacements, rt);
    forall x | x in result ensures x in program || (IsPushTag(x) && TagItem(x.data) in program) {
      var i :| 0 <= i < |result| && result[i] == x;
      assert items[i] in items;
    }
  }

  /** Nothing but pushed tags differs. */
  predicate SameExceptPushes(p: seq<Item>, q: seq<Item>) {
    |p| == |q| && forall i :: 0 <= i < |p| ==> p[i] == q[i] || (IsPushTag(p[i]) && IsPushTag(q[i]))
  }

  lemma {:induction false} PushesOnly(rt: Roots, p: seq<Item>, q: seq<Item>)
    requires SameProgram(rt, p, q)
    ensures SameExceptPushes(p, q)
  {
    forall i | 0 <= i < |p|
      ensures p[i] == q[i] || (IsPushTag(p[i]) && IsPushTag(q[i]))
    { assert SameItem(rt, p[i], q[i]); }
  }
}
