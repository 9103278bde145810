/** The data of tag items: a tag number, and in its upper part the sub-assembly it belongs to, if any. */
module TagData {
  import opened Words
  import opened Items

  const TWO64: nat := 0x1_0000_0000_0000_0000
  const TWO128: nat := 0x1_0000_0000_0000_0000_0000_0000_0000_0000

  /** Numbers are cut to the machine's size type. */
  function Cut(x: nat): (r: nat)
    ensures r < TWO64
  {
    x % TWO64
  }

  /** No sub-assembly is named. */
  predicate IsLocal(data: Word) { Cut(data / TWO64) == 0 }

  function SubOf(data: Word): nat
    requires !IsLocal(data)
  {
    Cut(data / TWO64) - 1
  }

  /** The sub-assembly, if any, and the tag. */
  function Split(data: Word): (Option<nat>, nat) { (if IsLocal(data) then None else Some(SubOf(data)), Cut(data)) }

  /** Data put together from a sub-assembly and a tag; the largest number stands for no sub-assembly. */
  function Combine(sub: Option<nat>, tag: nat): (r: Word)
    requires tag < TWO64 && (sub.Some? ==> sub.value < TWO64 - 1)
    ensures r < TWO128
  {
    if sub.None? then tag else (sub.value + 1) * TWO64 + tag
  }

  /** The data of a tag of this assembly, as the assembler hands it out. */
  predicate IsOwn(data: Word) { data < TWO64 }

  /** Splitting and combining undo each other, and on all data ever combined `IsLocal` and `IsOwn` agree. */
  lemma {:induction false} SplitCombined(sub: Option<nat>, tag: nat)
    requires tag < TWO64 && (sub.Some? ==> sub.value < TWO64 - 1)
    ensures Split(Combine(sub, tag)) == (sub, tag)
    ensures IsLocal(Combine(sub, tag)) <==> IsOwn(Combine(sub, tag))
  {
    var high := if sub.None? then 0 else sub.value + 1;
    QuotientIs(Combine(sub, tag), TWO64, high, tag);
  }

  lemma {:induction false} CombinedSplit(data: Word)
    requires data < TWO128
    ensures var (sub, tag) := Split(data); (sub.Some? ==> sub.value < TWO64 - 1) && Combine(sub, tag) == data
    ensures IsLocal(data) <==> IsOwn(data)
  {
    var high, low := data / TWO64, data % TWO64;
    assert data == high * TWO64 + low && high < TWO64;
  }
}
