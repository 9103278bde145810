/** Assembly items: what the optimiser passes read and write. */
module Items {
  import opened Words
  import opened Instructions

  datatype Option<+T> = None | Some(value: T)

  /** The kinds of item that carry data, in the order of the source's enumeration
      (undefined items and operations come first and are constructors of their own). */
  datatype Kind = Push | PushString | PushTag | PushSub | PushSubSize | PushProgramSize
                | Tag | PushData | PushLibraryAddress | PushDeployTimeAddress

  /** `Undefined(h)` stands for the unknown stack element at height h. */
  datatype Item = Undefined(height: int) | Operation(op: Opcode) | Data(kind: Kind, data: Word)

  function PushWord(w: Word): Item { Data(Push, w) }
  function PushTagItem(t: Word): Item { Data(PushTag, t) }
  function TagItem(t: Word): Item { Data(Tag, t) }

  predicate IsTag(i: Item) { i.Data? && i.kind == Tag }
  predicate IsPushTag(i: Item) { i.Data? && i.kind == PushTag }
  predicate IsPushWord(i: Item) { i.Data? && i.kind == Push }
  predicate IsDupItem(i: Item) { i.Operation? && IsDup(i.op) }
  predicate IsSwapItem(i: Item) { i.Operation? && IsSwap(i.op) }
  predicate IsCommutativeItem(i: Item) { i.Operation? && IsCommutative(i.op) }
  predicate IsDeterministicItem(i: Item) { i.Operation? ==> IsDeterministic(i.op) }

  /** So many POPs. */
  function Pops(n: nat): (r: seq<Item>)
    ensures |r| == n && forall i :: 0 <= i < n ==> r[i] == Operation(POP)
  {
    seq(n, _ => Operation(POP))
  }

  predicate NamesTag(i: Item) { IsTag(i) || IsPushTag(i) }

  /** No tag is placed or pushed that was not placed or pushed before. */
  predicate NoNewTags(before: seq<Item>, after: seq<Item>) { forall x :: x in after && NamesTag(x) ==> x in before }

  lemma {:induction false} NothingNew(items: seq<Item>)
    ensures NoNewTags(items, items)
  {
  }

  lemma {:induction false} NoNewTagsConcat(a: seq<Item>, b: seq<Item>, x: seq<Item>, y: seq<Item>)
    requires NoNewTags(a, b) && NoNewTags(x, y)
    ensures NoNewTags(a + x, b + y)
  {
  }

  predicate NoTags(items: seq<Item>) { forall i :: 0 <= i < |items| ==> !IsTag(items[i]) }

  function Arguments(i: Item): nat {
    if i.Operation? then InfoOf(i.op).args else 0
  }

  function ReturnValues(i: Item): nat {
    match i
    case Undefined(_) => 0
    case Operation(op) => InfoOf(op).ret
    case Data(kind, _) => if kind == Tag then 0 else 1
  }

  function Deposit(i: Item): int { ReturnValues(i) - Arguments(i) }

  /** The number of bytes needed for a number, zero for zero. */
  function BytesRequired(x: nat): (r: nat)
    ensures x > 0 ==> r > 0
    ensures x < 256 ==> r <= 1
  {
    if x == 0 then 0 else 1 + BytesRequired(x / 256)
  }

  /** Size estimate of an item when addresses take `addressLength` bytes. Items that
      cannot be assembled have no size. */
  function ItemBytes(i: Item, addressLength: nat): Option<nat> {
    match i
    case Undefined(_) => None
    case Operation(_) => Some(1)
    case Data(kind, data) =>
      match kind
      case Tag => Some(1)
      case PushString => Some(33)
      case Push => Some(1 + (if data == 0 then 1 else BytesRequired(data)))
      case PushSubSize => Some(5)
      case PushProgramSize => Some(5)
      case PushTag => Some(1 + addressLength)
      case PushData => Some(1 + addressLength)
      case PushSub => Some(1 + addressLength)
      case PushLibraryAddress => Some(21)
      case PushDeployTimeAddress => Some(21)
  }
}
