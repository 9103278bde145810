/** The item list under construction: fragments are appended with their tags renumbered. */
module Assemblies {
  import opened Words
  import opened Instructions
  import opened Items
  import opened Lll
  import opened LllSound
  import opened LllLayout
  import opened LllCorrect
  import opened LllDeposits

  /** Tags are counted in 32 bits. */
  const MAX_TAGS: nat := 0xffff_ffff

  /** Invalid: a fragment leaves too little. Exhausted: no more tags. */
  datatype Status = Fine | Invalid | Exhausted

  class Assembly {
    var items: seq<Item>
    var deposit: int
    var usedTags: nat

    ghost function Contents(): Code
      reads this
    {
      Code(items, deposit, usedTags)
    }

    constructor ()
      ensures Contents() == EMPTY
    {
      items, deposit, usedTags := [], 0, 1;
    }

    method Append(item: Item)
      requires deposit >= 0
      modifies this
      ensures Contents() == AddItem(old(Contents()), item)
    {
      deposit := deposit + Deposit(item);
      items := items + [item];
    }

    method AppendFragment(a: Assembly) returns (status: Status)
      requires a != this && deposit >= 0 && Sane(a.Contents())
      modifies this
      ensures status.Fine? ==> Contents() == AddCode(old(Contents()), a.Contents()) && usedTags <= MAX_TAGS
      ensures status == if old(usedTags) + a.usedTags <= MAX_TAGS then Fine else Exhausted
    {
      hide Deposit, Enough;
      var newDeposit := deposit + a.deposit;
      var i := 0;
      SaneCount(a.Contents());
      EnoughMore(deposit, a.items);
      while i < |a.items|
        invariant 0 <= i <= |a.items| && usedTags == old(usedTags)
        invariant items == old(items) + Shift(a.items[..i], usedTags)
        invariant deposit == old(deposit) + RawSum(a.items[..i])
        invariant Enough(old(deposit), a.items) && (i == |a.items| || deposit >= 0)
      {
        var item := a.items[i];
        if IsTag(item) || IsPushTag(item) { item := Data(item.kind, (item.data + usedTags) % MODULUS); }
        Renumbered(a.items, i, usedTags, item);
        Append(item);
        NextEnough(old(deposit), a.items, i);
        i := i + 1;
      }
      assert a.items[..i] == a.items;
      deposit := newDeposit;
      usedTags := usedTags + a.usedTags;
      status := if usedTags <= MAX_TAGS then Fine else Exhausted;
    }

    /** Appends a fragment and drops what it leaves beyond the wanted deposit. */
    method AppendTrimmed(a: Assembly, wanted: nat) returns (status: Status)
      requires a != this && deposit >= 0 && Sane(a.Contents())
      modifies this
      ensures status.Fine? ==> AddTo(old(Contents()), a.Contents(), wanted) == Some(Contents()) && usedTags <= MAX_TAGS
      ensures status.Invalid? <==> AddTo(old(Contents()), a.Contents(), wanted).None?
    {
      hide Deposit, Sane, Shift;
      if wanted > a.deposit { return Invalid; }
      status := AppendFragment(a);
      if status != Fine { return; }
      var k := wanted;
      assert items + Pops(0) == items;
      ItemDeposits(0);
      ghost var appended := items;
      while k < a.deposit
        invariant wanted <= k <= a.deposit && usedTags == old(usedTags) + a.usedTags
        invariant items == appended + Pops(k - wanted) && deposit == old(deposit) + a.deposit - (k - wanted)
      {
        Append(Operation(POP));
        assert Pops(k - wanted + 1) == Pops(k - wanted) + [Operation(POP)];
        k := k + 1;
      }
    }

    method NewTag() returns (tag: nat, status: Status)
      modifies this
      ensures status == if old(usedTags) < MAX_TAGS then Fine else Exhausted
      ensures tag == old(usedTags)
      ensures status.Fine? ==> Contents() == WithTag(old(Contents()))
    {
      tag := usedTags;
      if usedTags >= MAX_TAGS { return tag, Exhausted; }
      usedTags := usedTags + 1;
      status := Fine;
    }

    method AppendJumpTo(tag: nat)
      requires deposit >= 0
      modifies this
      ensures Contents() == AddJump(old(Contents()), tag) && usedTags == old(usedTags)
    {
      hide Deposit;
      ItemDeposits(tag);
      Append(PushMark(tag));
      Append(Operation(JUMP));
    }

    method AppendJumpITo(tag: nat)
      requires deposit >= 0
      modifies this
      ensures Contents() == AddJumpI(old(Contents()), tag) && usedTags == old(usedTags)
    {
      hide Deposit;
      ItemDeposits(tag);
      Append(PushMark(tag));
      Append(Operation(JUMPI));
    }

    method AppendJump() returns (tag: nat, status: Status)
      requires deposit >= 0
      modifies this
      ensures tag == old(usedTags) && !status.Invalid?
      ensures status.Fine? ==> Contents() == AddJump(WithTag(old(Contents())), tag) && usedTags <= MAX_TAGS
    {
      tag, status := NewTag();
      if status.Fine? { AppendJumpTo(tag); }
    }

    method AppendJumpI() returns (tag: nat, status: Status)
      requires deposit >= 0
      modifies this
      ensures tag == old(usedTags) && !status.Invalid?
      ensures status.Fine? ==> Contents() == AddJumpI(WithTag(old(Contents())), tag) && usedTags <= MAX_TAGS
    {
      tag, status := NewTag();
      if status.Fine? { AppendJumpITo(tag); }
    }
  }

  lemma {:induction false} Renumbered(items: seq<Item>, i: nat, n: nat, item: Item)
    requires i < |items| && item == ShiftItem(items[i], n)
    ensures Shift(items[..i + 1], n) == Shift(items[..i], n) + [item]
    ensures RawSum(items[..i + 1]) == RawSum(items[..i]) + Deposit(item)
  {
    hide Deposit, RawSum, ShiftItem;
    ShiftDeposit(items[i], n);
    assert items[..i + 1] == items[..i] + [items[i]];
    RawSumSnoc(items[..i], items[i]);
  }

  lemma {:induction false} NextEnough(deposit: int, items: seq<Item>, i: nat)
    requires i < |items| && Enough(deposit, items)
    ensures i + 1 == |items| || deposit + RawSum(items[..i + 1]) >= 0
  {
    hide RawSum;
  }
}
