/** Where the parts of compiled LLL code lie in a program. */
module LllLayout {
  import opened Words
  import opened Instructions
  import opened Items
  import opened Lll
  import opened LllSound

  /** A fragment lies at a position, renumbered in some way. */
  ghost predicate Lies(p: seq<Item>, pc: nat, c: Code) { pc + |c.items| <= |p| && exists n: nat :: Placed(p, pc, c, n) }

  lemma {:induction false} PlacedLies(p: seq<Item>, pc: nat, c: Code, n: nat)
    requires Placed(p, pc, c, n)
    ensures Lies(p, pc, c)
  {
  }

  /** A fragment, then what drops the surplus it leaves. */
  ghost predicate TrimmedAt(p: seq<Item>, pc: nat, d: Code, deposit: int) {
    deposit <= d.deposit && Lies(p, pc, d) && CodeAt(p, pc + |d.items|, Pops(d.deposit - deposit))
  }

  function TrimmedSize(d: Code, deposit: int): nat {
    |d.items| + if deposit <= d.deposit then d.deposit - deposit else 0
  }

  lemma {:induction false} AddToLies(p: seq<Item>, pc: nat, c: Code, d: Code, deposit: int, n: nat)
    requires AddTo(c, d, deposit).Some? && Placed(p, pc, AddTo(c, d, deposit).value, n)
    ensures Placed(p, pc, c, n) && TrimmedAt(p, pc + |c.items|, d, deposit)
    ensures |AddTo(c, d, deposit).value.items| == |c.items| + TrimmedSize(d, deposit)
  {
    hide Placed, CodeAt;
    PlacedAddTo(p, pc, c, d, deposit, n);
    PlacedLies(p, pc + |c.items|, d, c.usedTags + n);
  }

  lemma {:induction false} AddCodeLies(p: seq<Item>, pc: nat, c: Code, d: Code, n: nat)
    requires Placed(p, pc, AddCode(c, d), n)
    ensures Placed(p, pc, c, n) && Lies(p, pc + |c.items|, d) && |AddCode(c, d).items| == |c.items| + |d.items|
  {
    hide Placed, Lies;
    PlacedAddCode(p, pc, c, d, n);
    PlacedLies(p, pc + |c.items|, d, c.usedTags + n);
  }

  lemma {:induction false} PlacedMark(p: seq<Item>, pc: nat, c: Code, t: nat, n: nat)
    requires Placed(p, pc, AddItem(c, Mark(t)), n)
    ensures Placed(p, pc, c, n) && pc + |c.items| < |p| && p[pc + |c.items|] == TagItem(TagOf(t, n))
  {
    hide Placed, TagOf;
    PlacedAdd(p, pc, c, Mark(t), n);
    ShiftedMarks(t, n);
  }

  lemma {:induction false} PlacedOperation(p: seq<Item>, pc: nat, c: Code, op: Opcode, n: nat)
    requires Placed(p, pc, AddItem(c, Operation(op)), n)
    ensures Placed(p, pc, c, n) && pc + |c.items| < |p| && p[pc + |c.items|] == Operation(op)
  {
    hide Placed;
    PlacedAdd(p, pc, c, Operation(op), n);
  }

  lemma {:induction false} JumpLies(p: seq<Item>, pc: nat, c: Code, t: nat, conditional: bool, n: nat, k: nat)
    requires Placed(p, pc, if conditional then AddJumpI(c, t) else AddJump(c, t), n) && k < |p|
    requires p[k] == TagItem(TagOf(t, n))
    ensures Placed(p, pc, c, n) && JumpAt(p, pc + |c.items|, if conditional then JUMPI else JUMP, k)
    ensures |AddJumpI(c, t).items| == |AddJump(c, t).items| == |c.items| + 2
  {
    hide Placed, TagOf;
    PlacedJump(p, pc, c, t, conditional, n);
    ShiftedMarks(t, n);
  }

  /** A fragment, possibly ISZERO, and a conditional jump. */
  function AddBranch(c: Code, negate: bool, t: nat): Code {
    AddJumpI(WithTag(if negate then AddItem(c, Operation(ISZERO)) else c), t)
  }

  lemma {:induction false} BranchLies(p: seq<Item>, pc: nat, c: Code, negate: bool, t: nat, n: nat, k: nat)
    requires Placed(p, pc, AddBranch(c, negate, t), n) && k < |p| && p[k] == TagItem(TagOf(t, n))
    ensures Placed(p, pc, c, n) && BranchAt(p, pc + |c.items|, negate, k)
    ensures |AddBranch(c, negate, t).items| == AfterBranch(|c.items|, negate)
  {
    hide CodeAt, TagOf;
    var d := if negate then AddItem(c, Operation(ISZERO)) else c;
    JumpLies(p, pc, WithTag(d), t, true, n, k);
    assert Placed(p, pc, d, n);
    if negate { PlacedOperation(p, pc, c, ISZERO, n); }
  }

  // ----- IF -----

  ghost predicate IfAt(p: seq<Item>, pc: nat, c: Code, yes: Code, no: Code, end: nat) {
    var least := Min(yes.deposit, no.deposit);
    var j := pc + |c.items|;
    var m := j + 2 + TrimmedSize(no, least);
    && Lies(p, pc, c) && BranchAt(p, j, false, m + 2)
    && TrimmedAt(p, j + 2, no, least) && JumpAt(p, m, JUMP, end)
    && TrimmedAt(p, m + 3, yes, least) && end == m + 3 + TrimmedSize(yes, least)
    && end < |p| && IsTag(p[end])
  }

  lemma {:induction false} IfLies(p: seq<Item>, pc: nat, c: Code, yes: Code, no: Code, n: nat)
    requires TranslateIf(Some(c), Some(yes), Some(no)).Some?
    requires Placed(p, pc, TranslateIf(Some(c), Some(yes), Some(no)).value, n)
    ensures IfAt(p, pc, c, yes, no, pc + |TranslateIf(Some(c), Some(yes), Some(no)).value.items| - 1)
  {
    hide CodeAt, AddTo, AddCode, AddJump, AddJumpI, Mark, TagOf, TrimmedAt, Lies, BranchAt, JumpAt;
    var least := Min(yes.deposit, no.deposit);
    var a := AddCode(EMPTY, c);
    var main := a.usedTags;
    var h := AddJumpI(WithTag(a), main);
    var b := AddTo(h, no, least).value;
    var t := b.usedTags;
    var g := AddJump(WithTag(b), t);
    var d := AddItem(g.(deposit := 0), Mark(main));
    var f := AddTo(d, yes, least).value;
    PlacedMark(p, pc, f, t, n);
    AddToLies(p, pc, d, yes, least, n);
    PlacedMark(p, pc, g.(deposit := 0), main, n);
    assert Placed(p, pc, g, n);
    JumpLies(p, pc, WithTag(b), t, false, n, pc + |f.items|);
    assert Placed(p, pc, b, n);
    AddToLies(p, pc, h, no, least, n);
    JumpLies(p, pc, WithTag(a), main, true, n, pc + |g.items|);
    assert Placed(p, pc, a, n);
    AddCodeLies(p, pc, EMPTY, c, n);
    PlainBranch(p, pc + |c.items|, pc + |g.items|);
  }

  lemma {:induction false} PlainBranch(p: seq<Item>, pc: nat, k: nat)
    ensures BranchAt(p, pc, false, k) == JumpAt(p, pc, JUMPI, k)
  {
  }

  // ----- WHEN, UNLESS -----

  ghost predicate WhenAt(p: seq<Item>, pc: nat, negate: bool, c: Code, body: Code, end: nat) {
    var j := pc + |c.items|;
    var m := AfterBranch(j, negate);
    && Lies(p, pc, c) && BranchAt(p, j, negate, end) && TrimmedAt(p, m, body, 0)
    && end == m + TrimmedSize(body, 0) && end < |p| && IsTag(p[end])
  }

  lemma {:induction false} WhenLies(p: seq<Item>, pc: nat, whenTrue: bool, c: Code, body: Code, n: nat)
    requires TranslateWhen(whenTrue, Some(c), Some(body)).Some?
    requires Placed(p, pc, TranslateWhen(whenTrue, Some(c), Some(body)).value, n)
    ensures WhenAt(p, pc, whenTrue, c, body, pc + |TranslateWhen(whenTrue, Some(c), Some(body)).value.items| - 1)
  {
    hide CodeAt, AddTo, AddCode, Mark, TagOf, TrimmedAt, Lies, BranchAt, JumpAt;
    var a := AddCode(EMPTY, c);
    var end := a.usedTags;
    var h := AddBranch(a, whenTrue, end);
    var d := AddTo(h, body, 0).value;
    PlacedMark(p, pc, d, end, n);
    AddToLies(p, pc, h, body, 0, n);
    BranchLies(p, pc, a, whenTrue, end, n, pc + |d.items|);
    AddCodeLies(p, pc, EMPTY, c, n);
  }

  // ----- WHILE, UNTIL -----

  ghost predicate LoopAt(p: seq<Item>, pc: nat, negate: bool, c: Code, body: Code, end: nat) {
    var j := pc + 1 + |c.items|;
    var m := AfterBranch(j, negate);
    && pc < |p| && IsTag(p[pc]) && Lies(p, pc + 1, c) && BranchAt(p, j, negate, end) && TrimmedAt(p, m, body, 0)
    && JumpAt(p, m + TrimmedSize(body, 0), JUMP, pc) && end == m + TrimmedSize(body, 0) + 2 && end < |p| && IsTag(p[end])
  }

  lemma {:induction false} LoopLies(p: seq<Item>, pc: nat, i: Code, whileTrue: bool, c: Code, body: Code, n: nat)
    requires AddLoop(i, whileTrue, c, body).Some? && Placed(p, pc, AddLoop(i, whileTrue, c, body).value, n)
    ensures LoopAt(p, pc + |i.items|, whileTrue, c, body, pc + |AddLoop(i, whileTrue, c, body).value.items| - 1)
  {
    hide CodeAt, AddTo, AddCode, AddJump, Mark, TagOf, TrimmedAt, Lies, BranchAt, JumpAt;
    var begin := i.usedTags;
    var start := AddItem(WithTag(i), Mark(begin));
    var a := AddCode(start, c);
    var end := a.usedTags;
    var h := AddBranch(a, whileTrue, end);
    var d := AddTo(h, body, 0).value;
    var g := AddJump(d, begin);
    PlacedMark(p, pc, g, end, n);
    PlacedJump(p, pc, d, begin, false, n);
    AddToLies(p, pc, h, body, 0, n);
    BranchLies(p, pc, a, whileTrue, end, n, pc + |g.items|);
    AddCodeLies(p, pc, start, c, n);
    PlacedMark(p, pc, WithTag(i), begin, n);
    JumpLies(p, pc, d, begin, false, n, pc + |i.items|);
  }

  // ----- FOR -----

  ghost predicate ForAt(p: seq<Item>, pc: nat, init: Code, c: Code, post: Code, body: Code, end: nat) {
    var k := pc + TrimmedSize(init, 0);
    var j := k + 1 + |c.items|;
    var m := j + 3 + TrimmedSize(body, 0);
    && TrimmedAt(p, pc, init, 0) && k < |p| && IsTag(p[k]) && Lies(p, k + 1, c) && BranchAt(p, j, true, end)
    && TrimmedAt(p, j + 3, body, 0) && TrimmedAt(p, m, post, 0)
    && JumpAt(p, m + TrimmedSize(post, 0), JUMP, k) && end == m + TrimmedSize(post, 0) + 2 && end < |p| && IsTag(p[end])
  }

  lemma {:induction false} ForLies(p: seq<Item>, pc: nat, init: Code, c: Code, post: Code, body: Code, n: nat)
    requires TranslateFor(Some(init), Some(c), Some(post), Some(body)).Some?
    requires Placed(p, pc, TranslateFor(Some(init), Some(c), Some(post), Some(body)).value, n)
    ensures ForAt(p, pc, init, c, post, body,
                  pc + |TranslateFor(Some(init), Some(c), Some(post), Some(body)).value.items| - 1)
  {
    hide CodeAt, AddTo, AddCode, AddJump, Mark, TagOf, TrimmedAt, Lies, BranchAt, JumpAt;
    var i := AddTo(EMPTY, init, 0).value;
    var begin := i.usedTags;
    var start := AddItem(WithTag(i), Mark(begin));
    var a := AddCode(start, c);
    var end := a.usedTags;
    var h := AddBranch(a, true, end);
    var b := AddTo(h, body, 0).value;
    var d := AddTo(b, post, 0).value;
    var g := AddJump(d, begin);
    PlacedMark(p, pc, g, end, n);
    PlacedJump(p, pc, d, begin, false, n);
    AddToLies(p, pc, b, post, 0, n);
    AddToLies(p, pc, h, body, 0, n);
    BranchLies(p, pc, a, true, end, n, pc + |g.items|);
    AddCodeLies(p, pc, start, c, n);
    PlacedMark(p, pc, WithTag(i), begin, n);
    JumpLies(p, pc, d, begin, false, n, pc + |i.items|);
    assert Placed(p, pc, i, n);
    AddToLies(p, pc, EMPTY, init, 0, n);
  }

  // ----- SWITCH -----

  /** Each body follows its own tag, and control gets from its end to `end`. */
  ghost predicate BodiesAt(p: seq<Item>, cases: Cases, tags: seq<nat>, n: nat, end: nat, deposit: int)
    decreases cases
  {
    cases.Case? && |tags| > 0 ==>
      && (exists k: nat :: BodyAt(p, cases.body, tags[0], n, end, deposit, k))
      && BodiesAt(p, cases.rest, tags[1..], n, end, deposit)
  }

  ghost predicate BodyAt(p: seq<Item>, body: Expr, tag: nat, n: nat, end: nat, deposit: int, k: nat) {
    && k < |p| && p[k] == TagItem(TagOf(tag, n)) && Translate(body).Some? && Translate(body).value.deposit == deposit
    && Lies(p, k + 1, Translate(body).value)
    && (k + 1 + |Translate(body).value.items| == end || JumpAt(p, k + 1 + |Translate(body).value.items|, JUMP, end))
  }

  lemma {:induction false} BodiesLie(p: seq<Item>, pc: nat, c: Code, cases: Cases, tags: seq<nat>, t: nat,
      deposit: int, isFirst: bool, n: nat, end: nat)
    requires AddBodies(c, cases, tags, t, deposit, isFirst).Some?
    requires Placed(p, pc, AddBodies(c, cases, tags, t, deposit, isFirst).value, n)
    requires end < |p| && p[end] == TagItem(TagOf(t, n))
    requires isFirst && cases.Case? && |tags| > 0 ==>
              end == pc + |AddBodies(c, cases, tags, t, deposit, isFirst).value.items|
    ensures BodiesAt(p, cases, tags, n, end, deposit) && Placed(p, pc, c, n)
    decreases cases
  {
    hide CodeAt, Translate, AddCode, AddJump, Mark, TagOf, Lies, JumpAt, BodyAt;
    if cases.Case? && |tags| > 0 {
      var rest := AddBodies(c, cases.rest, tags[1..], t, deposit, false).value;
      var x := Translate(cases.body).value;
      var m := AddItem(rest, Mark(tags[0]));
      var a := AddCode(m, x);
      if !isFirst { JumpLies(p, pc, a, t, false, n, end); }
      AddCodeLies(p, pc, m, x, n);
      PlacedMark(p, pc, rest, tags[0], n);
      BodyLies(p, pc + |rest.items|, cases.body, tags[0], n, end, deposit);
      BodiesLie(p, pc, c, cases.rest, tags[1..], t, deposit, false, n, end);
    }
  }

  lemma {:induction false} BodyLies(p: seq<Item>, k: nat, body: Expr, tag: nat, n: nat, end: nat, deposit: int)
    requires k < |p| && p[k] == TagItem(TagOf(tag, n)) && Translate(body).Some?
    requires Translate(body).value.deposit == deposit
    requires Lies(p, k + 1, Translate(body).value)
    requires k + 1 + |Translate(body).value.items| == end || JumpAt(p, k + 1 + |Translate(body).value.items|, JUMP, end)
    ensures BodyAt(p, body, tag, n, end, deposit, k)
  {
    hide Translate, Lies, JumpAt, TagOf;
  }

  /** The conditions, then the default, then a jump over the bodies. */
  ghost predicate SwitchAt(p: seq<Item>, pc: nat, cases: Cases, fallback: Code, hasFallback: bool, n: nat, end: nat) {
    var heads := AddConditions(EMPTY, cases);
    && heads.Some? && Placed(p, pc, heads.value.code, n)
    && var m := pc + |heads.value.code.items|;
       && (hasFallback ==> Lies(p, m, fallback))
       && var j := if hasFallback then m + |fallback.items| else m;
          if cases.NoCase? then end == j
          else
            && JumpAt(p, j, JUMP, end) && end < |p| && IsTag(p[end])
            && BodiesAt(p, cases, heads.value.tags, n, end, if hasFallback then fallback.deposit else 0)
  }

  lemma {:induction false} SwitchLies(p: seq<Item>, pc: nat, cases: Cases, fallback: Code, hasFallback: bool, n: nat)
    requires TranslateSwitch(cases, fallback, hasFallback).Some?
    requires Placed(p, pc, TranslateSwitch(cases, fallback, hasFallback).value, n)
    ensures var size := |TranslateSwitch(cases, fallback, hasFallback).value.items|;
            (cases.Case? ==> size > 0) && SwitchAt(p, pc, cases, fallback, hasFallback, n, if cases.Case? then pc + size - 1 else pc + size)
  {
    hide CodeAt, AddCode, AddJump, Mark, TagOf, Lies, JumpAt, BodiesAt, AddConditions, AddBodies;
    var target := if hasFallback then fallback.deposit else 0;
    var heads := AddConditions(EMPTY, cases).value;
    var a := if hasFallback then AddCode(heads.code, fallback) else heads.code;
    if cases.Case? {
      var t := a.usedTags;
      var b := AddJump(WithTag(a), t);
      var r := AddBodies(b, cases, heads.tags, t, target, true).value;
      assert Placed(p, pc, AddItem(r, Mark(t)), n);
      PlacedMark(p, pc, r, t, n);
      ConditionTags(EMPTY, cases);
      BodiesLie(p, pc, b, cases, heads.tags, t, target, true, n, pc + |r.items|);
      JumpLies(p, pc, WithTag(a), t, false, n, pc + |r.items|);
    }
    assert Placed(p, pc, a, n);
    if hasFallback { AddCodeLies(p, pc, heads.code, fallback, n); }
  }

  lemma {:induction false} ConditionTags(c: Code, cases: Cases)
    requires AddConditions(c, cases).Some? && cases.Case?
    ensures |AddConditions(c, cases).value.tags| > 0
  {
    hide Translate;
  }
}
