/** Compiled LLL code never defines a tag twice and never pushes a tag it does not define. */
module LllTags {
  import opened Words
  import opened Instructions
  import opened Items
  import opened Machine
  import opened Segments
  import opened Lll
  import opened LllMeaning
  import opened LllSound
  import opened LllLayout
  import opened LllCorrect

  predicate Defines(items: seq<Item>, t: nat) { exists i :: 0 <= i < |items| && IsTag(items[i]) && items[i].data == t }

  predicate TagsBelow(items: seq<Item>, n: nat) {
    forall i :: 0 <= i < |items| && (IsTag(items[i]) || IsPushTag(items[i])) ==> 1 <= items[i].data < n
  }

  predicate PushesDefined(items: seq<Item>, open: set<nat>) {
    forall i :: 0 <= i < |items| && IsPushTag(items[i]) ==> items[i].data in open || Defines(items, items[i].data)
  }

  predicate NotDefined(items: seq<Item>, open: set<nat>) { forall t :: t in open ==> !Defines(items, t) }

  predicate OpenBelow(open: set<nat>, n: nat) { forall t :: t in open ==> 1 <= t < n }

  /** The tags of a fragment are in order; `open` holds those still to be defined. */
  predicate Tagged(c: Code, open: set<nat>) {
    && c.usedTags >= 1 && OpenBelow(open, c.usedTags)
    && (c.usedTags <= MODULUS ==> UniqueTags(c.items) && TagsBelow(c.items, c.usedTags) && PushesDefined(c.items, open) && NotDefined(c.items, open))
  }

  lemma {:induction false} DefinesConcat(a: seq<Item>, b: seq<Item>, t: nat)
    ensures Defines(a + b, t) == (Defines(a, t) || Defines(b, t))
  {
    if Defines(a, t) {
      var i :| 0 <= i < |a| && IsTag(a[i]) && a[i].data == t;
      assert (a + b)[i] == a[i];
    }
    if Defines(b, t) {
      var i :| 0 <= i < |b| && IsTag(b[i]) && b[i].data == t;
      assert (a + b)[|a| + i] == b[i];
    }
  }

  lemma {:induction false} TagShifted(items: seq<Item>, n: nat, m: nat, i: nat)
    requires TagsBelow(items, m) && n + m <= MODULUS && i < |items|
    ensures IsTag(Shift(items, n)[i]) == IsTag(items[i])
    ensures IsTag(items[i]) ==> Shift(items, n)[i].data == items[i].data + n
  {
  }

  lemma {:induction false} DefinesShifted(items: seq<Item>, n: nat, m: nat, t: nat)
    requires TagsBelow(items, m) && n + m <= MODULUS
    ensures Defines(Shift(items, n), t) == (t >= n && Defines(items, t - n))
  {
    hide TagsBelow, Shift, ShiftItem;
    if Defines(Shift(items, n), t) {
      var i :| 0 <= i < |items| && IsTag(Shift(items, n)[i]) && Shift(items, n)[i].data == t;
      TagShifted(items, n, m, i);
      assert IsTag(items[i]) && items[i].data == t - n;
    }
    if t >= n && Defines(items, t - n) {
      var i :| 0 <= i < |items| && IsTag(items[i]) && items[i].data == t - n;
      TagShifted(items, n, m, i);
      assert IsTag(Shift(items, n)[i]) && Shift(items, n)[i].data == t;
    }
  }

  lemma {:induction false} DefinedBelow(items: seq<Item>, n: nat, t: nat)
    requires TagsBelow(items, n) && Defines(items, t)
    ensures 1 <= t < n
  {
  }

  lemma {:induction false} ShiftedBelow(items: seq<Item>, n: nat, m: nat)
    requires TagsBelow(items, m) && n + m <= MODULUS
    ensures forall i :: 0 <= i < |items| && (IsTag(items[i]) || IsPushTag(items[i])) ==>
              Shift(items, n)[i] == Data(items[i].kind, items[i].data + n)
  {
  }

  /** Appending a finished fragment. */
  lemma {:induction false} CodeTagged(c: Code, d: Code, open: set<nat>)
    requires Tagged(c, open) && Tagged(d, {})
    ensures Tagged(AddCode(c, d), open)
  {
    hide Shift, UniqueTags, TagsBelow, PushesDefined, NotDefined;
    if c.usedTags + d.usedTags <= MODULUS {
      var s := Shift(d.items, c.usedTags);
      UniqueTogether(c, d);
      BelowTogether(c, d);
      PushesTogether(c, d, open);
      OpenTogether(c, d, open);
    }
  }

  lemma {:induction false} UniqueTogether(c: Code, d: Code)
    requires c.usedTags + d.usedTags <= MODULUS && UniqueTags(c.items) && UniqueTags(d.items)
    requires TagsBelow(c.items, c.usedTags) && TagsBelow(d.items, d.usedTags)
    ensures UniqueTags(c.items + Shift(d.items, c.usedTags))
  {
    hide Shift;
    var s, m := Shift(d.items, c.usedTags), |c.items|;
    var r := c.items + s;
    ShiftedBelow(d.items, c.usedTags, d.usedTags);
    forall i, j | 0 <= i < j < |r| && IsTag(r[i]) && IsTag(r[j]) ensures r[i].data != r[j].data {
      if j < m {
        assert c.items[i].data != c.items[j].data;
      } else if i < m {
        assert IsTag(d.items[j - m]) && IsTag(c.items[i]);
      } else {
        assert IsTag(d.items[i - m]) && IsTag(d.items[j - m]);
        assert d.items[i - m].data != d.items[j - m].data;
      }
    }
  }

  lemma {:induction false} BelowTogether(c: Code, d: Code)
    requires c.usedTags + d.usedTags <= MODULUS && TagsBelow(c.items, c.usedTags) && TagsBelow(d.items, d.usedTags)
    ensures TagsBelow(c.items + Shift(d.items, c.usedTags), c.usedTags + d.usedTags)
  {
    hide Shift;
    ShiftedBelow(d.items, c.usedTags, d.usedTags);
  }

  lemma {:induction false} PushesTogether(c: Code, d: Code, open: set<nat>)
    requires c.usedTags + d.usedTags <= MODULUS && TagsBelow(d.items, d.usedTags)
    requires PushesDefined(c.items, open) && PushesDefined(d.items, {})
    ensures PushesDefined(c.items + Shift(d.items, c.usedTags), open)
  {
    hide Shift, Defines;
    var s, m := Shift(d.items, c.usedTags), |c.items|;
    var r := c.items + s;
    ShiftedBelow(d.items, c.usedTags, d.usedTags);
    forall i | 0 <= i < |r| && IsPushTag(r[i]) ensures r[i].data in open || Defines(r, r[i].data) {
      DefinesConcat(c.items, s, r[i].data);
      if i >= m {
        assert IsPushTag(d.items[i - m]);
        DefinesShifted(d.items, c.usedTags, d.usedTags, r[i].data);
      }
    }
  }

  lemma {:induction false} OpenTogether(c: Code, d: Code, open: set<nat>)
    requires c.usedTags + d.usedTags <= MODULUS && TagsBelow(d.items, d.usedTags) && NotDefined(c.items, open)
    requires OpenBelow(open, c.usedTags)
    ensures NotDefined(c.items + Shift(d.items, c.usedTags), open)
  {
    hide Shift, Defines;
    var s := Shift(d.items, c.usedTags);
    forall t | t in open ensures !Defines(c.items + s, t) {
      DefinesConcat(c.items, s, t);
      DefinesShifted(d.items, c.usedTags, d.usedTags, t);
    }
  }

  predicate Untagged(item: Item) { !IsTag(item) && !IsPushTag(item) }

  /** Appending items that do not concern tags. */
  lemma {:induction false} PlainTagged(c: Code, items: seq<Item>, deposit: int, open: set<nat>)
    requires Tagged(c, open) && forall i :: 0 <= i < |items| ==> Untagged(items[i])
    ensures Tagged(Code(c.items + items, deposit, c.usedTags), open)
  {
    hide Defines;
    if c.usedTags <= MODULUS {
      var r := c.items + items;
      forall t: nat ensures Defines(r, t) == Defines(c.items, t) {
        DefinesConcat(c.items, items, t);
        NothingDefined(items, t);
      }
    }
  }

  lemma {:induction false} NothingDefined(items: seq<Item>, t: nat)
    requires forall i :: 0 <= i < |items| ==> Untagged(items[i])
    ensures !Defines(items, t)
  {
  }

  lemma {:induction false} ItemTagged(c: Code, item: Item, open: set<nat>)
    requires Tagged(c, open) && Untagged(item)
    ensures Tagged(AddItem(c, item), open)
  {
    hide Tagged;
    PlainTagged(c, [item], c.deposit + Deposit(item), open);
  }

  lemma {:induction false} ToTagged(c: Code, d: Code, deposit: int, open: set<nat>)
    requires Tagged(c, open) && Tagged(d, {})
    ensures AddTo(c, d, deposit).Some? ==> Tagged(AddTo(c, d, deposit).value, open)
  {
    hide Tagged, Shift;
    if AddTo(c, d, deposit).Some? {
      CodeTagged(c, d, open);
      PlainTagged(AddCode(c, d), Pops(d.deposit - deposit), c.deposit + deposit, open);
    }
  }

  lemma {:induction false} NewTagged(c: Code, open: set<nat>)
    requires Tagged(c, open)
    ensures Tagged(WithTag(c), open + {c.usedTags})
  {
    if c.usedTags < MODULUS {
      if Defines(c.items, c.usedTags) { DefinedBelow(c.items, c.usedTags, c.usedTags); }
    }
  }

  lemma {:induction false} SmallTag(t: nat)
    requires t < MODULUS
    ensures t % MODULUS == t && Mark(t) == TagItem(t) && PushMark(t) == PushTagItem(t)
  {
  }

  /** Defining an open tag. */
  lemma {:induction false} MarkTagged(c: Code, t: nat, open: set<nat>)
    requires Tagged(c, open) && t in open
    ensures Tagged(AddItem(c, Mark(t)), open - {t})
  {
    hide Mark;
    if c.usedTags <= MODULUS {
      SmallTag(t);
      var r := c.items + [TagItem(t)];
      MarkUnique(c.items, t);
      forall u: nat ensures Defines(r, u) == (Defines(c.items, u) || u == t) { DefinesMark(c.items, t, u); }
      assert forall i :: 0 <= i < |c.items| ==> r[i] == c.items[i];
      MarkPushes(c.items, t, open);
    }
  }

  lemma {:induction false} DefinesMark(items: seq<Item>, t: Word, u: nat)
    ensures Defines(items + [TagItem(t)], u) == (Defines(items, u) || u == t)
  {
    DefinesConcat(items, [TagItem(t)], u);
    assert [TagItem(t)][0] == TagItem(t);
    assert Defines([TagItem(t)], t);
  }

  lemma {:induction false} MarkUnique(items: seq<Item>, t: Word)
    requires UniqueTags(items) && !Defines(items, t)
    ensures UniqueTags(items + [TagItem(t)])
  {
  }

  lemma {:induction false} MarkPushes(items: seq<Item>, t: Word, open: set<nat>)
    requires PushesDefined(items, open)
    ensures PushesDefined(items + [TagItem(t)], open - {t})
  {
    hide Defines;
    var r := items + [TagItem(t)];
    forall i | 0 <= i < |r| && IsPushTag(r[i]) ensures r[i].data in open - {t} || Defines(r, r[i].data) {
      assert r[i] == items[i];
      DefinesMark(items, t, r[i].data);
    }
  }

  /** Pushing a tag that is open or defined. */
  lemma {:induction false} PushTagged(c: Code, t: nat, open: set<nat>)
    requires Tagged(c, open) && (t in open || Defines(c.items, t))
    ensures Tagged(AddItem(c, PushMark(t)), open)
  {
    hide PushMark, Defines;
    if c.usedTags <= MODULUS {
      if t !in open { DefinedBelow(c.items, c.usedTags, t); }
      SmallTag(t);
      var r := c.items + [PushTagItem(t)];
      forall u: nat ensures Defines(r, u) == Defines(c.items, u) { DefinesPush(c.items, t, u); }
    }
  }

  lemma {:induction false} DefinesPush(items: seq<Item>, t: Word, u: nat)
    ensures Defines(items + [PushTagItem(t)], u) == Defines(items, u)
  {
    DefinesConcat(items, [PushTagItem(t)], u);
  }

  lemma {:induction false} JumpTagged(c: Code, t: nat, open: set<nat>)
    requires Tagged(c, open) && (t in open || Defines(c.items, t))
    ensures Tagged(AddJump(c, t), open) && Tagged(AddJumpI(c, t), open)
  {
    hide Tagged, Defines, PushMark, Deposit;
    PushTagged(c, t, open);
    ItemTagged(AddItem(c, PushMark(t)), Operation(JUMP), open);
    ItemTagged(AddItem(c, PushMark(t)), Operation(JUMPI), open);
  }

  lemma {:induction false} BranchTagged(c: Code, negate: bool, t: nat, open: set<nat>)
    requires Tagged(c, open) && t == c.usedTags
    ensures Tagged(AddBranch(c, negate, t), open + {t})
  {
    hide Tagged, Defines, AddJumpI, Deposit;
    if negate { ItemTagged(c, Operation(ISZERO), open); }
    var d := if negate then AddItem(c, Operation(ISZERO)) else c;
    NewTagged(d, open);
    JumpTagged(WithTag(d), t, open + {t});
  }

  lemma {:induction false} StillDefined(c: Code, items: seq<Item>, t: nat)
    requires Defines(c.items, t)
    ensures Defines(c.items + items, t)
  {
    DefinesConcat(c.items, items, t);
  }

  lemma {:induction false} EmptyTagged()
    ensures Tagged(EMPTY, {})
  {
  }

  // ----- trees -----

  lemma {:induction false} TranslateTagged(e: Expr)
    requires Translate(e).Some?
    ensures Tagged(Translate(e).value, {})
    decreases e, 1
  {
    hide Tagged, AddCode, AddJump, AddJumpI, AddTo, TranslateIf, TranslateWhen, AddLoop, TranslateFor, TranslateSwitch;
    hide AddArguments, AddTimes, AddSequence, AddChain, AllOne, AddLast, Deposit, InfoOf, ValidFunctional;
    EmptyTagged();
    match e
    case Literal(v) => ItemTagged(EMPTY, PushWord(v), {});
    case Call(op, args) =>
      ArgumentsTagged(EMPTY, args);
      ItemTagged(AddArguments(EMPTY, args).value, Operation(op), {});
    case Arith(op, args) =>
      ArgumentsTagged(EMPTY, args);
      TimesTagged(AddArguments(EMPTY, args).value, op, Length(args) - 1);
    case Binary(op, negate, a, b) =>
      TranslateTagged(a);
      TranslateTagged(b);
      BinaryTagged(Translate(a).value, Translate(b).value, op);
    case Unary(op, a) =>
      TranslateTagged(a);
      CodeTagged(EMPTY, Translate(a).value, {});
      ItemTagged(AddCode(EMPTY, Translate(a).value), Operation(op), {});
    case Sequence(args) => SequenceTagged(EMPTY, args);
    case If(c, yes, no) =>
      IfParts(Translate(c), Translate(yes), Translate(no));
      TranslateTagged(c);
      TranslateTagged(yes);
      TranslateTagged(no);
      IfTagged(Translate(c).value, Translate(yes).value, Translate(no).value);
    case When(whenTrue, c, body) =>
      WhenParts(whenTrue, Translate(c), Translate(body));
      TranslateTagged(c);
      TranslateTagged(body);
      WhenTagged(whenTrue, Translate(c).value, Translate(body).value);
    case Loop(whileTrue, c, body) =>
      TranslateTagged(c);
      TranslateTagged(body);
      LoopTagged(EMPTY, whileTrue, Translate(c).value, Translate(body).value);
    case For(init, c, post, body) =>
      ForParts(e);
      TranslateTagged(init);
      TranslateTagged(c);
      TranslateTagged(post);
      TranslateTagged(body);
      ForTagged(Translate(init).value, Translate(c).value, Translate(post).value, Translate(body).value);
    case Switch(cases, fallback) =>
      if fallback.Cons? { TranslateTagged(fallback.head); }
      SwitchTagged(cases, if fallback.Nil? then EMPTY else Translate(fallback.head).value, fallback.Cons?);
    case ShortCircuit(isOr, args) => ShortCircuitTagged(isOr, args);
  }

  lemma {:induction false} IfParts(c: Option<Code>, yes: Option<Code>, no: Option<Code>)
    ensures TranslateIf(c, yes, no).Some? ==> c.Some? && yes.Some? && no.Some?
  {
  }

  lemma {:induction false} WhenParts(whenTrue: bool, c: Option<Code>, body: Option<Code>)
    ensures TranslateWhen(whenTrue, c, body).Some? ==> c.Some? && body.Some?
  {
  }

  lemma {:induction false} ArgumentsTagged(c: Code, es: Exprs)
    requires Tagged(c, {})
    ensures AddArguments(c, es).Some? ==> Tagged(AddArguments(c, es).value, {})
    decreases es, 0
  {
    hide Tagged, Translate, AddTo;
    if AddArguments(c, es).Some? && es.Cons? {
      ArgumentsTagged(c, es.tail);
      TranslateTagged(es.head);
      ToTagged(AddArguments(c, es.tail).value, Translate(es.head).value, 1, {});
    }
  }

  lemma {:induction false} TimesTagged(c: Code, op: Opcode, n: nat)
    requires Tagged(c, {})
    ensures Tagged(AddTimes(c, Operation(op), n), {})
  {
    hide Tagged, Deposit;
    if n > 0 {
      TimesTagged(c, op, n - 1);
      ItemTagged(AddTimes(c, Operation(op), n - 1), Operation(op), {});
    }
  }

  lemma {:induction false} BinaryTagged(x: Code, y: Code, op: Opcode)
    requires Tagged(x, {}) && Tagged(y, {})
    ensures var c := AddItem(AddCode(AddCode(EMPTY, y), x), Operation(op));
            Tagged(c, {}) && Tagged(AddItem(c, Operation(ISZERO)), {})
  {
    hide Tagged, AddCode, Deposit;
    EmptyTagged();
    CodeTagged(EMPTY, y, {});
    CodeTagged(AddCode(EMPTY, y), x, {});
    ItemTagged(AddCode(AddCode(EMPTY, y), x), Operation(op), {});
    ItemTagged(AddItem(AddCode(AddCode(EMPTY, y), x), Operation(op)), Operation(ISZERO), {});
  }

  lemma {:induction false} SequenceTagged(c: Code, es: Exprs)
    requires Tagged(c, {})
    ensures AddSequence(c, es).Some? ==> Tagged(AddSequence(c, es).value, {})
    decreases es, 0
  {
    hide Tagged, Translate, AddTo, AddCode;
    if AddSequence(c, es).Some? && es.Cons? {
      TranslateTagged(es.head);
      var x := Translate(es.head).value;
      if es.tail.Nil? {
        CodeTagged(c, x, {});
      } else {
        ToTagged(c, x, 0, {});
        SequenceTagged(AddTo(c, x, 0).value, es.tail);
      }
    }
  }

  lemma {:induction false} DepositUntagged(c: Code, deposit: int, open: set<nat>)
    requires Tagged(c, open)
    ensures Tagged(c.(deposit := deposit), open)
  {
  }

  /** Appending keeps the number of tags growing. */
  lemma {:induction false} TagsGrow(c: Code, d: Code, deposit: int)
    ensures AddTo(c, d, deposit).Some? ==> AddTo(c, d, deposit).value.usedTags == c.usedTags + d.usedTags
  {
  }

  lemma {:induction false} IfTagged(c: Code, yes: Code, no: Code)
    requires Tagged(c, {}) && Tagged(yes, {}) && Tagged(no, {})
    ensures TranslateIf(Some(c), Some(yes), Some(no)).Some? ==>
              Tagged(TranslateIf(Some(c), Some(yes), Some(no)).value, {})
  {
    hide Tagged, AddCode, AddTo, AddJump, AddJumpI, Deposit, Mark;
    if TranslateIf(Some(c), Some(yes), Some(no)).Some? {
      var least := Min(yes.deposit, no.deposit);
      var a := AddCode(EMPTY, c);
      var main := a.usedTags;
      var h := AddJumpI(WithTag(a), main);
      var b := AddTo(h, no, least).value;
      var end := b.usedTags;
      var g := AddJump(WithTag(b), end);
      var d := AddItem(g.(deposit := 0), Mark(main));
      var f := AddTo(d, yes, least).value;
      EmptyTagged();
      CodeTagged(EMPTY, c, {});
      BranchTagged(a, false, main, {});
      assert {} + {main} == {main};
      ToTagged(h, no, least, {main});
      NewTagged(b, {main});
      JumpTagged(WithTag(b), end, {main} + {end});
      DepositUntagged(g, 0, {main} + {end});
      IfGrows(a, no, least);
      MarkTagged(g.(deposit := 0), main, {main} + {end});
      assert {main} + {end} - {main} == {end};
      ToTagged(d, yes, least, {end});
      MarkTagged(f, end, {end});
      assert {end} - {end} == {};
    }
  }

  lemma {:induction false} IfGrows(a: Code, no: Code, least: int)
    ensures var b := AddTo(AddJumpI(WithTag(a), a.usedTags), no, least); b.Some? ==> b.value.usedTags > a.usedTags
  {
    hide Deposit, Shift;
  }

  lemma {:induction false} WhenTagged(whenTrue: bool, c: Code, body: Code)
    requires Tagged(c, {}) && Tagged(body, {})
    ensures TranslateWhen(whenTrue, Some(c), Some(body)).Some? ==>
              Tagged(TranslateWhen(whenTrue, Some(c), Some(body)).value, {})
  {
    hide Tagged, AddCode, AddTo, AddJumpI, Deposit, Mark;
    if TranslateWhen(whenTrue, Some(c), Some(body)).Some? {
      var a := AddCode(EMPTY, c);
      var end := a.usedTags;
      var h := AddBranch(a, whenTrue, end);
      EmptyTagged();
      CodeTagged(EMPTY, c, {});
      BranchTagged(a, whenTrue, end, {});
      assert {} + {end} == {end};
      ToTagged(h, body, 0, {end});
      MarkTagged(AddTo(h, body, 0).value, end, {end});
      assert {end} - {end} == {};
    }
  }

  /** A tag defined at the start of a loop is still defined at its end. */
  lemma {:induction false} DefinedLater(c: Code, d: Code, deposit: int, t: nat)
    requires Defines(c.items, t)
    ensures Defines(AddCode(c, d).items, t)
    ensures (AddTo(c, d, deposit).Some? ==> Defines(AddTo(c, d, deposit).value.items, t))
  {
    hide Shift, Defines;
    StillDefined(c, Shift(d.items, c.usedTags), t);
    if AddTo(c, d, deposit).Some? { StillDefined(AddCode(c, d), Pops(d.deposit - deposit), t); }
  }

  lemma {:induction false} DefinedAfterBranch(c: Code, negate: bool, u: nat, t: nat)
    requires Defines(c.items, t)
    ensures Defines(AddBranch(c, negate, u).items, t)
  {
    hide Defines, Deposit;
    StillDefined(c, [Operation(ISZERO)], t);
    var d := if negate then AddItem(c, Operation(ISZERO)) else c;
    StillDefined(d, [PushMark(u)], t);
    StillDefined(AddItem(d, PushMark(u)), [Operation(JUMPI)], t);
  }

  lemma {:induction false} LoopStartTagged(i: Code)
    requires Tagged(i, {})
    ensures var start := AddItem(WithTag(i), Mark(i.usedTags));
            Tagged(start, {}) && (i.usedTags < MODULUS ==> Defines(start.items, i.usedTags))
  {
    hide Tagged, Defines, Mark, Deposit;
    var t := i.usedTags;
    NewTagged(i, {});
    MarkTagged(WithTag(i), t, {} + {t});
    assert {} + {t} - {t} == {};
    if t < MODULUS {
      SmallTag(t);
      DefinesMark(i.items, t, t);
    }
  }

  /** A jump back; with too many tags nothing is claimed. */
  lemma {:induction false} BackTagged(c: Code, t: nat, open: set<nat>)
    requires Tagged(c, open) && t < c.usedTags && (t < MODULUS ==> Defines(c.items, t))
    ensures Tagged(AddJump(c, t), open)
  {
    hide Defines, Deposit, UniqueTags, TagsBelow, PushesDefined, NotDefined;
    if c.usedTags <= MODULUS { JumpTagged(c, t, open); }
  }

  lemma {:induction false} LoopTagged(i: Code, whileTrue: bool, c: Code, body: Code)
    requires Tagged(i, {}) && Tagged(c, {}) && Tagged(body, {})
    ensures AddLoop(i, whileTrue, c, body).Some? ==> Tagged(AddLoop(i, whileTrue, c, body).value, {})
  {
    hide Tagged, AddCode, AddTo, AddJump, AddJumpI, Deposit, Mark, Defines;
    if AddLoop(i, whileTrue, c, body).Some? {
      var begin := i.usedTags;
      var start := AddItem(WithTag(i), Mark(begin));
      var a := AddCode(start, c);
      var end := a.usedTags;
      var h := AddBranch(a, whileTrue, end);
      var d := AddTo(h, body, 0).value;
      LoopStartTagged(i);
      CodeTagged(start, c, {});
      BranchTagged(a, whileTrue, end, {});
      assert {} + {end} == {end};
      ToTagged(h, body, 0, {end});
      if begin < MODULUS {
        DefinedLater(start, c, 0, begin);
        DefinedAfterBranch(a, whileTrue, end, begin);
        DefinedLater(h, body, 0, begin);
      }
      LoopGrows(start, whileTrue, c, body);
      BackTagged(d, begin, {end});
      MarkTagged(AddJump(d, begin), end, {end});
      assert {end} - {end} == {};
    }
  }

  lemma {:induction false} LoopGrows(start: Code, negate: bool, c: Code, body: Code)
    ensures var a := AddCode(start, c);
            var d := AddTo(AddBranch(a, negate, a.usedTags), body, 0);
            d.Some? ==> d.value.usedTags >= start.usedTags
  {
    hide Deposit, Shift;
  }

  lemma {:induction false} ForTagged(init: Code, c: Code, post: Code, body: Code)
    requires Tagged(init, {}) && Tagged(c, {}) && Tagged(post, {}) && Tagged(body, {})
    ensures TranslateFor(Some(init), Some(c), Some(post), Some(body)).Some? ==>
              Tagged(TranslateFor(Some(init), Some(c), Some(post), Some(body)).value, {})
  {
    hide Tagged, AddCode, AddTo, AddJump, AddJumpI, Deposit, Mark, Defines;
    if TranslateFor(Some(init), Some(c), Some(post), Some(body)).Some? {
      var i := AddTo(EMPTY, init, 0).value;
      var begin := i.usedTags;
      var start := AddItem(WithTag(i), Mark(begin));
      var a := AddCode(start, c);
      var end := a.usedTags;
      var h := AddBranch(a, true, end);
      var b := AddTo(h, body, 0).value;
      var d := AddTo(b, post, 0).value;
      EmptyTagged();
      ToTagged(EMPTY, init, 0, {});
      LoopStartTagged(i);
      CodeTagged(start, c, {});
      BranchTagged(a, true, end, {});
      assert {} + {end} == {end};
      ToTagged(h, body, 0, {end});
      ToTagged(b, post, 0, {end});
      if begin < MODULUS {
        DefinedLater(start, c, 0, begin);
        DefinedAfterBranch(a, true, end, begin);
        DefinedLater(h, body, 0, begin);
        DefinedLater(b, post, 0, begin);
      }
      LoopGrows(start, true, c, body);
      TagsGrow(b, post, 0);
      BackTagged(d, begin, {end});
      MarkTagged(AddJump(d, begin), end, {end});
      assert {end} - {end} == {};
    }
  }

  // ----- SWITCH -----

  function Elements(tags: seq<nat>): set<nat> { if tags == [] then {} else {tags[0]} + Elements(tags[1..]) }

  /** All different, and different from those open. */
  predicate Fresh(tags: seq<nat>, open: set<nat>)
    decreases |tags|
  {
    tags != [] ==> tags[0] !in open && Fresh(tags[1..], open + {tags[0]})
  }

  lemma {:induction false} ConditionsTagged(c: Code, cases: Cases, open: set<nat>)
    requires Tagged(c, open)
    ensures var heads := AddConditions(c, cases);
            heads.Some? ==> Tagged(heads.value.code, open + Elements(heads.value.tags)) && Fresh(heads.value.tags, open) && |heads.value.tags| == Count(cases)
    decreases cases, 0
  {
    hide Tagged, Translate, AddCode, AddJumpI;
    if AddConditions(c, cases).Some? {
      if cases.NoCase? {
        assert open + Elements([]) == open;
      } else {
        var x := Translate(cases.condition).value;
        var a := AddCode(c, x);
        var t := a.usedTags;
        var h := AddJumpI(WithTag(a), t);
        TranslateTagged(cases.condition);
        CodeTagged(c, x, open);
        BranchTagged(a, false, t, open);
        ConditionsTagged(h, cases.rest, open + {t});
        var rest, tags := AddConditions(h, cases.rest).value.tags, AddConditions(c, cases).value.tags;
        assert tags[0] == t && tags[1..] == rest;
        assert open + {t} + Elements(rest) == open + Elements(tags);
        NewIsNotOpen(a, open);
      }
    }
  }

  lemma {:induction false} NewIsNotOpen(c: Code, open: set<nat>)
    requires Tagged(c, open)
    ensures c.usedTags !in open
  {
  }

  lemma {:induction false} BodiesTagged(c: Code, cases: Cases, tags: seq<nat>, end: nat, deposit: int, isFirst: bool,
      open: set<nat>)
    requires Tagged(c, open + Elements(tags)) && Fresh(tags, open) && end in open && |tags| == Count(cases)
    ensures AddBodies(c, cases, tags, end, deposit, isFirst).Some? ==>
              Tagged(AddBodies(c, cases, tags, end, deposit, isFirst).value, open)
    decreases cases, 0
  {
    hide Tagged, Translate, AddCode, AddJump, Mark, Deposit;
    if AddBodies(c, cases, tags, end, deposit, isFirst).Some? {
      if cases.NoCase? {
        assert open + Elements(tags) == open;
      } else {
        var t, x := tags[0], Translate(cases.body).value;
        assert open + {t} + Elements(tags[1..]) == open + Elements(tags);
        BodiesTagged(c, cases.rest, tags[1..], end, deposit, false, open + {t});
        TranslateTagged(cases.body);
        var rest := AddBodies(c, cases.rest, tags[1..], end, deposit, false).value;
        MarkTagged(rest, t, open + {t});
        assert open + {t} - {t} == open;
        CodeTagged(AddItem(rest, Mark(t)), x, open);
        JumpTagged(AddCode(AddItem(rest, Mark(t)), x), end, open);
      }
    }
  }

  lemma {:induction false} FreshMore(tags: seq<nat>, open: set<nat>, more: set<nat>)
    requires Fresh(tags, open) && Elements(tags) !! more
    ensures Fresh(tags, open + more)
    decreases |tags|
  {
    if tags != [] {
      FreshMore(tags[1..], open + {tags[0]}, more);
      assert open + {tags[0]} + more == open + more + {tags[0]};
    }
  }

  lemma {:induction false} SwitchTagged(cases: Cases, fallback: Code, hasFallback: bool)
    requires Tagged(fallback, {})
    ensures TranslateSwitch(cases, fallback, hasFallback).Some? ==>
              Tagged(TranslateSwitch(cases, fallback, hasFallback).value, {})
    decreases cases, 1
  {
    hide Tagged, AddConditions, AddBodies, AddCode, AddJump, Mark, Deposit;
    if TranslateSwitch(cases, fallback, hasFallback).Some? {
      var target := if hasFallback then fallback.deposit else 0;
      var heads := AddConditions(EMPTY, cases).value;
      var tags, open := heads.tags, Elements(heads.tags);
      EmptyTagged();
      ConditionsTagged(EMPTY, cases, {});
      assert {} + open == open;
      CodeTagged(heads.code, fallback, open);
      var a := if hasFallback then AddCode(heads.code, fallback) else heads.code;
      if cases.NoCase? {
        assert open == {};
        DepositUntagged(a, target, {});
      } else {
        var end := a.usedTags;
        var b := AddJump(WithTag(a), end);
        NewIsNotOpen(a, open);
        NewTagged(a, open);
        JumpTagged(WithTag(a), end, open + {end});
        FreshMore(tags, {}, {end});
        assert {} + {end} == {end} && {end} + open == open + {end};
        BodiesTagged(b, cases, tags, end, target, true, {end});
        var r := AddBodies(b, cases, tags, end, target, true).value;
        MarkTagged(r, end, {end});
        assert {end} - {end} == {};
        DepositUntagged(AddItem(r, Mark(end)), target, {});
      }
    }
  }

  // ----- && and || -----

  lemma {:induction false} LastTagged(c: Code, d: Code, end: nat)
    requires Tagged(c, {end}) && Tagged(d, {})
    ensures Tagged(AddLast(c, d, end), {})
  {
    hide Tagged, AddCode, Mark, Deposit;
    CodeTagged(c, d, {end});
    MarkTagged(AddCode(c, d), end, {end});
    assert {end} - {end} == {};
  }

  lemma {:induction false} ChainTagged(isOr: bool, c: Code, es: Exprs)
    requires es.Cons? && Tagged(c, {1})
    ensures AddChain(isOr, c, es).Some? ==> Tagged(AddChain(isOr, c, es).value, {})
    decreases es, 0
  {
    hide Tagged, Translate, AddCode, AddJumpI, AddLast, Mark, Deposit, Defines;
    if AddChain(isOr, c, es).Some? {
      var x := Translate(es.head).value;
      TranslateTagged(es.head);
      if es.tail.Nil? {
        ItemTagged(c, Operation(POP), {1});
        LastTagged(AddItem(c, Operation(POP)), x, 1);
      } else {
        var a := AddCode(c, x);
        CodeTagged(c, x, {1});
        ItemTagged(a, Operation(ISZERO), {1});
        var b := if isOr then a else AddItem(a, Operation(ISZERO));
        JumpTagged(b, 1, {1});
        ChainTagged(isOr, AddJumpI(b, 1), es.tail);
      }
    }
  }

  lemma {:induction false} ShortCircuitTagged(isOr: bool, args: Exprs)
    requires Translate(ShortCircuit(isOr, args)).Some?
    ensures Tagged(Translate(ShortCircuit(isOr, args)).value, {})
    decreases args, 2
  {
    hide Tagged, AddChain, AddLast, AllOne, Deposit;
    EmptyTagged();
    NewTagged(EMPTY, {});
    assert {} + {1} == {1};
    if args.tail.Nil? {
      TranslateTagged(args.head);
      LastTagged(WithTag(EMPTY), Translate(args.head).value, 1);
    } else {
      ItemTagged(WithTag(EMPTY), PushWord(if isOr then 1 else 0), {1});
      ChainTagged(isOr, AddItem(WithTag(EMPTY), PushWord(if isOr then 1 else 0)), args);
    }
  }

  // ----- whole programs -----

  /** The code of a tree and a final STOP, as the compiler hands it to the assembler. */
  function Program(e: Expr): seq<Item>
    requires Translate(e).Some?
  {
    Translate(e).value.items + [Operation(STOP)]
  }

  lemma {:induction false} ProgramTags(e: Expr)
    requires Translate(e).Some? && Translate(e).value.usedTags <= MODULUS
    ensures UniqueTags(Program(e)) && PushesDefined(Program(e), {})
  {
    hide Translate;
    TranslateTagged(e);
    PlainTagged(Translate(e).value, [Operation(STOP)], 0, {});
  }

  lemma {:induction false} ShiftNothing(items: seq<Item>)
    ensures Shift(items, 0) == items
  {
  }

  /** A compiled program ends with the world its tree means, or halts as its tree does. */
  lemma {:induction false} ProgramCorrect(env: Env, e: Expr, w: World, fuel: nat)
    requires Translate(e).Some? && Translate(e).value.usedTags <= MODULUS
    requires EvmArithmetic(env) && DistinctTags(env, Program(e))
    ensures match Eval(env, e, w, fuel)
            case Ends(_, w') => HaltsWith(env, Program(e), 0, State([], w), StopWith(w', []).outcome)
            case Stops(o) => HaltsWith(env, Program(e), 0, State([], w), o)
            case Wrong => true
  {
    hide Translate, Eval, UniqueTags, DistinctTags, EvmArithmetic, HaltsWith, Shift, Reaches, PushesDefined;
    var c, p, s := Translate(e).value, Program(e), State([], w);
    ProgramTags(e);
    ShiftNothing(c.items);
    assert p[..|c.items|] == c.items;
    assert Placed(p, 0, c, 0);
    PlacedLies(p, 0, c, 0);
    Sound(env, p, 0, e, [], w, fuel);
    var r := Eval(env, e, w, fuel);
    if r.Ends? {
      var s' := State([] + r.values, r.world);
      ItemHalts(env, p, |c.items|, s', StopWith(r.world, []).outcome);
      ReachesHalt(env, p, 0, s, |c.items|, s', StopWith(r.world, []).outcome);
    }
  }
}
