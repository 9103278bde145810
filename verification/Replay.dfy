/** Running only some of a block's stores: when a place still ends up with the same content. */
module Replays {
  import opened Words
  import opened Items
  import opened Machine
  import opened Arithmetic
  import opened Rules
  import opened Expressions
  import opened Classes
  import opened Knowledge
  import opened Steps

  /** A store with its operands evaluated. */
  datatype Write = Write(target: Target, slot: Word, value: Word)

  /** A storage slot or a memory cell. */
  datatype Place = Slot(at: Word) | CellAt(at: Word)
  datatype Content = InSlot(value: Value) | InCell(cell: Cell)

  ghost function ContentAt(w: World, p: Place): Content {
    match p
    case Slot(a) => InSlot(w.storage[a])
    case CellAt(a) => InCell(w.memory[a])
  }

  predicate Touches(x: Write, p: Place) {
    match p
    case Slot(a) => x.target == InStorage && x.slot == a
    case CellAt(a) => x.target == InMemory && OffsetFrom(x.slot, a) < 32
  }

  ghost function ApplyWrite(w: World, x: Write): World { ApplyStore(w, x.target, x.slot, x.value) }

  /** What a write leaves at a place it touches depends on the write alone. */
  ghost function WrittenAt(x: Write, p: Place): Content
    requires Touches(x, p)
  {
    match p
    case Slot(_) => InSlot(Num(x.value))
    case CellAt(a) => InCell(ToCells(Num(x.value))[OffsetFrom(x.slot, a)])
  }

  lemma {:induction false} ApplyWriteAt(w: World, x: Write, p: Place)
    ensures ContentAt(ApplyWrite(w, x), p) == if Touches(x, p) then WrittenAt(x, p) else ContentAt(w, p)
    ensures ApplyWrite(w, x).trace == w.trace
  {
  }

  /** The world after the chosen ones among the first n writes. */
  ghost function Replay(w: World, writes: seq<Write>, done: set<nat>, n: nat): World
    requires n <= |writes|
  {
    if n == 0 then w
    else
      var r := Replay(w, writes, done, n - 1);
      if n - 1 in done then ApplyWrite(r, writes[n - 1]) else r
  }

  /** The worlds between all the writes of a block. */
  ghost predicate HistoryIs(history: seq<World>, writes: seq<Write>) {
    && |history| == |writes| + 1
    && forall j :: 0 <= j < |writes| ==> Follows(history, writes, j)
  }

  ghost predicate Follows(history: seq<World>, writes: seq<Write>, j: nat)
    requires |history| == |writes| + 1 && j < |writes|
  {
    history[j + 1] == ApplyWrite(history[j], writes[j])
  }

  /** Write j is the last of the first p writes that touches a place. */
  predicate LastTouch(writes: seq<Write>, j: nat, p: nat, place: Place)
    requires p <= |writes|
  {
    j < p && Touches(writes[j], place) && forall i :: j < i < p ==> !Touches(writes[i], place)
  }

  /** The write that decided a place's content is among the chosen ones. */
  ghost predicate Covered(writes: seq<Write>, done: set<nat>, p: nat, place: Place)
    requires p <= |writes|
  {
    forall j: nat :: LastTouch(writes, j, p, place) ==> j in done
  }

  lemma {:induction false} CoveredBefore(writes: seq<Write>, done: set<nat>, p: nat, place: Place)
    requires p < |writes| && Covered(writes, done, p + 1, place) && !Touches(writes[p], place)
    ensures Covered(writes, done, p, place)
  {
    forall j: nat | LastTouch(writes, j, p, place) ensures j in done {
      assert LastTouch(writes, j, p + 1, place);
    }
  }

  /** The chosen writes leave the content that all writes left, at every covered place. */
  lemma {:induction false} ReplayAgrees(history: seq<World>, writes: seq<Write>, done: set<nat>, p: nat, place: Place)
    requires HistoryIs(history, writes) && p <= |writes| && Covered(writes, done, p, place)
    ensures ContentAt(Replay(history[0], writes, done, p), place) == ContentAt(history[p], place)
    decreases p
  {
    if p > 0 {
      hide Touches, ApplyWrite, ContentAt, WrittenAt;
      var q := p - 1;
      assert Follows(history, writes, q);
      ApplyWriteAt(history[q], writes[q], place);
      ApplyWriteAt(Replay(history[0], writes, done, q), writes[q], place);
      if Touches(writes[q], place) {
        assert LastTouch(writes, q, p, place);
      } else {
        CoveredBefore(writes, done, q, place);
        ReplayAgrees(history, writes, done, q, place);
      }
    }
  }

  /** Writes that are not chosen do not matter. */
  lemma {:induction false} ReplayShort(w: World, writes: seq<Write>, done: set<nat>, p: nat, n: nat)
    requires p <= n <= |writes| && forall j :: j in done ==> j < p
    ensures Replay(w, writes, done, n) == Replay(w, writes, done, p)
    decreases n
  {
    if p < n { ReplayShort(w, writes, done, p, n - 1); }
  }

  /** Choosing one more write after all the others runs it last. */
  lemma {:induction false} ReplayNext(w: World, writes: seq<Write>, done: set<nat>, j: nat)
    requires j < |writes| && forall i :: i in done ==> i < j
    ensures Replay(w, writes, done + {j}, |writes|) == ApplyWrite(Replay(w, writes, done, |writes|), writes[j])
  {
    ReplayShort(w, writes, done, j, |writes|);
    ReplayShort(w, writes, done + {j}, j + 1, |writes|);
    ReplaySame(w, writes, done, done + {j}, j);
  }

  lemma {:induction false} ReplaySame(w: World, writes: seq<Write>, done: set<nat>, done': set<nat>, n: nat)
    requires n <= |writes| && forall i: nat :: i < n ==> (i in done <==> i in done')
    ensures Replay(w, writes, done, n) == Replay(w, writes, done', n)
    decreases n
  {
    if n > 0 { ReplaySame(w, writes, done, done', n - 1); }
  }

  lemma {:induction false} ReplayTrace(w: World, writes: seq<Write>, done: set<nat>, n: nat)
    requires n <= |writes|
    ensures Replay(w, writes, done, n).trace == w.trace
    decreases n
  {
    if n > 0 {
      ReplayTrace(w, writes, done, n - 1);
      ApplyWriteAt(Replay(w, writes, done, n - 1), writes[n - 1], Slot(0));
    }
  }

  lemma {:induction false} HistoryTrace(history: seq<World>, writes: seq<Write>, n: nat)
    requires HistoryIs(history, writes) && n <= |writes|
    ensures history[n].trace == history[0].trace
    decreases n
  {
    if n > 0 {
      HistoryTrace(history, writes, n - 1);
      assert Follows(history, writes, n - 1);
      ApplyWriteAt(history[n - 1], writes[n - 1], Slot(0));
    }
  }

  lemma {:induction false} SameContents(w: World, w': World)
    requires w.trace == w'.trace && forall p: Place :: ContentAt(w, p) == ContentAt(w', p)
    ensures w == w'
  {
    forall a: Word ensures w.storage[a] == w'.storage[a] { assert ContentAt(w, Slot(a)) == ContentAt(w', Slot(a)); }
    forall a: Word ensures w.memory[a] == w'.memory[a] { assert ContentAt(w, CellAt(a)) == ContentAt(w', CellAt(a)); }
    assert w.storage == w'.storage && w.memory == w'.memory;
  }

  /** If every place is covered, dropping the other writes changes nothing. */
  lemma {:induction false} ReplayIsHistory(history: seq<World>, writes: seq<Write>, done: set<nat>)
    requires HistoryIs(history, writes) && forall p: Place :: Covered(writes, done, |writes|, p)
    ensures Replay(history[0], writes, done, |writes|) == history[|writes|]
  {
    var w := Replay(history[0], writes, done, |writes|);
    forall p: Place ensures ContentAt(w, p) == ContentAt(history[|writes|], p) {
      ReplayAgrees(history, writes, done, |writes|, p);
    }
    ReplayTrace(history[0], writes, done, |writes|);
    HistoryTrace(history, writes, |writes|);
    SameContents(w, history[|writes|]);
  }

  /** A word of memory is determined by its 32 cells. */
  lemma {:induction false} SameRead(w: World, w': World, a: Word)
    requires forall i :: 0 <= i < 32 ==> ContentAt(w, CellAt(AddressAt(a, i))) == ContentAt(w', CellAt(AddressAt(a, i)))
    ensures ReadWord(w.memory, a) == ReadWord(w'.memory, a)
  {
    forall i | 0 <= i < 32 ensures CellsAt(w.memory, a)[i] == CellsAt(w'.memory, a)[i] {
      assert ContentAt(w, CellAt(AddressAt(a, i))) == ContentAt(w', CellAt(AddressAt(a, i)));
    }
    assert CellsAt(w.memory, a) == CellsAt(w'.memory, a);
  }

  lemma {:induction false} FarApartSymmetric(x: Word, y: Word)
    requires FarApart(x, y)
    ensures FarApart(y, x)
  {
    assert Sub(x, y) == OffsetFrom(y, x) && Sub(y, x) == OffsetFrom(x, y);
  }
}
