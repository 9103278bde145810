/** Common subexpression elimination over a whole program, block by block. */
module EliminationPass {
  import opened Words
  import opened Instructions
  import opened Items
  import opened Machine
  import opened Knowledge
  import opened Tracking
  import opened KnownStates
  import opened Segments
  import opened Pieces
  import opened Eliminators

  /** A block and its replacement: the same behaviour, and a tag at most at the end. */
  ghost predicate ChunkOk(chunk: seq<Item>, new_: seq<Item>) {
    && SameBehaviour(chunk, new_)
    && if EndsInTag(chunk)
       then EndsInTag(new_) && new_[|new_| - 1] == chunk[|chunk| - 1] && NoTags(chunk[..|chunk| - 1]) && NoTags(new_[..|new_| - 1])
       else NoTags(chunk) && NoTags(new_)
  }

  predicate EndsInTag(items: seq<Item>) { |items| > 0 && IsTag(items[|items| - 1]) }

  function ChunkPieces(chunk: seq<Item>, new_: seq<Item>): seq<Piece> {
    if EndsInTag(chunk) && EndsInTag(new_)
    then [Piece(chunk[..|chunk| - 1], new_[..|new_| - 1]), Piece([chunk[|chunk| - 1]], [new_[|new_| - 1]])]
    else [Piece(chunk, new_)]
  }

  lemma {:induction false} TagIsNothing(env: Env, items: seq<Item>, s: State)
    requires EndsInTag(items)
    ensures RunSegment(env, items, s) == RunSegment(env, items[..|items| - 1], s)
  {
  }

  lemma {:induction false} BeforeTheTag(chunk: seq<Item>, new_: seq<Item>)
    requires SameBehaviour(chunk, new_) && EndsInTag(chunk) && EndsInTag(new_)
    ensures SameBehaviour(chunk[..|chunk| - 1], new_[..|new_| - 1])
  {
    hide LinkedEnv, NumericState, RunSegment;
    var c, n := chunk[..|chunk| - 1], new_[..|new_| - 1];
    forall env, s | LinkedEnv(env) && NumericState(s) && !RunSegment(env, c, s).Stuck?
      ensures RunSegment(env, n, s) == RunSegment(env, c, s)
    {
      TagIsNothing(env, chunk, s);
      TagIsNothing(env, new_, s);
    }
  }

  lemma {:induction false} SameIsRefined(env: Env, before: seq<Item>, after: seq<Item>)
    requires SameBehaviour(before, after) && LinkedEnv(env)
    ensures Refines(env, None, before, after)
  {
    hide LinkedEnv, NumericState, RunSegment;
  }

  lemma {:induction false} ChunkPiecesOk(chunk: seq<Item>, new_: seq<Item>)
    requires ChunkOk(chunk, new_)
    ensures PiecesOk(ChunkPieces(chunk, new_))
    ensures Befores(ChunkPieces(chunk, new_)) == chunk && Afters(ChunkPieces(chunk, new_)) == new_
  {
    hide SameBehaviour, LinkedEnv, ShortTags, Refines, Befores, Afters;
    var qs := ChunkPieces(chunk, new_);
    if EndsInTag(chunk) {
      BeforeTheTag(chunk, new_);
      TwoPieces(qs[0], qs[1]);
      assert chunk[..|chunk| - 1] + [chunk[|chunk| - 1]] == chunk && new_[..|new_| - 1] + [new_[|new_| - 1]] == new_;
    } else {
      OnePiece(qs[0]);
    }
    forall env | LinkedEnv(env) && ShortTags(env) ensures AllRefine(env, qs) {
      SameIsRefined(env, qs[0].before, qs[0].after);
      RefinesBefore(env, NextTag(qs, 0), qs[0].before, qs[0].after);
    }
  }

  // ----- the pass -----

  /** Where the block that starts at a position ends: after its first breaking item. */
  function BlockEnd(items: seq<Item>, from: nat, msizeImportant: bool): (end: nat)
    requires from < |items|
    ensures from < end <= |items|
    ensures forall i :: from <= i < end - 1 ==> !BreaksBlock(items[i], msizeImportant)
    decreases |items| - from
  {
    if BreaksBlock(items[from], msizeImportant) || from + 1 == |items| then from + 1 else BlockEnd(items, from + 1, msizeImportant)
  }

  lemma {:induction false} BlockTags(items: seq<Item>, from: nat, msizeImportant: bool)
    requires from < |items|
    ensures ChunkOk(items[from..BlockEnd(items, from, msizeImportant)],
                    items[from..BlockEnd(items, from, msizeImportant)])
  {
    hide LinkedEnv, NumericState, RunSegment;
    var chunk := items[from..BlockEnd(items, from, msizeImportant)];
    forall i | 0 <= i < |chunk| - 1 ensures !IsTag(chunk[i]) { assert !BreaksBlock(items[from + i], msizeImportant); }
  }

  lemma {:induction false} OptimisedChunk(fed: seq<Item>, breaking: Option<Item>, new_: seq<Item>)
    requires SameBehaviour(fed + OptionItem(breaking), new_) && TagsStay(breaking, new_)
    requires forall i :: 0 <= i < |fed| ==> Trackable(fed[i])
    ensures ChunkOk(fed + OptionItem(breaking), new_)
  {
    hide SameBehaviour;
    var chunk := fed + OptionItem(breaking);
    forall i | 0 <= i < |fed| ensures !IsTag(chunk[i]) { assert Trackable(fed[i]); }
    if breaking.Some? && IsTag(breaking.value) { assert chunk[..|chunk| - 1] == fed; }
  }

  predicate UsesMsize(items: seq<Item>) { Operation(MSIZE) in items }

  /** One block: the optimised code if there is any and it is shorter, the block itself otherwise. */
  method OptimiseBlock(items: seq<Item>, from: nat, fuel: nat) returns (end: nat, chunk: seq<Item>)
    requires from < |items|
    ensures from < end <= |items| && ChunkOk(items[from..end], chunk) && |chunk| <= end - from
    ensures NoNewTags(items[from..end], chunk)
  {
    hide SameBehaviour, CommonSubexpressionEliminator.Valid, ChunkOk;
    BlockTags(items, from, UsesMsize(items));
    var eliminator := new CommonSubexpressionEliminator();
    var ok;
    ok, end := eliminator.FeedItems(items, from, UsesMsize(items), fuel);
    if ok {
      ghost var fed, breaking := eliminator.fed, eliminator.breakingItem;
      FedIsTrackable(eliminator);
      var optimised := eliminator.GetOptimizedItems(fuel);
      if optimised.Some? && |optimised.value| < end - from {
        OptimisedChunk(fed, breaking, optimised.value);
        return end, optimised.value;
      }
    }
    end := BlockEnd(items, from, UsesMsize(items));
    chunk := items[from..end];
  }

  lemma {:induction false} FedIsTrackable(e: CommonSubexpressionEliminator)
    requires e.Valid()
    ensures forall i :: 0 <= i < |e.fed| ==> Trackable(e.fed[i])
  {
  }

  /** The pass over a whole program. */
  method EliminateCommonSubexpressions(items: seq<Item>, fuel: nat) returns (result: seq<Item>)
    ensures Preserves(items, result) && |result| <= |items| && NoNewTags(items, result)
  {
    hide ChunkOk, PiecesOk, Preserves, Befores, Afters, ChunkPieces, NoNewTags;
    NothingNew([]);
    var from := 0;
    result := [];
    ghost var ps: seq<Piece> := [];
    NoPieces();
    while from < |items|
      invariant 0 <= from <= |items| && |result| <= from
      invariant PiecesOk(ps) && Befores(ps) == items[..from] && Afters(ps) == result
      invariant NoNewTags(items[..from], result)
      decreases |items| - from
    {
      var end, chunk := OptimiseBlock(items, from, fuel);
      ghost var qs := ChunkPieces(items[from..end], chunk);
      ChunkPiecesOk(items[from..end], chunk);
      AddPieces(ps, qs);
      BeforesConcat(ps, qs);
      AftersConcat(ps, qs);
      NoNewTagsConcat(items[..from], result, items[from..end], chunk);
      ps := ps + qs;
      result := result + chunk;
      assert items[..from] + items[from..end] == items[..end];
      from := end;
    }
    assert items[..from] == items;
    PiecesPreserve(ps);
  }
}
