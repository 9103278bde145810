/** The optimiser of an assembly: all passes, again and again, until none finds anything to do. */
module Optimisers {
  import opened Words
  import opened Instructions
  import opened Items
  import opened Machine
  import opened Segments
  import opened Pieces
  import opened TagRelation
  import opened Bisimulation
  import opened TagData
  import Deduplicator
  import opened JumpdestRemovers
  import PeepholePass
  import EliminationPass
  import ConstantPass
  import CodeGenerators

  datatype Settings = Settings(
    runJumpdestRemover: bool,
    runPeephole: bool,
    runDeduplicate: bool,
    runCSE: bool,
    runConstantOptimiser: bool)

  /** The exceptions that stop the optimiser. */
  datatype Failure = ForeignTag | NoSize | InvalidReplacement | ReplacementKnown

  // ----- what every change lowers -----

  function Places(items: seq<Item>): nat { Deduplicator.PushedPlaces(items, |items|) }

  /** Fewer items; or as many, but fewer that are not POP, or fewer plain pushes, or tags pushed from earlier places. */
  predicate Smaller(a: seq<Item>, b: seq<Item>) {
    || |a| < |b|
    || (|a| == |b| && PeepholePass.NonPops(a) < PeepholePass.NonPops(b))
    || (|a| == |b| && PeepholePass.NonPops(a) == PeepholePass.NonPops(b) &&
        (PeepholePass.Pushes(a) < PeepholePass.Pushes(b) ||
         (PeepholePass.Pushes(a) == PeepholePass.Pushes(b) && Places(a) < Places(b))))
  }

  lemma {:induction false} PeepholeSmaller(a: seq<Item>, b: seq<Item>)
    requires PeepholePass.Lower(a, b) && |a| <= |b|
    ensures Smaller(a, b)
  {
  }

  lemma {:induction false} PushTagsDoNotCount(a: seq<Item>, b: seq<Item>)
    requires Deduplicator.SameExceptPushes(a, b)
    ensures PeepholePass.NonPops(a) == PeepholePass.NonPops(b) && PeepholePass.Pushes(a) == PeepholePass.Pushes(b)
    decreases |a|
  {
    if a != [] {
      var n := |a| - 1;
      PushTagsDoNotCount(a[..n], b[..n]);
      assert a[n] == b[n] || (IsPushTag(a[n]) && IsPushTag(b[n]));
    }
  }

  lemma {:induction false} DeduplicationSmaller(a: seq<Item>, b: seq<Item>)
    requires Deduplicator.SameExceptPushes(b, a) && Places(a) < Places(b)
    ensures Smaller(a, b)
  {
    PushTagsDoNotCount(b, a);
  }

  lemma {:induction false} SmallerTwice(a: seq<Item>, b: seq<Item>, c: seq<Item>)
    requires Smaller(a, b) && Smaller(b, c)
    ensures Smaller(a, c)
  {
    hide Places;
  }

  lemma {:induction false} PushesKeepTags(p: seq<Item>, q: seq<Item>)
    requires Deduplicator.SameExceptPushes(p, q) && UniqueTags(p)
    ensures UniqueTags(q)
  {
    forall i, j | 0 <= i < j < |q| && IsTag(q[i]) && IsTag(q[j]) ensures q[i].data != q[j].data {
      assert p[i] == q[i] && p[j] == q[j];
    }
  }

  // ----- what every change keeps -----

  /** One program replaced by another: passes that compute with tags preserve every halting run of a linked program,
      passes that move tags preserve halting runs in both directions while tags are opaque. */
  ghost predicate Replaces(p: seq<Item>, q: seq<Item>) { Preserves(p, q) || PreservesLive({}, p, q) }

  ghost predicate IsHistory(ps: seq<seq<Item>>) {
    |ps| > 0 && forall i :: 0 <= i < |ps| - 1 ==> Replaces(ps[i], ps[i + 1])
  }

  /** Every step from the first program to the last one was such a replacement. */
  ghost predicate Reached(items: seq<Item>, result: seq<Item>) {
    exists ps: seq<seq<Item>> :: IsHistory(ps) && ps[0] == items && ps[|ps| - 1] == result
  }

  lemma {:induction false} ReachedNext(items: seq<Item>, a: seq<Item>, b: seq<Item>)
    requires Reached(items, a) && Replaces(a, b)
    ensures Reached(items, b)
  {
    hide Replaces;
    var ps: seq<seq<Item>> :| IsHistory(ps) && ps[0] == items && ps[|ps| - 1] == a;
    var qs := ps + [b];
    forall i | 0 <= i < |qs| - 1 ensures Replaces(qs[i], qs[i + 1]) {
      if i < |ps| - 1 { assert Replaces(ps[i], ps[i + 1]); }
    }
    assert IsHistory(qs);
  }

  /** What is known about the result, depending on the passes that may have run. */
  ghost predicate Sound(settings: Settings, items: seq<Item>, result: seq<Item>) {
    && UniqueTags(result) && |result| <= |items| && Reached(items, result)
    && (!settings.runJumpdestRemover && !settings.runDeduplicate ==> Preserves(items, result))
    && (!settings.runPeephole && !settings.runCSE ==> PreservesLive({}, items, result))
  }

  lemma {:induction false} SoundStart(settings: Settings, items: seq<Item>)
    requires UniqueTags(items)
    ensures Sound(settings, items, items)
  {
    hide HaltsWith, OpaqueTags, LiveState, Preserves;
    PreservesNothing(items);
    assert IsHistory([items]);
  }

  lemma {:induction false} SoundNumeric(settings: Settings, items: seq<Item>, a: seq<Item>, b: seq<Item>)
    requires Sound(settings, items, a) && Preserves(a, b) && |b| <= |a|
    requires (settings.runPeephole || settings.runCSE)
    ensures Sound(settings, items, b)
  {
    hide PreservesLive, SameOutcomes, ProgramOk, UniqueTags, Reached;
    ReachedNext(items, a, b);
    if Preserves(items, a) { PreservesTwice(items, a, b); }
  }

  lemma {:induction false} SoundOpaque(settings: Settings, items: seq<Item>, a: seq<Item>, b: seq<Item>)
    requires Sound(settings, items, a) && |b| <= |a| && UniqueTags(b) && PreservesLive({}, a, b)
    requires (settings.runJumpdestRemover || settings.runDeduplicate)
    ensures Sound(settings, items, b)
  {
    hide Preserves, UniqueTags, HaltsWith, OpaqueTags, LiveState, Reached;
    ReachedNext(items, a, b);
    if PreservesLive({}, items, a) && UniqueTags(items) {
      forall env, s, o | OpaqueTags(env) && LiveState({}, s)
        ensures HaltsWith(env, items, 0, s, o) <==> HaltsWith(env, b, 0, s, o)
      {
        assert HaltsWith(env, items, 0, s, o) <==> HaltsWith(env, a, 0, s, o);
      }
    }
  }

  /** More states are covered when more tags are known outside. */
  lemma {:induction false} LiveLess(outside: set<nat>, p: seq<Item>, q: seq<Item>)
    requires PreservesLive(outside, p, q)
    ensures PreservesLive({}, p, q)
  {
    hide UniqueTags, HaltsWith, OpaqueTags, LiveState;
    if UniqueTags(p) {
      forall env, s, o | OpaqueTags(env) && LiveState({}, s)
        ensures HaltsWith(env, p, 0, s, o) <==> HaltsWith(env, q, 0, s, o)
      {
        LiveMore({}, outside, s);
      }
    }
  }

  lemma {:induction false} BisimilarLive(p: seq<Item>, q: seq<Item>)
    requires Bisimilar(p, q) && UniqueTags(q)
    ensures PreservesLive({}, p, q)
  {
    hide HaltsWith, OpaqueTags, LiveState, UniqueTags;
  }

  // ----- no tag is replaced twice while unused tags are removed -----

  /** Tags as the assembler combines them: two numbers of 64 bits. */
  predicate TagsFit(items: seq<Item>) { forall x :: x in items && NamesTag(x) ==> x.data < TWO128 }

  predicate NonePushed(known: map<Word, Word>, items: seq<Item>) { forall t :: t in known ==> PushTagItem(t) !in items }

  predicate NonePlaced(known: map<Word, Word>, items: seq<Item>) {
    && (forall t :: t in known ==> TagItem(t) !in items)
    && (forall x :: x in items && IsTag(x) ==> IsOwn(x.data))
  }

  /** Between rounds: no replaced tag is pushed any more. */
  ghost predicate Tidy(settings: Settings, closed: bool, known: map<Word, Word>, items: seq<Item>, result: seq<Item>) {
    settings.runJumpdestRemover && closed && TagsFit(items) ==> TagsFit(result) && NonePushed(known, result)
  }

  /** Inside a round, once unused tags are gone: no replaced tag is in place either. */
  ghost predicate Clean(settings: Settings, closed: bool, known: map<Word, Word>, items: seq<Item>, result: seq<Item>) {
    && Tidy(settings, closed, known, items, result)
    && (settings.runJumpdestRemover && closed && TagsFit(items) ==> NonePlaced(known, result))
  }

  /** The tags left in place are pushed, if none is known outside. */
  ghost predicate Used(outside: set<nat>, now: seq<Item>, result: seq<Item>) {
    forall x :: x in result && IsTag(x) ==> IsLocal(x.data) && (Cut(x.data) in outside || Referenced(now, Cut(x.data)))
  }

  lemma {:induction false} CleanAfterRemoval(settings: Settings, closed: bool, known: map<Word, Word>,
      items: seq<Item>, now: seq<Item>, result: seq<Item>)
    requires Tidy(settings, closed, known, items, now) && NoNewTags(now, result) && Used({}, now, result)
    ensures Clean(settings, closed, known, items, result)
  {
    hide IsLocal, Cut, Referenced;
    if settings.runJumpdestRemover && closed && TagsFit(items) {
      forall x | x in result && IsTag(x) ensures IsOwn(x.data) && x.data !in known {
        PushedTag(now, x);
        assert PushTagItem(x.data) in now;
      }
      assert forall t :: t in known ==> IsTag(TagItem(t)) && TagItem(t).data == t;
    }
  }

  /** A local tag that is referenced is pushed under the very same data. */
  lemma {:induction false} PushedTag(now: seq<Item>, x: Item)
    requires TagsFit(now) && x in now && IsTag(x) && IsLocal(x.data) && Referenced(now, Cut(x.data))
    ensures IsOwn(x.data) && PushTagItem(x.data) in now
  {
    hide IsLocal, Cut;
    CombinedSplit(x.data);
    var i :| 0 <= i < |now| && IsPushTag(now[i]) && IsLocal(now[i].data) && Cut(now[i].data) == Cut(x.data);
    assert now[i] in now;
    CombinedSplit(now[i].data);
    OwnCut(x.data);
    OwnCut(now[i].data);
    assert now[i] == PushTagItem(x.data);
  }

  lemma {:induction false} OwnCut(data: Word)
    requires IsOwn(data)
    ensures Cut(data) == data
  {
  }

  lemma {:induction false} StillTidy(settings: Settings, closed: bool, known: map<Word, Word>, items: seq<Item>,
      now: seq<Item>, result: seq<Item>)
    requires Tidy(settings, closed, known, items, now) && NoNewTags(now, result)
    ensures Tidy(settings, closed, known, items, result)
    ensures Clean(settings, closed, known, items, now) ==> Clean(settings, closed, known, items, result)
  {
  }

  /** Merged blocks: the tags replaced now are not pushed either. */
  lemma {:induction false} TidyAfterMerging(settings: Settings, closed: bool, known: map<Word, Word>,
      items: seq<Item>, now: seq<Item>, replaced: map<Word, Word>, result: seq<Item>)
    requires Clean(settings, closed, known, items, now) && Deduplicator.PushesPlaced(now, result)
    requires Composable(replaced, known)
    requires forall i :: 0 <= i < |result| ==> !Deduplicator.PushesOneOf(result[i], replaced)
    ensures Tidy(settings, closed, known + replaced, items, result)
  {
    if settings.runJumpdestRemover && closed && TagsFit(items) {
      forall x | x in result && NamesTag(x) ensures x.data < TWO128 && (IsPushTag(x) ==> x.data !in known + replaced) {
        var i :| 0 <= i < |result| && result[i] == x;
        assert !Deduplicator.PushesOneOf(result[i], replaced);
        if x !in now { assert TagItem(x.data) in now; } else if IsPushTag(x) { assert x == PushTagItem(x.data); }
      }
      assert forall t :: t in known + replaced ==> IsPushTag(PushTagItem(t)) && PushTagItem(t).data == t;
    }
  }

  // ----- the passes -----

  method RemoveJumpdests(settings: Settings, ghost closed: bool, ghost items: seq<Item>, now: seq<Item>,
      outside: set<nat>, ghost known: map<Word, Word>)
    returns (failed: Option<Failure>, changed: bool, result: seq<Item>)
    requires settings.runJumpdestRemover && Sound(settings, items, now) && (closed ==> outside == {})
    requires Tidy(settings, closed, known, items, now)
    ensures failed == if LocalTags(now) then None else Some(ForeignTag)
    ensures failed.None? ==> Sound(settings, items, result) && Clean(settings, closed, known, items, result)
    ensures failed.None? ==> if changed then Smaller(result, now) else result == now
  {
    hide Preserves, PreservesLive, UniqueTags, LocalTags, Referenced, Tidy, Clean, Cut, IsLocal, NoNewTags;
    var remover := new JumpdestRemover(now);
    var ok;
    ok, changed := remover.Optimise(outside);
    result := remover.items;
    failed := if ok then None else Some(ForeignTag);
    if ok {
      LiveTags(outside, now, result);
      LiveLess(outside, now, result);
      SoundOpaque(settings, items, now, result);
      NowUsed(outside, now, result);
      if closed {
        CleanAfterRemoval(settings, closed, known, items, now, result);
      } else {
        NotClosed(settings, known, items, result);
      }
    }
  }

  lemma {:induction false} NowUsed(outside: set<nat>, now: seq<Item>, result: seq<Item>)
    requires LocalTags(result)
    requires forall i :: 0 <= i < |result| && IsTag(result[i]) ==>
              Cut(result[i].data) in outside || Referenced(now, Cut(result[i].data))
    ensures Used(outside, now, result)
  {
    hide Referenced, Cut, IsLocal;
  }

  lemma {:induction false} NotClosed(settings: Settings, known: map<Word, Word>, items: seq<Item>, result: seq<Item>)
    ensures Clean(settings, false, known, items, result)
  {
  }

  lemma {:induction false} LiveTags(outside: set<nat>, p: seq<Item>, q: seq<Item>)
    requires PreservesLive(outside, p, q) && UniqueTags(p)
    ensures UniqueTags(q)
  {
    hide HaltsWith, OpaqueTags, LiveState, UniqueTags;
  }

  method RunPeephole(settings: Settings, ghost closed: bool, ghost items: seq<Item>, now: seq<Item>,
      ghost known: map<Word, Word>) returns (failed: Option<Failure>, changed: bool, result: seq<Item>)
    requires settings.runPeephole && Sound(settings, items, now) && Clean(settings, closed, known, items, now)
    ensures failed.None? ==> Sound(settings, items, result) && Clean(settings, closed, known, items, result)
    ensures failed.None? ==> if changed then Smaller(result, now) else result == now
    ensures failed.Some? ==> failed == Some(NoSize)
  {
    hide Preserves, PreservesLive, UniqueTags, PeepholePass.Lower, Smaller, Tidy, NoNewTags;
    var ok;
    result, ok := PeepholePass.OptimiseFully(now);
    changed := result != now;
    failed := if ok then None else Some(NoSize);
    if ok {
      SoundNumeric(settings, items, now, result);
      StillTidy(settings, closed, known, items, now, result);
      if changed { PeepholeSmaller(result, now); }
    }
  }

  /** Blocks merged; the tags known outside follow the replacements. A failure names a tag that is in place and
      too large, or in place and replaced before. */
  method MergeBlocks(settings: Settings, ghost closed: bool, ghost items: seq<Item>, now: seq<Item>, outside: set<nat>,
      known: map<Word, Word>)
    returns (failed: Option<Failure>, changed: bool, result: seq<Item>, outside': set<nat>, known': map<Word, Word>)
    requires settings.runDeduplicate && Sound(settings, items, now)
    requires Clean(settings, closed, known, items, now)
    ensures failed.Some? ==> MergingStopped(now, known, failed.value)
    ensures failed.None? ==> Sound(settings, items, result) && Tidy(settings, closed, known', items, result)
    ensures failed.None? ==> if changed then Smaller(result, now) else result == now
    ensures failed.None? && outside == {} ==> outside' == {}
  {
    hide Preserves, PreservesLive, UniqueTags, Bisimilar, Places, Smaller, Deduplicator.AllFound, Deduplicator.NoSelf;
    hide Deduplicator.SameExceptPushes, Deduplicator.PushesPlaced, Clean, Tidy, MergingStopped, Composable;
    hide Deduplicator.PushesOneOf;
    var deduplicator := new Deduplicator.BlockDeduplicator(now);
    changed := deduplicator.Deduplicate();
    failed, result, outside', known' := None, deduplicator.items, outside, known;
    StartsTidy(settings, closed, known, items, now);
    if changed {
      failed, outside', known' := FollowReplacements(deduplicator.replacedTags, outside, known);
      if failed.Some? {
        StillPlaced(now, deduplicator.replacedTags, known, failed.value);
        return;
      }
      TidyAfterMerging(settings, closed, known, items, now, deduplicator.replacedTags, result);
    }
    PushesKeepTags(now, result);
    SameLength(now, result);
    BisimilarLive(now, result);
    SoundOpaque(settings, items, now, result);
    if changed { Fewer(now, result); }
  }

  lemma {:induction false} StartsTidy(settings: Settings, closed: bool, known: map<Word, Word>, items: seq<Item>,
      now: seq<Item>)
    requires Clean(settings, closed, known, items, now)
    ensures Tidy(settings, closed, known, items, now)
  {
  }

  /** Why joining the replacements fails. */
  ghost predicate MergingStopped(now: seq<Item>, known: map<Word, Word>, why: Failure) {
    exists t :: TagItem(t) in now &&
      if why == ReplacementKnown then t in known else why == InvalidReplacement && !IsOwn(t)
  }

  /** With unused tags removed and none known outside, merging never fails. */
  lemma {:induction false} NeverReplacedTwice(settings: Settings, closed: bool, known: map<Word, Word>,
      items: seq<Item>, now: seq<Item>, why: Failure)
    requires settings.runJumpdestRemover && closed && TagsFit(items) && Clean(settings, closed, known, items, now)
    ensures !MergingStopped(now, known, why)
  {
    assert forall t :: TagItem(t) in now ==> IsTag(TagItem(t)) && TagItem(t).data == t;
  }

  /** Composition fails only while the tag of an earlier replacement is still in place (or tags are too large). */
  lemma {:induction false} StillPlaced(now: seq<Item>, replaced: map<Word, Word>, known: map<Word, Word>, why: Failure)
    requires Blamed(replaced, known, why)
    requires forall t :: t in replaced ==> TagItem(t) in now && TagItem(replaced[t]) in now
    ensures MergingStopped(now, known, why)
  {
    var t :| t in replaced &&
      if why == ReplacementKnown then t in known
      else why == InvalidReplacement && (!IsOwn(t) || !IsOwn(replaced[t]));
    assert TagItem(t) in now && TagItem(replaced[t]) in now;
  }

  lemma {:induction false} SameLength(p: seq<Item>, q: seq<Item>)
    requires Deduplicator.SameExceptPushes(p, q)
    ensures |p| == |q|
  {
  }

  lemma {:induction false} Fewer(p: seq<Item>, q: seq<Item>)
    requires Deduplicator.SameExceptPushes(p, q)
    requires Deduplicator.PushedPlaces(q, |q|) < Deduplicator.PushedPlaces(p, |p|)
    ensures Smaller(q, p)
  {
    hide Deduplicator.PushedPlaces, Deduplicator.SameExceptPushes;
    DeduplicationSmaller(q, p);
  }

  /** The tags known outside after the replacements for `rest`, least tag first. */
  ghost function Followed(outside: set<nat>, replaced: map<Word, Word>, rest: set<Word>): set<nat>
    requires rest <= replaced.Keys
    decreases |rest|
  {
    if rest == {} then outside
    else
      var t := Least(rest);
      Followed(Moved(outside, t, replaced[t]), replaced, rest - {t})
  }

  function Least(rest: set<Word>): (t: Word)
    requires rest != {}
    ensures t in rest && forall u :: u in rest ==> t <= u
  {
    CodeGenerators.Lowest(rest)
  }

  function Moved(outside: set<nat>, t: Word, u: Word): set<nat> {
    if t in outside then outside - {t} + {u} else outside
  }

  /** If no replacement is itself replaced, every tag known outside is exchanged for its replacement. */
  lemma {:induction false} FollowedExactly(outside: set<nat>, replaced: map<Word, Word>, rest: set<Word>)
    requires rest <= replaced.Keys && forall t :: t in rest ==> replaced[t] !in rest
    ensures forall u :: u in Followed(outside, replaced, rest) <==>
              (u in outside && u !in rest) || exists t :: t in rest && t in outside && replaced[t] == u
    decreases |rest|
  {
    if rest != {} {
      var t := Least(rest);
      FollowedExactly(Moved(outside, t, replaced[t]), replaced, rest - {t});
    }
  }

  /** Numbers that fit the machine's size type, and no tag replaced before. */
  predicate Composable(replaced: map<Word, Word>, known: map<Word, Word>) {
    forall t :: t in replaced ==> IsOwn(t) && IsOwn(replaced[t]) && t !in known
  }

  /** A replacement that accounts for the failure. */
  ghost predicate Blamed(replaced: map<Word, Word>, known: map<Word, Word>, why: Failure) {
    exists t :: t in replaced &&
      if why == ReplacementKnown then t in known else why == InvalidReplacement && (!IsOwn(t) || !IsOwn(replaced[t]))
  }

  /** Replacements are joined with those known and followed by the tags known outside; fails exactly on tags that
      are too large or known already. */
  method FollowReplacements(replaced: map<Word, Word>, outside: set<nat>, known: map<Word, Word>)
    returns (failed: Option<Failure>, outside': set<nat>, known': map<Word, Word>)
    ensures failed.None? == Composable(replaced, known)
    ensures failed.Some? ==> Blamed(replaced, known, failed.value)
    ensures failed.None? ==> outside' == Followed(outside, replaced, replaced.Keys)
    ensures failed.None? ==> known' == known + replaced
    ensures failed.None? && outside == {} ==> outside' == {}
  {
    failed, outside', known' := None, outside, known;
    var rest := replaced.Keys;
    hide KnownBut, Moved, Least, Followed, Composable, Blamed;
    Known(known, replaced, rest, known');
    while rest != {}
      invariant rest <= replaced.Keys && KnownBut(known, replaced, rest, known')
      invariant Followed(outside, replaced, replaced.Keys) == Followed(outside', replaced, rest)
      decreases |rest|
    {
      var t := LeastOf(rest);
      FollowNext(outside', replaced, rest);
      KnownNow(known, replaced, rest, known', t);
      if !IsOwn(t) || !IsOwn(replaced[t]) || t in known' {
        failed := Some(if IsOwn(t) && IsOwn(replaced[t]) then ReplacementKnown else InvalidReplacement);
        NotComposable(replaced, known, t, failed.value);
        return;
      }
      KnownNext(known, replaced, rest, known', t);
      known' := known'[t := replaced[t]];
      outside' := Moved(outside', t, replaced[t]);
      rest := rest - {t};
    }
    KnownAll(known, replaced, known');
    FollowedAll(outside', replaced);
    if outside == {} { FollowedNothing(replaced, replaced.Keys); }
  }

  method LeastOf(rest: set<Word>) returns (t: Word)
    requires rest != {}
    ensures t == Least(rest) && t in rest
  {
    t := Least(rest);
  }

  lemma {:induction false} FollowNext(outside: set<nat>, replaced: map<Word, Word>, rest: set<Word>)
    requires rest != {} && rest <= replaced.Keys
    ensures var t := Least(rest);
            Followed(outside, replaced, rest) == Followed(Moved(outside, t, replaced[t]), replaced, rest - {t})
  {
    hide Moved, Least;
  }

  lemma {:induction false} FollowedAll(outside: set<nat>, replaced: map<Word, Word>)
    ensures Followed(outside, replaced, {}) == outside
  {
  }

  lemma {:induction false} NotComposable(replaced: map<Word, Word>, known: map<Word, Word>, t: Word, why: Failure)
    requires t in replaced && (!IsOwn(t) || !IsOwn(replaced[t]) || t in known)
    requires why == if IsOwn(t) && IsOwn(replaced[t]) then ReplacementKnown else InvalidReplacement
    ensures !Composable(replaced, known) && Blamed(replaced, known, why)
  {
  }

  lemma {:induction false} FollowedNothing(replaced: map<Word, Word>, rest: set<Word>)
    requires rest <= replaced.Keys
    ensures Followed({}, replaced, rest) == {}
    decreases |rest|
  {
    if rest != {} { FollowedNothing(replaced, rest - {Least(rest)}); }
  }

  ghost predicate KnownBut(known: map<Word, Word>, replaced: map<Word, Word>, rest: set<Word>, now: map<Word, Word>) {
    && (forall t :: t in now <==> t in known || (t in replaced && t !in rest))
    && (forall t :: t in known ==> now[t] == known[t] && (t in replaced ==> t in rest))
    && (forall t :: t in replaced && t !in rest ==> now[t] == replaced[t] && IsOwn(t) && IsOwn(replaced[t]))
  }

  lemma {:induction false} Known(known: map<Word, Word>, replaced: map<Word, Word>, rest: set<Word>, now: map<Word,
      Word>)
    requires rest == replaced.Keys && now == known
    ensures KnownBut(known, replaced, rest, now)
  {
  }

  lemma {:induction false} KnownNow(known: map<Word, Word>, replaced: map<Word, Word>, rest: set<Word>, now: map<Word,
      Word>, t: Word)
    requires KnownBut(known, replaced, rest, now) && t in rest && rest <= replaced.Keys
    ensures t in now <==> t in known
  {
  }

  lemma {:induction false} KnownNext(known: map<Word, Word>, replaced: map<Word, Word>, rest: set<Word>, now: map<Word,
      Word>, t: Word)
    requires KnownBut(known, replaced, rest, now) && t in rest && t in replaced && t !in now
    requires IsOwn(t) && IsOwn(replaced[t])
    ensures KnownBut(known, replaced, rest - {t}, now[t := replaced[t]])
  {
  }

  lemma {:induction false} KnownAll(known: map<Word, Word>, replaced: map<Word, Word>, now: map<Word, Word>)
    requires KnownBut(known, replaced, {}, now)
    ensures now == known + replaced && Composable(replaced, known)
  {
  }

  method Eliminate(settings: Settings, ghost closed: bool, ghost items: seq<Item>, now: seq<Item>,
      ghost known: map<Word, Word>, fuel: nat) returns (changed: bool, result: seq<Item>)
    requires settings.runCSE && Sound(settings, items, now) && Tidy(settings, closed, known, items, now)
    ensures Sound(settings, items, result) && Tidy(settings, closed, known, items, result)
    ensures if changed then Smaller(result, now) else result == now
  {
    hide Preserves, PreservesLive, UniqueTags, Tidy, Clean, NoNewTags;
    result := EliminationPass.EliminateCommonSubexpressions(now, fuel);
    changed := |result| < |now|;
    if changed {
      SoundNumeric(settings, items, now, result);
      StillTidy(settings, closed, known, items, now, result);
    } else {
      result := now;
    }
  }

  /** One round of all passes. */
  method Round(settings: Settings, ghost closed: bool, ghost items: seq<Item>, now: seq<Item>, outside: set<nat>,
      known: map<Word, Word>, fuel: nat)
    returns (failed: Option<Failure>, changed: bool, result: seq<Item>, outside': set<nat>, known': map<Word, Word>)
    requires Sound(settings, items, now) && (closed ==> outside == {})
    requires Tidy(settings, closed, known, items, now)
    ensures failed.None? ==> Sound(settings, items, result) && Tidy(settings, closed, known', items, result)
    ensures failed.None? ==> if changed then Smaller(result, now) else result == now
    ensures failed.None? && outside == {} ==> outside' == {}
    ensures settings.runJumpdestRemover && closed && TagsFit(items) ==>
              failed != Some(ReplacementKnown) && failed != Some(InvalidReplacement)
  {
    hide Sound, Smaller, Tidy, Clean, TagsFit, MergingStopped, LocalTags;
    failed, changed, result, outside', known' := None, false, now, outside, known;
    var more, next := false, now;
    if settings.runJumpdestRemover {
      failed, changed, result := RemoveJumpdests(settings, closed, items, result, outside', known);
      if failed.Some? { return; }
    } else {
      NoRemoval(settings, closed, known, items, now);
    }
    if settings.runPeephole {
      failed, more, next := RunPeephole(settings, closed, items, result, known);
      if failed.Some? { return; }
      if changed && more { SmallerTwice(next, result, now); }
      changed, result := changed || more, next;
    }
    StartsTidy(settings, closed, known, items, result);
    if settings.runDeduplicate {
      ghost var before := result;
      failed, more, next, outside', known' := MergeBlocks(settings, closed, items, result, outside', known');
      if failed.Some? {
        if settings.runJumpdestRemover && closed && TagsFit(items) {
          NeverReplacedTwice(settings, closed, known, items, before, failed.value);
          assert false;
        }
        return;
      }
      if changed && more { SmallerTwice(next, result, now); }
      changed, result := changed || more, next;
    }
    if settings.runCSE {
      more, next := Eliminate(settings, closed, items, result, known', fuel);
      if changed && more { SmallerTwice(next, result, now); }
      changed, result := changed || more, next;
    }
  }

  lemma {:induction false} NoRemoval(settings: Settings, closed: bool, known: map<Word, Word>, items: seq<Item>,
      now: seq<Item>)
    requires !settings.runJumpdestRemover
    ensures Clean(settings, closed, known, items, now)
  {
  }

  lemma {:induction false} NothingKnown(settings: Settings, closed: bool, items: seq<Item>)
    ensures Tidy(settings, closed, map[], items, items)
  {
  }

  /** Rounds until none changes anything. That this ends needs no counter: every change makes the program smaller.
      While unused tags are removed and none is known outside, no tag is ever replaced twice. */
  method Iterate(settings: Settings, items: seq<Item>, outside: set<nat>, fuel: nat)
    returns (failed: Option<Failure>, result: seq<Item>, known: map<Word, Word>)
    requires UniqueTags(items)
    ensures failed.None? ==> Sound(settings, items, result)
    ensures settings.runJumpdestRemover && outside == {} && TagsFit(items) ==>
              failed != Some(ReplacementKnown) && failed != Some(InvalidReplacement)
  {
    hide Sound, UniqueTags, Tidy, TagsFit;
    SoundStart(settings, items);
    NothingKnown(settings, outside == {}, items);
    failed, result, known := None, items, map[];
    var tags, again := outside, true;
    while again
      invariant Sound(settings, items, result) && Tidy(settings, outside == {}, known, items, result)
      invariant failed.None? && (outside == {} ==> tags == {})
      decreases |result|, PeepholePass.NonPops(result), PeepholePass.Pushes(result), Places(result), again
    {
      var next;
      failed, again, next, tags, known := Round(settings, outside == {}, items, result, tags, known, fuel);
      if failed.Some? { return; }
      result := next;
    }
  }

  /** Rounds that replace the program step by step and do not lengthen it, and then the constants. */
  ghost predicate Optimised(settings: Settings, items: seq<Item>, result: seq<Item>, copied: map<Word, Word>,
      hasShifts: bool) {
    exists rounds: seq<Item> :: Reached(items, rounds) && |rounds| <= |items| &&
      if settings.runConstantOptimiser
      then
        && ConstantPass.ConstantsReplaced(rounds, result, copied, hasShifts)
        && PreservesWithData(rounds, result, copied)
      else result == rounds
  }

  /** Every halting run is preserved wherever the copied data is in place. */
  ghost predicate PreservesWithData(p: seq<Item>, q: seq<Item>, copied: map<Word, Word>) {
    forall env | ProgramOk(env, p) && (forall v :: v in copied ==> ConstantPass.DataPlaced(env, copied[v], v)) ::
      ProgramOk(env, q) && SameOutcomes(env, p, q)
  }

  /** All rounds, then the constants. Without the passes that move tags, every halting run keeps its outcome. */
  method OptimiseInternal(settings: Settings, items: seq<Item>, outside: set<nat>, fuel: nat, hasShifts: bool,
      costs: ConstantPass.Costs, dataId: Word -> Word)
    returns (failed: Option<Failure>, result: seq<Item>, known: map<Word, Word>, copied: map<Word, Word>)
    requires UniqueTags(items)
    ensures failed.None? ==> UniqueTags(result) && Optimised(settings, items, result, copied, hasShifts)
    ensures failed.None? && !settings.runJumpdestRemover && !settings.runDeduplicate ==>
              PreservesWithData(items, result, copied)
    ensures failed.None? && !settings.runPeephole && !settings.runCSE && !settings.runConstantOptimiser ==>
              PreservesLive({}, items, result)
    ensures settings.runJumpdestRemover && outside == {} && TagsFit(items) ==>
              failed != Some(ReplacementKnown) && failed != Some(InvalidReplacement)
  {
    hide ProgramOk, SameOutcomes, ConstantPass.DataPlaced, ConstantPass.ConstantsReplaced, PreservesLive, Preserves;
    hide UniqueTags, TagsFit, Reached, Sound;
    copied := map[];
    failed, result, known := Iterate(settings, items, outside, fuel);
    if failed.Some? { return; }
    SoundSize(settings, items, result);
    if settings.runConstantOptimiser {
      ghost var before := result;
      result, copied := ConstantPass.OptimiseConstants(result, hasShifts, costs, dataId);
      assert PreservesWithData(before, result, copied);
      if !settings.runJumpdestRemover && !settings.runDeduplicate { DataTwice(items, before, result, copied); }
    } else if Preserves(items, result) {
      NoData(items, result);
    }
  }

  lemma {:induction false} DataTwice(first: seq<Item>, second: seq<Item>, third: seq<Item>, copied: map<Word, Word>)
    requires Preserves(first, second) && PreservesWithData(second, third, copied)
    ensures PreservesWithData(first, third, copied)
  {
    hide ProgramOk, SameOutcomes, ConstantPass.DataPlaced, UniqueTags;
    forall env | ProgramOk(env, first) && (forall v :: v in copied ==> ConstantPass.DataPlaced(env, copied[v], v))
      ensures ProgramOk(env, third) && SameOutcomes(env, first, third)
    {
      OutcomesTwice(env, first, second, third);
    }
  }

  lemma {:induction false} NoData(p: seq<Item>, q: seq<Item>)
    requires Preserves(p, q)
    ensures PreservesWithData(p, q, map[])
  {
    hide ProgramOk, SameOutcomes, UniqueTags;
  }

  lemma {:induction false} SoundSize(settings: Settings, items: seq<Item>, result: seq<Item>)
    requires Sound(settings, items, result)
    ensures UniqueTags(result) && |result| <= |items| && Reached(items, result)
    ensures !settings.runJumpdestRemover && !settings.runDeduplicate ==> Preserves(items, result)
    ensures !settings.runPeephole && !settings.runCSE ==> PreservesLive({}, items, result)
  {
    hide UniqueTags, Preserves, PreservesLive, Reached;
  }

  lemma {:induction false} OutcomesTwice(env: Env, first: seq<Item>, second: seq<Item>, third: seq<Item>)
    requires SameOutcomes(env, first, second) && SameOutcomes(env, second, third)
    ensures SameOutcomes(env, first, third)
  {
    hide NumericState, HaltsWith;
  }
}
