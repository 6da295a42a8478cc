/**
 * An independent scorer for the rolls of a game, read as one flat list: frames
 * one to nine take a strike (one roll of ten) or two rolls, and the tenth frame
 * takes whatever rolls are left, all added up, as js/game.js does there.  A
 * bonus counts once all of its look-ahead rolls exist.  The frame-by-frame
 * totals of the game are proved equal to it.
 */
module ReferenceScore {
  import F = FrameModel
  import G = GameModel
  import opened Wrappers

  /** The rolls of all frames, in the order they were made. */
  function Flat(fs: seq<F.FrameState>): seq<int> {
    if fs == [] then [] else fs[0].rolls + Flat(fs[1..])
  }

  /** The sum of the first n rolls, or 0 while fewer than n exist. */
  function Lookahead(rolls: seq<int>, n: nat): int
    decreases n
  {
    if n == 0 || |rolls| < n then 0 else rolls[0] + Lookahead(rolls[1..], n - 1)
  }

  /** The score of a flat list of rolls, starting in the given frame. */
  function FlatScore(rolls: seq<int>, frame: nat): int
    decreases |rolls|
  {
    if rolls == [] then 0
    else if frame >= F.LastIndex then F.Sum(rolls)
    else if rolls[0] == F.MaxPins then
      F.MaxPins + Lookahead(rolls[1..], 2) + FlatScore(rolls[1..], frame + 1)
    else if |rolls| == 1 then rolls[0]
    else if rolls[0] + rolls[1] == F.MaxPins then
      F.MaxPins + Lookahead(rolls[2..], 1) + FlatScore(rolls[2..], frame + 1)
    else
      rolls[0] + rolls[1] + FlatScore(rolls[2..], frame + 1)
  }

  /**
   * Frames whose bonuses are all settled: laid out as a game, every frame
   * finished, and every bonus what the frame is owed.
   */
  ghost predicate Scored(gs: seq<F.FrameState>) {
    gs == [] ||
    (G.Shape(gs) && F.Finished(G.Last(gs)) && G.Ready(gs) &&
     forall j :: 0 <= j < |gs| ==> gs[j].bonus == G.Due(gs, j))
  }

  lemma {:induction false} FlatAppend(a: seq<F.FrameState>, f: F.FrameState)
    ensures Flat(a + [f]) == Flat(a) + f.rolls
  {
    if a != [] {
      assert (a + [f])[1..] == a[1..] + [f];
      FlatAppend(a[1..], f);
    }
  }

  /** The rolls seen do not depend on the bonuses. */
  lemma {:induction false} FlatIgnoresBonuses(a: seq<F.FrameState>, b: seq<F.FrameState>)
    requires |a| == |b| && forall j :: 0 <= j < |a| ==> a[j].rolls == b[j].rolls
    ensures Flat(a) == Flat(b)
  {
    if a != [] {
      FlatIgnoresBonuses(a[1..], b[1..]);
    }
  }

  lemma FlatSuffix(gs: seq<F.FrameState>, i: nat)
    requires i < |gs|
    ensures Flat(gs[i..]) == gs[i].rolls + Flat(gs[i + 1..])
  {
    assert gs[i..][1..] == gs[i + 1..];
  }

  lemma {:induction false} TotalScoreCons(f: F.FrameState, t: seq<F.FrameState>)
    ensures G.TotalScore([f] + t) == F.Total(f) + G.TotalScore(t)
    decreases |t|
  {
    if t != [] {
      var u := t[..|t| - 1];
      assert ([f] + t)[..|t|] == [f] + u;
      TotalScoreCons(f, u);
    }
  }

  lemma SumPair(s: seq<int>)
    requires |s| == 2
    ensures F.Sum(s) == s[0] + s[1]
  {
    SumSingle(s[0]);
    assert s == [s[0]] + [s[1]];
    F.SumAppend([s[0]], s[1]);
  }

  lemma SumSingle(x: int)
    ensures F.Sum([x]) == x
  {
    assert [x] == [] + [x];
    F.SumAppend([], x);
  }

  lemma LookaheadOne(s: seq<int>)
    requires |s| >= 1
    ensures Lookahead(s, 1) == s[0]
  {
  }

  lemma LookaheadTwo(s: seq<int>)
    requires |s| >= 2
    ensures Lookahead(s, 2) == s[0] + s[1]
  {
    LookaheadOne(s[1..]);
  }

  /** A strike's look-ahead in the flat rolls is the bonus `checkStrikeBonus` adds, or 0 while it is pending. */
  lemma StrikeLookahead(gs: seq<F.FrameState>, i: nat)
    requires G.Shape(gs) && F.Finished(G.Last(gs)) && G.Ready(gs) && i < |gs|
    ensures Lookahead(Flat(gs[i + 1..]), 2) == G.StrikeBonus(gs, i).GetOr(0)
  {
    if i + 1 < |gs| {
      var next := gs[i + 1];
      assert F.Finished(next);
      FlatSuffix(gs, i + 1);
      var rest := Flat(gs[i + 1..]);
      if next.strike {
        assert next.rolls == [F.MaxPins];
        if i + 2 < |gs| {
          FlatSuffix(gs, i + 2);
          assert rest[0] == F.MaxPins && rest[1] == gs[i + 2].rolls[0];
          LookaheadTwo(rest);
        } else {
          assert gs[i + 2..] == [];
          assert rest == [F.MaxPins];
        }
      } else {
        assert |next.rolls| >= 2 && rest[0] == next.rolls[0] && rest[1] == next.rolls[1];
        LookaheadTwo(rest);
      }
    } else {
      assert gs[i + 1..] == [];
    }
  }

  /** A spare's look-ahead in the flat rolls is the bonus `checkSpareBonus` adds, or 0 while it is pending. */
  lemma SpareLookahead(gs: seq<F.FrameState>, i: nat)
    requires G.Shape(gs) && F.Finished(G.Last(gs)) && G.Ready(gs) && i < |gs|
    ensures Lookahead(Flat(gs[i + 1..]), 1) == G.SpareBonus(gs, i).GetOr(0)
  {
    if i + 1 < |gs| {
      FlatSuffix(gs, i + 1);
      var rest := Flat(gs[i + 1..]);
      assert rest[0] == gs[i + 1].rolls[0];
      LookaheadOne(rest);
    } else {
      assert gs[i + 1..] == [];
    }
  }

  /** A strike in frames one to nine scores ten plus the next two rolls, once they exist. */
  lemma StrikeStep(rest: seq<int>, frame: nat)
    requires frame < F.LastIndex
    ensures FlatScore([F.MaxPins] + rest, frame) ==
      F.MaxPins + Lookahead(rest, 2) + FlatScore(rest, frame + 1)
  {
    assert ([F.MaxPins] + rest)[1..] == rest;
  }

  /** Two rolls in frames one to nine score their sum, plus the next roll for a spare. */
  lemma PairStep(a: int, b: int, rest: seq<int>, frame: nat)
    requires frame < F.LastIndex && a != F.MaxPins
    ensures FlatScore([a, b] + rest, frame) ==
      a + b + (if a + b == F.MaxPins then Lookahead(rest, 1) else 0) + FlatScore(rest, frame + 1)
  {
    var xs := [a, b] + rest;
    assert xs[0] == a && xs[1] == b && xs[2..] == rest;
  }

  /** One frame of the settled game scores its own total in the flat reading. */
  lemma FrameStep(gs: seq<F.FrameState>, i: nat)
    requires Scored(gs) && i < |gs|
    ensures FlatScore(Flat(gs[i..]), i + 1) == F.Total(gs[i]) + FlatScore(Flat(gs[i + 1..]), i + 2)
  {
    var f := gs[i];
    var rest := Flat(gs[i + 1..]);
    FlatSuffix(gs, i);
    assert F.Finished(f) && F.Inv(f) && f.index == i + 1;
    assert f.bonus == G.Due(gs, i);
    if f.index == F.LastIndex {
      assert gs[i + 1..] == [] && rest == [];
      assert f.rolls + rest == f.rolls;
      assert |f.rolls| == 3;
    } else if f.strike {
      StrikeLookahead(gs, i);
      assert f.rolls == [F.MaxPins];
      StrikeStep(rest, i + 1);
      SumSingle(F.MaxPins);
    } else {
      assert |f.rolls| == 2;
      assert f.rolls == [f.rolls[0], f.rolls[1]];
      SumPair(f.rolls);
      PairStep(f.rolls[0], f.rolls[1], rest, i + 1);
      if f.spare {
        SpareLookahead(gs, i);
      }
    }
  }

  lemma TotalScoreSuffix(gs: seq<F.FrameState>, i: nat)
    requires i < |gs|
    ensures G.TotalScore(gs[i..]) == F.Total(gs[i]) + G.TotalScore(gs[i + 1..])
  {
    assert gs[i..] == [gs[i]] + gs[i + 1..];
    TotalScoreCons(gs[i], gs[i + 1..]);
  }

  /** The settled frames from position i on score as their flat rolls do from frame i+1. */
  lemma {:induction false} SuffixScore(gs: seq<F.FrameState>, i: nat)
    requires Scored(gs) && i <= |gs|
    ensures FlatScore(Flat(gs[i..]), i + 1) == G.TotalScore(gs[i..])
    decreases |gs| - i
  {
    if i == |gs| {
      assert gs[i..] == [] && Flat(gs[i..]) == [];
    } else {
      SuffixScore(gs, i + 1);
      SuffixStep(gs, i);
    }
  }

  /** The induction step of SuffixScore: one more settled frame in front. */
  lemma SuffixStep(gs: seq<F.FrameState>, i: nat)
    requires Scored(gs) && i < |gs|
    requires FlatScore(Flat(gs[i + 1..]), i + 2) == G.TotalScore(gs[i + 1..])
    ensures FlatScore(Flat(gs[i..]), i + 1) == G.TotalScore(gs[i..])
  {
    TotalScoreSuffix(gs, i);
    FrameStep(gs, i);
  }

  /** The prefix of a well-laid-out game without its current frame is settled when the game invariant holds. */
  lemma SettledIsScored(fs: seq<F.FrameState>)
    requires G.Inv(fs)
    ensures Scored(G.Settled(fs))
  {
    var gs := G.Settled(fs);
    if !F.Finished(G.Last(fs)) && gs != [] {
      assert F.Finished(G.Last(gs));
      assert forall j :: 0 <= j < |gs| ==> gs[j] == fs[j];
    }
  }

  /**
   * The game's total is the reference score of the rolls the last bonus scan
   * saw, plus the pins of an unfinished current frame, which has no bonus yet.
   * Once the current frame is finished, and so at the end of a game, it is the
   * reference score of all the rolls.
   */
  lemma TotalScoreIsReference(fs: seq<F.FrameState>)
    requires G.Inv(fs)
    ensures F.Finished(G.Last(fs)) ==> G.TotalScore(fs) == FlatScore(Flat(fs), 1)
    ensures !F.Finished(G.Last(fs)) ==>
      G.TotalScore(fs) == FlatScore(Flat(fs[..|fs| - 1]), 1) + F.Sum(G.Last(fs).rolls)
  {
    var gs := G.Settled(fs);
    SettledIsScored(fs);
    SuffixScore(gs, 0);
    assert gs[0..] == gs;
    if !F.Finished(G.Last(fs)) {
      assert gs == fs[..|fs| - 1];
      assert G.TotalScore(fs) == G.TotalScore(gs) + F.Sum(G.Last(fs).rolls);
    }
  }

  /** No frame is left to roll in: ten frames, the last finished. */
  ghost predicate AllFramesFinished(fs: seq<F.FrameState>)
    requires |fs| > 0
  {
    |fs| == G.MaxFrames && F.Finished(G.Last(fs))
  }

  lemma FlatLast(g: seq<F.FrameState>, f: F.FrameState)
    requires |g| > 0
    ensures Flat(g) == Flat(g[..|g| - 1]) + G.Last(g).rolls
    ensures Flat(g[|g| - 1 := f]) == Flat(g[..|g| - 1]) + f.rolls
  {
    assert g == g[..|g| - 1] + [G.Last(g)];
    assert g[|g| - 1 := f] == g[..|g| - 1] + [f];
    FlatAppend(g[..|g| - 1], G.Last(g));
    FlatAppend(g[..|g| - 1], f);
  }

  /** `nextFrame` adds no rolls. */
  lemma NextFrameKeepsFlat(fs: seq<F.FrameState>)
    requires G.Shape(fs)
    ensures Flat(G.NextFrame(fs)) == Flat(fs)
    ensures F.Finished(G.Last(G.NextFrame(fs))) <==> AllFramesFinished(fs)
  {
    var g := G.NextFrame(fs);
    if |g| > |fs| {
      assert g == fs + [F.NewFrame(|fs| + 1)];
      FlatAppend(fs, F.NewFrame(|fs| + 1));
    }
  }

  /**
   * Every accepted roll adds its pins to the rolls seen, except once all frames
   * are finished; a rejected roll adds nothing.
   */
  lemma RollExtendsFlat(fs: seq<F.FrameState>, pins: int)
    requires G.Shape(fs)
    ensures var step := G.Roll(fs, pins);
      Flat(step.frames) == if step.outcome.Pass? && !AllFramesFinished(fs) then Flat(fs) + [pins] else Flat(fs)
  {
    NextFrameKeepsFlat(fs);
    RollCurrentExtendsFlat(G.NextFrame(fs), pins);
  }

  /** Frames that differ from g at most in the rolls of the current frame. */
  lemma {:induction false} FlatChangesLast(g: seq<F.FrameState>, r: seq<F.FrameState>)
    requires |g| > 0 && |r| == |g|
    requires forall j :: 0 <= j < |g| - 1 ==> r[j].rolls == g[j].rolls
    ensures Flat(r) == Flat(g[..|g| - 1]) + G.Last(r).rolls
  {
    FlatLast(r, G.Last(r));
    FlatIgnoresBonuses(r[..|r| - 1], g[..|g| - 1]);
  }

  /** The current frame replaced by `rolled`, then only bonuses changed: the flat rolls end in `rolled`'s. */
  lemma FlatAfterScan(g: seq<F.FrameState>, rolled: F.FrameState, r: seq<F.FrameState>)
    requires |g| > 0 && |r| == |g|
    requires forall j :: 0 <= j < |g| ==> r[j] == g[|g| - 1 := rolled][j].(bonus := r[j].bonus)
    ensures Flat(r) == Flat(g[..|g| - 1]) + rolled.rolls
  {
    assert forall j :: 0 <= j < |g| - 1 ==> r[j].rolls == g[j].rolls;
    FlatChangesLast(g, r);
  }

  /** Associativity of concatenation, as a step for the solver. */
  lemma ConcatAssoc(a: seq<int>, b: seq<int>, c: seq<int>)
    ensures a + (b + c) == (a + b) + c
  {
  }

  lemma RollCurrentExtendsFlat(g: seq<F.FrameState>, pins: int)
    requires G.Shape(g)
    ensures var step := G.RollCurrent(g, pins);
      Flat(step.frames) == if step.outcome.Pass? && !F.Finished(G.Last(g)) then Flat(g) + [pins] else Flat(g)
  {
    FlatLast(g, G.Last(g));
    var prefix := Flat(g[..|g| - 1]);
    match F.Roll(G.Last(g), pins)
    case Failure(_) =>
    case Success(rolled) =>
      G.RollCurrentAccepted(g, pins, rolled);
      var h := g[|g| - 1 := rolled];
      FlatAfterScan(g, rolled, G.UpdateFramesBonusPoints(h));
      if !F.Finished(G.Last(g)) {
        ConcatAssoc(prefix, G.Last(g).rolls, [pins]);
      }
  }
}
