/**
 * Games replayed from a fresh `VDGame()`: the rolls are handed to `roll` one
 * after the other.  The general lemmas here say what a caller can observe
 * after each roll (the current frame, the rolls seen, the total); the example
 * lemmas replay the scenarios of test/game.spec.js.
 */
module Replay {
  import opened Wrappers
  import F = FrameModel
  import G = GameModel
  import R = ReferenceScore

  /** The game after passing each of `rolls` to `roll` in turn; a rejected roll leaves what `nextFrame` appended. */
  function Play(rolls: seq<int>): (fs: seq<F.FrameState>)
    ensures G.Inv(fs)
    decreases |rolls|
  {
    if rolls == [] then
      G.NewGameInv();
      G.NewGame()
    else
      var prev := Play(rolls[..|rolls| - 1]);
      G.RollPreservesInv(prev, rolls[|rolls| - 1]);
      G.Roll(prev, rolls[|rolls| - 1]).frames
  }

  lemma PlayAppend(rolls: seq<int>, pins: int)
    ensures Play(rolls + [pins]) == G.Roll(Play(rolls), pins).frames
  {
    assert (rolls + [pins])[..|rolls|] == rolls;
  }

  /**
   * What one call of `roll` does, as a caller sees it: the current frame it
   * rolls in, whether it throws, the current frame afterwards (but for its
   * bonus), and the rolls seen.
   */
  lemma Observe(fs: seq<F.FrameState>, pins: int)
    requires G.Shape(fs)
    ensures var g := G.NextFrame(fs);
      var r := G.Roll(fs, pins);
      G.Last(g) == (if F.Finished(G.Last(fs)) && |fs| < G.MaxFrames then F.NewFrame(|fs| + 1) else G.Last(fs)) &&
      |r.frames| == |g| &&
      (r.outcome.Pass? <==> 0 <= pins <= G.Last(g).leftPins) &&
      (r.outcome.Fail? ==> r.frames == g) &&
      (r.outcome.Pass? ==> G.Last(r.frames) == F.Roll(G.Last(g), pins).value.(bonus := G.Last(r.frames).bonus)) &&
      R.Flat(r.frames) == if r.outcome.Pass? && !R.AllFramesFinished(fs) then R.Flat(fs) + [pins] else R.Flat(fs)
  {
    var g := G.NextFrame(fs);
    R.RollExtendsFlat(fs, pins);
    match F.Roll(G.Last(g), pins)
    case Failure(_) =>
    case Success(after) => Accepted(g, pins, after);
  }

  /** The current frame as `getFrame()` shows it, leaving aside its bonus. */
  function Current(fs: seq<F.FrameState>): F.FrameState
    requires |fs| > 0
  {
    G.Last(fs).(bonus := 0)
  }

  /** A roll the current, unfinished frame accepts stays in that frame. */
  lemma Continue(rolls: seq<int>, pins: int, next: seq<int>, cur: F.FrameState, after: F.FrameState)
    requires next == rolls + [pins]
    requires Current(Play(rolls)) == cur && !F.Finished(cur) && F.Roll(cur, pins) == Success(after)
    ensures |Play(next)| == |Play(rolls)| && Current(Play(next)) == after
    ensures R.Flat(Play(next)) == R.Flat(Play(rolls)) + [pins]
  {
    PlayAppend(rolls, pins);
    assert G.Last(Play(rolls)) == cur;
    ContinueOn(Play(rolls), pins, cur, after);
  }

  lemma ContinueOn(fs: seq<F.FrameState>, pins: int, cur: F.FrameState, after: F.FrameState)
    requires G.Shape(fs) && G.Last(fs) == cur && cur.bonus == 0
    requires !F.Finished(cur) && F.Roll(cur, pins) == Success(after)
    ensures var r := G.Roll(fs, pins).frames;
      |r| == |fs| && Current(r) == after && R.Flat(r) == R.Flat(fs) + [pins]
  {
    assert G.NextFrame(fs) == fs;
    Accepted(fs, pins, after);
    R.FlatLast(fs, cur);
    R.ConcatAssoc(R.Flat(fs[..|fs| - 1]), cur.rolls, [pins]);
  }

  /** After a finished frame, and before the tenth, a roll in range opens the next frame. */
  lemma Advance(rolls: seq<int>, pins: int, next: seq<int>, cur: F.FrameState, after: F.FrameState)
    requires next == rolls + [pins]
    requires Current(Play(rolls)) == cur && F.Finished(cur) && cur.index < G.MaxFrames
    requires F.Roll(F.NewFrame(cur.index + 1), pins) == Success(after)
    ensures |Play(next)| == |Play(rolls)| + 1 && Current(Play(next)) == after
    ensures R.Flat(Play(next)) == R.Flat(Play(rolls)) + [pins]
  {
    PlayAppend(rolls, pins);
    AdvanceOn(Play(rolls), pins, cur, after);
  }

  lemma AdvanceOn(fs: seq<F.FrameState>, pins: int, cur: F.FrameState, after: F.FrameState)
    requires G.Shape(fs) && Current(fs) == cur && F.Finished(cur) && cur.index < G.MaxFrames
    requires F.Roll(F.NewFrame(cur.index + 1), pins) == Success(after)
    ensures var r := G.Roll(fs, pins).frames;
      |r| == |fs| + 1 && Current(r) == after && R.Flat(r) == R.Flat(fs) + [pins]
  {
    assert G.Last(fs).index == |fs| && F.Finished(G.Last(fs));
    G.NextFrameAppends(fs);
    var g := fs + [F.NewFrame(|fs| + 1)];
    Accepted(g, pins, after);
    assert g[..|g| - 1] == fs;
    assert after.rolls == [pins] && after.bonus == 0;
  }

  /** A roll the current frame accepts as `after`: that frame becomes `after` up to its bonus, and its pins are recorded. */
  lemma Accepted(g: seq<F.FrameState>, pins: int, after: F.FrameState)
    requires G.Shape(g) && F.Roll(G.Last(g), pins) == Success(after)
    ensures var r := G.RollCurrent(g, pins).frames;
      |r| == |g| && G.Last(r) == after.(bonus := G.Last(r).bonus) &&
      R.Flat(r) == R.Flat(g[..|g| - 1]) + after.rolls
  {
    G.RollCurrentAccepted(g, pins, after);
    R.FlatAfterScan(g, after, G.UpdateFramesBonusPoints(g[|g| - 1 := after]));
  }

  /** A count outside what the current, unfinished frame has standing is refused. */
  lemma Refuse(rolls: seq<int>, pins: int, cur: F.FrameState)
    requires Current(Play(rolls)) == cur && !F.Finished(cur) && (pins < 0 || pins > cur.leftPins)
    ensures G.Roll(Play(rolls), pins).outcome == Fail(F.OutOfRange(cur.leftPins))
  {
    assert G.NextFrame(Play(rolls)) == Play(rolls);
  }

  /** Once the current frame is finished, the total is the reference score of all the rolls. */
  lemma TotalWhenFinished(rolls: seq<int>)
    requires F.Finished(Current(Play(rolls)))
    ensures G.TotalScore(Play(rolls)) == R.FlatScore(R.Flat(Play(rolls)), 1)
  {
    R.TotalScoreIsReference(Play(rolls));
  }

  /**
   * While the current frame is open, the total is the reference score of the
   * rolls before it plus the pins it holds.
   */
  lemma TotalWhenOpen(rolls: seq<int>, done: seq<int>)
    requires !F.Finished(Current(Play(rolls)))
    requires R.Flat(Play(rolls)) == done + Current(Play(rolls)).rolls
    ensures G.TotalScore(Play(rolls)) == R.FlatScore(done, 1) + F.Sum(Current(Play(rolls)).rolls)
  {
    var fs := Play(rolls);
    R.TotalScoreIsReference(fs);
    R.FlatLast(fs, G.Last(fs));
    var prefix := R.Flat(fs[..|fs| - 1]);
    assert prefix == (prefix + G.Last(fs).rolls)[..|prefix|];
  }

  /** `n` rolls of the same count. */
  function Repeat(n: nat, pins: int): (s: seq<int>)
    ensures |s| == n && forall k :: 0 <= k < n ==> s[k] == pins
  {
    seq(n, _ => pins)
  }

  lemma RepeatAppend(n: nat, pins: int)
    ensures Repeat(n, pins) + [pins] == Repeat(n + 1, pins)
    ensures Repeat(n + 1, pins)[..n] == Repeat(n, pins)
  {
  }

  predicate AllZero(s: seq<int>) {
    forall k :: 0 <= k < |s| ==> s[k] == 0
  }

  /** Whatever number of rolls of 0 are made, only zeros are ever recorded. */
  lemma {:induction false} GutterRollsSeen(n: nat)
    ensures AllZero(R.Flat(Play(Repeat(n, 0))))
  {
    if n > 0 {
      GutterRollsSeen(n - 1);
      RepeatAppend(n - 1, 0);
      PlayKeepsOrAdds(Repeat(n - 1, 0), 0);
      ZeroExtends(R.Flat(Play(Repeat(n - 1, 0))), R.Flat(Play(Repeat(n - 1, 0) + [0])));
    }
  }

  /** One more roll either records its pins or records nothing. */
  lemma PlayKeepsOrAdds(rolls: seq<int>, pins: int)
    ensures R.Flat(Play(rolls + [pins])) == R.Flat(Play(rolls)) ||
            R.Flat(Play(rolls + [pins])) == R.Flat(Play(rolls)) + [pins]
  {
    PlayAppend(rolls, pins);
    R.RollExtendsFlat(Play(rolls), pins);
  }

  lemma ZeroExtends(a: seq<int>, b: seq<int>)
    requires AllZero(a) && (b == a || b == a + [0])
    ensures AllZero(b)
  {
  }

  lemma {:induction false} ZeroSum(s: seq<int>)
    requires AllZero(s)
    ensures F.Sum(s) == 0
  {
    if s != [] {
      ZeroSum(s[..|s| - 1]);
    }
  }

  lemma {:induction false} ZeroScore(s: seq<int>, frame: nat)
    requires AllZero(s)
    ensures R.FlatScore(s, frame) == 0
    decreases |s|
  {
    if s == [] {
    } else if frame >= F.LastIndex {
      ZeroSum(s);
    } else if |s| >= 2 {
      ZeroScore(s[2..], frame + 1);
    }
  }

  /** A game in which no pin ever fell scores 0. */
  lemma NoPinsNoScore(fs: seq<F.FrameState>)
    requires G.Inv(fs) && AllZero(R.Flat(fs))
    ensures G.TotalScore(fs) == 0
  {
    R.TotalScoreIsReference(fs);
    R.FlatLast(fs, G.Last(fs));
    var done := R.Flat(fs[..|fs| - 1]);
    assert AllZero(done) by {
      forall k | 0 <= k < |done| ensures done[k] == 0 {
        assert done[k] == R.Flat(fs)[k];
      }
    }
    assert AllZero(G.Last(fs).rolls) by {
      forall k | 0 <= k < |G.Last(fs).rolls| ensures G.Last(fs).rolls[k] == 0 {
        assert G.Last(fs).rolls[k] == R.Flat(fs)[|done| + k];
      }
    }
    ZeroScore(done, 1);
    ZeroScore(R.Flat(fs), 1);
    ZeroSum(G.Last(fs).rolls);
  }

  /** A gutter game, of any number of rolls of 0, scores 0. */
  lemma GutterGame(n: nat)
    ensures G.TotalScore(Play(Repeat(n, 0))) == 0
  {
    GutterRollsSeen(n);
    NoPinsNoScore(Play(Repeat(n, 0)));
  }

  /** k open frames of two zeros add nothing and move the scoring on by k frames. */
  lemma {:induction false} ZeroFramesScore(k: nat, rest: seq<int>, frame: nat)
    requires frame + k < F.LastIndex
    ensures R.FlatScore(Repeat(2 * k, 0) + rest, frame) == R.FlatScore(rest, frame + k)
  {
    if k > 0 {
      var t := Repeat(2 * (k - 1), 0) + rest;
      assert Repeat(2 * k, 0) + rest == [0, 0] + t;
      R.PairStep(0, 0, t, frame);
      ZeroFramesScore(k - 1, rest, frame + 1);
    } else {
      assert Repeat(0, 0) + rest == rest;
    }
  }

  /** From frame f on, 13 - f strikes score 30 a frame. */
  lemma {:induction false} StrikesScore(f: nat)
    requires 1 <= f <= F.LastIndex
    ensures R.FlatScore(Repeat(13 - f, F.MaxPins), f) == 30 * (11 - f)
    decreases F.LastIndex - f
  {
    var s := Repeat(13 - f, F.MaxPins);
    if f == F.LastIndex {
      assert s == [F.MaxPins, F.MaxPins] + [F.MaxPins];
      R.SumPair([F.MaxPins, F.MaxPins]);
      F.SumAppend([F.MaxPins, F.MaxPins], F.MaxPins);
    } else {
      StrikesScore(f + 1);
      var t := s[1..];
      assert t == Repeat(12 - f, F.MaxPins);
      assert R.Lookahead(t[1..][1..], 0) == 0;
      assert R.Lookahead(t[1..], 1) == F.MaxPins;
      assert R.Lookahead(t, 2) == 2 * F.MaxPins;
    }
  }
}
