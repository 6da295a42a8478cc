/**
 * The game aggregator of js/game.js (`VDGame`), as values.
 *
 * A game is its list of frames; the current frame is the last one.  A roll
 * first appends a new frame if the current one is finished (lazy advance),
 * then hands the pins to the current frame, and, if that frame is now
 * finished, scans every frame and settles the strike and spare bonuses whose
 * look-ahead rolls exist.
 */
module GameModel {
  import opened Wrappers
  import F = FrameModel

  /** Frames in a game. */
  const MaxFrames := 10

  function Last(fs: seq<F.FrameState>): F.FrameState
    requires |fs| > 0
  {
    fs[|fs| - 1]
  }

  /**
   * How the game lays out its frames: between one and ten of them, frame i
   * (1-based) has index i, each is a reachable frame state, and all but the
   * current one are finished.
   */
  ghost predicate Shape(fs: seq<F.FrameState>) {
    1 <= |fs| <= MaxFrames &&
    (forall i :: 0 <= i < |fs| ==> fs[i].index == i + 1 && F.Inv(fs[i])) &&
    (forall i :: 0 <= i < |fs| - 1 ==> F.Finished(fs[i]))
  }

  /** The look-ahead rolls of a frame exist: a strike has its roll, any other finished frame two. */
  ghost predicate RollsAvailable(f: F.FrameState) {
    |f.rolls| >= 1 && (!f.strike ==> |f.rolls| >= 2) && !(f.strike && f.spare)
  }

  /** What the bonus scan relies on: positions match indices and every frame has its rolls. */
  ghost predicate Ready(fs: seq<F.FrameState>) {
    forall j :: 0 <= j < |fs| ==> fs[j].index == j + 1 && RollsAvailable(fs[j])
  }

  /** The game as created: one fresh frame with index 1. */
  function NewGame(): (fs: seq<F.FrameState>)
    ensures Shape(fs) && |fs| == 1 && fs[0] == F.NewFrame(1)
  {
    [F.NewFrame(1)]
  }

  /** `nextFrame`: append frame |fs|+1 when the current frame is finished and fewer than ten exist. */
  function NextFrame(fs: seq<F.FrameState>): (r: seq<F.FrameState>)
    requires Shape(fs)
    ensures Shape(r)
    ensures |r| == if F.Finished(Last(fs)) && |fs| < MaxFrames then |fs| + 1 else |fs|
    ensures r[..|fs|] == fs
    ensures |r| > |fs| ==> Last(r) == F.NewFrame(|fs| + 1)
  {
    var nextFrameIndex := |fs| + 1;
    if F.Finished(Last(fs)) && nextFrameIndex <= MaxFrames then
      fs + [F.NewFrame(nextFrameIndex)]
    else
      fs
  }

  /** After a finished frame, and before the tenth, `nextFrame` appends the next frame: the definition unfolded, as a step for the solver. */
  lemma NextFrameAppends(fs: seq<F.FrameState>)
    requires Shape(fs) && F.Finished(Last(fs)) && |fs| < MaxFrames
    ensures NextFrame(fs) == fs + [F.NewFrame(|fs| + 1)]
  {
  }

  /**
   * The points `checkSpareBonus` adds for the frame at position i: the first
   * roll of the next frame, or nothing while that frame does not exist.
   */
  function SpareBonus(fs: seq<F.FrameState>, i: nat): (b: Option<int>)
    requires i < |fs| && Ready(fs)
    ensures b.Some? <==> i + 1 < |fs|
  {
    var frameIndex := fs[i].index;
    if frameIndex >= |fs| then None
    else
      var nextFrameInGame := fs[frameIndex];
      Some(F.RollAt(nextFrameInGame, 1).value)
  }

  /**
   * The points `checkStrikeBonus` adds for the frame at position i: the next
   * frame's first two rolls, or, when the next frame is a strike, its roll and
   * the first roll of the frame after it; nothing while those frames are missing.
   */
  function StrikeBonus(fs: seq<F.FrameState>, i: nat): (b: Option<int>)
    requires i < |fs| && Ready(fs)
    ensures b.Some? <==> i + 1 < |fs| && (fs[i + 1].strike ==> i + 2 < |fs|)
  {
    var frameIndex := fs[i].index;
    if frameIndex >= |fs| then None
    else
      var nextFrameInGame := fs[frameIndex];
      var firstRollAfterResult := F.RollAt(nextFrameInGame, 1).value;
      if nextFrameInGame.strike then
        if frameIndex + 1 < |fs| then
          Some(firstRollAfterResult + F.RollAt(fs[frameIndex + 1], 1).value)
        else None
      else
        Some(firstRollAfterResult + F.RollAt(nextFrameInGame, 2).value)
  }

  /** `checkSpareBonus`: add the spare bonus of frame i when it can be computed. */
  function CheckSpareBonus(fs: seq<F.FrameState>, i: nat): (r: seq<F.FrameState>)
    requires i < |fs| && Ready(fs)
    ensures |r| == |fs| && Ready(r)
    ensures forall j :: 0 <= j < |fs| && j != i ==> r[j] == fs[j]
    ensures r[i] == fs[i].(bonus := fs[i].bonus + SpareBonus(fs, i).GetOr(0))
  {
    match SpareBonus(fs, i)
    case None => fs
    case Some(b) => fs[i := F.AddBonus(fs[i], b)]
  }

  /** `checkStrikeBonus`: add the strike bonus of frame i when it can be computed. */
  function CheckStrikeBonus(fs: seq<F.FrameState>, i: nat): (r: seq<F.FrameState>)
    requires i < |fs| && Ready(fs)
    ensures |r| == |fs| && Ready(r)
    ensures forall j :: 0 <= j < |fs| && j != i ==> r[j] == fs[j]
    ensures r[i] == fs[i].(bonus := fs[i].bonus + StrikeBonus(fs, i).GetOr(0))
  {
    match StrikeBonus(fs, i)
    case None => fs
    case Some(b) => fs[i := F.AddBonus(fs[i], b)]
  }

  /**
   * The bonus a frame is owed once the frames in `gs` are known: a strike's
   * strike bonus, a spare's spare bonus, 0 for an open frame or while the
   * look-ahead rolls are missing.
   */
  ghost function Due(gs: seq<F.FrameState>, i: nat): int
    requires i < |gs| && Ready(gs)
  {
    if gs[i].strike then StrikeBonus(gs, i).GetOr(0)
    else if gs[i].spare then SpareBonus(gs, i).GetOr(0)
    else 0
  }

  /** The body of the `forEach` in `updateFramesBonusPoints`, applied to frame i. */
  function ScanFrame(fs: seq<F.FrameState>, i: nat): (r: seq<F.FrameState>)
    requires i < |fs| && Ready(fs)
    ensures |r| == |fs| && Ready(r)
    ensures forall j :: 0 <= j < |fs| && j != i ==> r[j] == fs[j]
    ensures r[i] == fs[i].(bonus := if F.HadBonus(fs[i]) then fs[i].bonus else fs[i].bonus + Due(fs, i))
  {
    var frame := fs[i];
    if F.HadBonus(frame) then fs
    else
      var fs1 := if frame.strike then CheckStrikeBonus(fs, i) else fs;
      if fs1[i].spare then CheckSpareBonus(fs1, i) else fs1
  }

  /** The `forEach` scan from position k to the end, updating frames as it goes. */
  function ScanFrom(fs: seq<F.FrameState>, k: nat): (r: seq<F.FrameState>)
    requires k <= |fs| && Ready(fs)
    ensures |r| == |fs| && Ready(r)
    ensures forall j :: 0 <= j < |fs| ==> r[j] == fs[j].(bonus := r[j].bonus)
    ensures forall j :: 0 <= j < |fs| && (j < k || F.HadBonus(fs[j])) ==> r[j] == fs[j]
    decreases |fs| - k
  {
    if k == |fs| then fs else ScanFrom(ScanFrame(fs, k), k + 1)
  }

  /** A finished current frame means every frame is finished and has its look-ahead rolls. */
  lemma FinishedGameReady(fs: seq<F.FrameState>)
    requires Shape(fs) && F.Finished(Last(fs))
    ensures Ready(fs)
  {
    forall j | 0 <= j < |fs| ensures fs[j].index == j + 1 && RollsAvailable(fs[j]) {
      assert F.Finished(fs[j]);
    }
  }

  /** `updateFramesBonusPoints`: scan all frames, but only once the current frame is finished. */
  function UpdateFramesBonusPoints(fs: seq<F.FrameState>): (r: seq<F.FrameState>)
    requires Shape(fs)
    ensures Shape(r) && |r| == |fs|
    ensures forall j :: 0 <= j < |fs| ==> r[j] == fs[j].(bonus := r[j].bonus)
    ensures !F.Finished(Last(fs)) ==> r == fs
  {
    if !F.Finished(Last(fs)) then fs
    else
      FinishedGameReady(fs);
      var r := ScanFrom(fs, 0);
      assert forall j :: 0 <= j < |fs| ==> F.Inv(r[j]) by {
        forall j | 0 <= j < |fs| ensures F.Inv(r[j]) {
          assert r[j] == fs[j].(bonus := r[j].bonus);
        }
      }
      r
  }

  /** The state after a call of `roll`, and whether it completed or threw. */
  datatype Step = Step(frames: seq<F.FrameState>, outcome: Outcome<F.RollError>)

  /**
   * `roll(pins)`: advance lazily, roll in the current frame, then settle
   * bonuses.  A rejected count leaves behind the frame that was appended before
   * the check, and skips the scan.
   */
  function Roll(fs: seq<F.FrameState>, pins: int): (r: Step)
    requires Shape(fs)
    ensures Shape(r.frames)
    ensures r.outcome.Fail? <==> pins < 0 || pins > Last(NextFrame(fs)).leftPins
    ensures r.outcome.Fail? ==> r.outcome.error == F.OutOfRange(Last(NextFrame(fs)).leftPins)
    ensures r.outcome.Fail? ==> r.frames == NextFrame(fs)
  {
    RollCurrent(NextFrame(fs), pins)
  }

  /** `roll` is `nextFrame` followed by the rest, for a named advanced state: a step for the solver. */
  lemma RollAfterAdvance(fs: seq<F.FrameState>, pins: int, advanced: seq<F.FrameState>)
    requires Shape(fs) && advanced == NextFrame(fs)
    ensures Roll(fs, pins) == RollCurrent(advanced, pins)
  {
  }

  /** The part of `roll` after `nextFrame`: `currentFrame.roll(pins)`, then the bonus scan unless it threw. */
  function RollCurrent(frames: seq<F.FrameState>, pins: int): (r: Step)
    requires Shape(frames)
    ensures Shape(r.frames)
    ensures r.outcome.Fail? <==> pins < 0 || pins > Last(frames).leftPins
    ensures r.outcome.Fail? ==> r.outcome.error == F.OutOfRange(Last(frames).leftPins) && r.frames == frames
  {
    var currentFrame := Last(frames);
    match F.Roll(currentFrame, pins)
    case Failure(e) => Step(frames, Fail(e))
    case Success(rolled) =>
      F.RollPreservesInv(currentFrame, pins);
      ReplaceCurrentShape(frames, rolled);
      Step(UpdateFramesBonusPoints(frames[|frames| - 1 := rolled]), Pass)
  }

  /** The two outcomes of `RollCurrent`, spelled out for the object model. */
  lemma RollCurrentCases(frames: seq<F.FrameState>, pins: int)
    requires Shape(frames)
    ensures F.Roll(Last(frames), pins).Failure? ==>
      RollCurrent(frames, pins) == Step(frames, Fail(F.Roll(Last(frames), pins).error))
    ensures F.Roll(Last(frames), pins).Success? ==>
      var rolled := F.Roll(Last(frames), pins).value;
      F.Inv(rolled) && rolled.index == Last(frames).index &&
      Shape(frames[|frames| - 1 := rolled]) &&
      RollCurrent(frames, pins) == Step(UpdateFramesBonusPoints(frames[|frames| - 1 := rolled]), Pass)
  {
    if F.Roll(Last(frames), pins).Success? {
      var rolled := F.Roll(Last(frames), pins).value;
      F.RollPreservesInv(Last(frames), pins);
      ReplaceCurrentShape(frames, rolled);
    }
  }

  /** `RollCurrent` when the current frame accepts the pins as `rolled`: RollCurrentCases restated for a named state, as a step for the solver. */
  lemma RollCurrentAccepted(frames: seq<F.FrameState>, pins: int, rolled: F.FrameState)
    requires Shape(frames) && F.Roll(Last(frames), pins) == Success(rolled)
    ensures Shape(frames[|frames| - 1 := rolled])
    ensures RollCurrent(frames, pins) == Step(UpdateFramesBonusPoints(frames[|frames| - 1 := rolled]), Pass)
  {
    RollCurrentCases(frames, pins);
  }

  /** Only the current frame's rolls change, by the accepted pins unless it was already finished. */
  lemma RollCurrentRolls(frames: seq<F.FrameState>, pins: int)
    requires Shape(frames)
    ensures var r := RollCurrent(frames, pins);
      |r.frames| == |frames| &&
      (forall j :: 0 <= j < |frames| - 1 ==> r.frames[j].rolls == frames[j].rolls) &&
      Last(r.frames).rolls ==
        if r.outcome.Pass? && !F.Finished(Last(frames)) then Last(frames).rolls + [pins] else Last(frames).rolls
  {
    RollCurrentCases(frames, pins);
  }

  /** `getTotalScore`: the frame totals added up left to right. */
  function TotalScore(fs: seq<F.FrameState>): int {
    if fs == [] then 0 else TotalScore(fs[..|fs| - 1]) + F.Total(Last(fs))
  }

  /** `getFrame(k)`: frame k (1-based) for k > 0, the current frame for k <= 0, nothing past the end. */
  function GetFrame(fs: seq<F.FrameState>, k: int): (r: Option<F.FrameState>)
    requires Shape(fs)
    ensures r.None? <==> k > |fs|
    ensures r.Some? ==> r.value in fs && r.value.index == if k > 0 then k else |fs|
  {
    var position := if k > 0 then k - 1 else |fs| - 1;
    if position < |fs| then Some(fs[position]) else None
  }

  /** Frames are told apart by their index: the frame `getFrame` returns sits at the position its index names. */
  lemma GetFrameAtIndex(fs: seq<F.FrameState>, k: int)
    requires Shape(fs) && GetFrame(fs, k).Some?
    ensures GetFrame(fs, k).value == fs[GetFrame(fs, k).value.index - 1]
    ensures k > 0 ==> GetFrame(fs, k).value == fs[k - 1]
    ensures k <= 0 ==> GetFrame(fs, k).value == Last(fs)
  {
    var f := GetFrame(fs, k).value;
    var j :| 0 <= j < |fs| && fs[j] == f;
  }

  /**
   * The frames whose rolls the last scan saw: all of them once the current
   * frame is finished, otherwise all but the current one.
   */
  ghost function Settled(fs: seq<F.FrameState>): seq<F.FrameState>
    requires |fs| > 0
  {
    if F.Finished(Last(fs)) then fs else fs[..|fs| - 1]
  }

  /**
   * The states a game reaches: laid out as Shape says, with every bonus equal
   * to what its frame is owed given the settled frames (so a pending bonus is
   * 0), and no bonus yet on an unfinished current frame.
   */
  ghost predicate Inv(fs: seq<F.FrameState>) {
    Shape(fs) &&
    var gs := Settled(fs);
    Ready(gs) &&
    (forall i :: 0 <= i < |gs| ==> fs[i].bonus == Due(gs, i)) &&
    (!F.Finished(Last(fs)) ==> Last(fs).bonus == 0)
  }

  lemma NewGameInv()
    ensures Inv(NewGame()) && TotalScore(NewGame()) == 0
  {
  }

  /** Once a strike's look-ahead rolls exist, more frames do not change its bonus. */
  lemma StrikeBonusExtends(a: seq<F.FrameState>, b: seq<F.FrameState>, i: nat)
    requires Ready(a) && Ready(b) && |a| <= |b| && a == b[..|a|] && i < |a|
    requires StrikeBonus(a, i).Some?
    ensures StrikeBonus(b, i) == StrikeBonus(a, i)
  {
    assert a[i + 1] == b[i + 1];
    if a[i + 1].strike {
      assert a[i + 2] == b[i + 2];
    }
  }

  /** Once a spare's look-ahead roll exists, more frames do not change its bonus. */
  lemma SpareBonusExtends(a: seq<F.FrameState>, b: seq<F.FrameState>, i: nat)
    requires Ready(a) && Ready(b) && |a| <= |b| && a == b[..|a|] && i < |a|
    requires SpareBonus(a, i).Some?
    ensures SpareBonus(b, i) == SpareBonus(a, i)
  {
    assert a[i + 1] == b[i + 1];
  }

  /** A non-zero amount owed stays the same as the game grows. */
  lemma DueExtends(a: seq<F.FrameState>, b: seq<F.FrameState>, i: nat)
    requires Ready(a) && Ready(b) && |a| <= |b| && a == b[..|a|] && i < |a|
    requires Due(a, i) != 0
    ensures Due(b, i) == Due(a, i)
  {
    assert a[i] == b[i];
    if a[i].strike {
      StrikeBonusExtends(a, b, i);
    } else if a[i].spare {
      SpareBonusExtends(a, b, i);
    }
  }

  /** What a frame is owed depends on the rolls and flags of that frame and the ones after it, not on bonuses. */
  lemma DueIgnoresBonuses(a: seq<F.FrameState>, b: seq<F.FrameState>, i: nat)
    requires Ready(a) && Ready(b) && |a| == |b| && i < |a|
    requires forall j :: i <= j < |a| ==> a[j] == b[j].(bonus := a[j].bonus)
    ensures Due(a, i) == Due(b, i)
  {
    if i + 1 < |a| {
      assert a[i + 1] == b[i + 1].(bonus := a[i + 1].bonus);
    }
    if i + 2 < |a| {
      assert a[i + 2] == b[i + 2].(bonus := a[i + 2].bonus);
    }
  }

  /**
   * The sequential scan from k leaves frames before k alone and gives every
   * later frame without a bonus the amount it is owed.
   */
  lemma {:induction false} ScanFromSettles(fs: seq<F.FrameState>, k: nat)
    requires k <= |fs| && Ready(fs)
    ensures forall j :: k <= j < |fs| ==>
      ScanFrom(fs, k)[j].bonus == if F.HadBonus(fs[j]) then fs[j].bonus else fs[j].bonus + Due(fs, j)
    decreases |fs| - k
  {
    if k < |fs| {
      var next := ScanFrame(fs, k);
      ScanFromSettles(next, k + 1);
      forall j | k + 1 <= j < |fs|
        ensures Due(next, j) == Due(fs, j)
      {
        DueIgnoresBonuses(next, fs, j);
      }
    }
  }

  /** Appending a frame keeps the game invariant: the finished frames were already settled. */
  lemma NextFrameInv(fs: seq<F.FrameState>)
    requires Inv(fs)
    ensures Inv(NextFrame(fs))
  {
    var g := NextFrame(fs);
    if |g| > |fs| {
      assert Settled(g) == fs;
    }
  }

  /**
   * When every non-zero bonus already equals what its frame is owed, the scan
   * of a game whose current frame is finished settles every frame.
   */
  lemma ScanEstablishesInv(h: seq<F.FrameState>)
    requires Shape(h) && F.Finished(Last(h))
    requires Ready(h)
    requires forall i :: 0 <= i < |h| ==> h[i].bonus == 0 || h[i].bonus == Due(h, i)
    ensures Inv(UpdateFramesBonusPoints(h))
  {
    var r := UpdateFramesBonusPoints(h);
    ScanPaysDue(h);
    assert Last(r) == Last(h).(bonus := Last(r).bonus);
    forall i | 0 <= i < |r| ensures r[i].bonus == Due(r, i) {
      DueIgnoresBonuses(r, h, i);
    }
    SettledInv(r);
  }

  /** The scan of such a game leaves every frame holding exactly what it is owed. */
  lemma ScanPaysDue(h: seq<F.FrameState>)
    requires Shape(h) && F.Finished(Last(h)) && Ready(h)
    requires forall i :: 0 <= i < |h| ==> h[i].bonus == 0 || h[i].bonus == Due(h, i)
    ensures forall i :: 0 <= i < |h| ==> UpdateFramesBonusPoints(h)[i].bonus == Due(h, i)
  {
    assert UpdateFramesBonusPoints(h) == ScanFrom(h, 0);
    ScanFromSettles(h, 0);
  }

  /** A game whose current frame is finished and whose every bonus is its due satisfies the invariant. */
  lemma SettledInv(r: seq<F.FrameState>)
    requires Shape(r) && F.Finished(Last(r)) && Ready(r)
    requires forall i :: 0 <= i < |r| ==> r[i].bonus == Due(r, i)
    ensures Inv(r)
  {
    assert Settled(r) == r;
  }

  /** Every call of `roll`, accepted or rejected, keeps the game invariant. */
  lemma RollPreservesInv(fs: seq<F.FrameState>, pins: int)
    requires Inv(fs)
    ensures Inv(Roll(fs, pins).frames)
  {
    NextFrameInv(fs);
    RollCurrentPreservesInv(NextFrame(fs), pins);
  }

  lemma RollCurrentPreservesInv(g: seq<F.FrameState>, pins: int)
    requires Inv(g)
    ensures Inv(RollCurrent(g, pins).frames)
  {
    var cur := Last(g);
    match F.Roll(cur, pins)
    case Failure(_) =>
    case Success(rolled) =>
      F.RollPreservesInv(cur, pins);
      RollCurrentAccepted(g, pins, rolled);
      ReplaceCurrentInv(g, rolled);
  }

  lemma ReplaceCurrentShape(g: seq<F.FrameState>, rolled: F.FrameState)
    requires Shape(g) && F.Inv(rolled) && rolled.index == Last(g).index
    ensures Shape(g[|g| - 1 := rolled])
  {
    var h := g[|g| - 1 := rolled];
    forall i | 0 <= i < |h| - 1 ensures F.Finished(h[i]) {
      assert h[i] == g[i];
    }
  }

  /** Replacing the current frame by its state after an accepted roll, then scanning, keeps the invariant. */
  lemma ReplaceCurrentInv(g: seq<F.FrameState>, rolled: F.FrameState)
    requires Inv(g) && F.Inv(rolled)
    requires rolled.index == Last(g).index && rolled.bonus == Last(g).bonus
    requires F.Finished(Last(g)) ==> rolled == Last(g)
    ensures Inv(UpdateFramesBonusPoints(g[|g| - 1 := rolled]))
  {
    var h := g[|g| - 1 := rolled];
    ReplaceCurrentShape(g, rolled);
    if F.Finished(Last(g)) {
      assert h == g;
      FinishedGameReady(h);
      ScanEstablishesInv(h);
    } else if !F.Finished(rolled) {
      assert h[..|h| - 1] == g[..|g| - 1];
    } else {
      FinishingRollInv(g, h);
    }
  }

  /** The roll that finishes the current frame: settled bonuses stay, pending ones get their due. */
  lemma FinishingRollInv(g: seq<F.FrameState>, h: seq<F.FrameState>)
    requires Inv(g) && Shape(h) && !F.Finished(Last(g)) && F.Finished(Last(h))
    requires |h| == |g| && h[..|h| - 1] == g[..|g| - 1] && Last(h).bonus == Last(g).bonus
    ensures Inv(UpdateFramesBonusPoints(h))
  {
    FinishedGameReady(h);
    var p := g[..|g| - 1];
    assert p == h[..|p|];
    forall i | 0 <= i < |h| ensures h[i].bonus == 0 || h[i].bonus == Due(h, i) {
      if i < |p| && h[i].bonus != 0 {
        assert h[i] == g[i];
        DueExtends(p, h, i);
      }
    }
    ScanEstablishesInv(h);
  }

  /** The game total grows when no frame total shrinks. */
  lemma {:induction false} TotalScoreMonotone(a: seq<F.FrameState>, b: seq<F.FrameState>)
    requires |a| == |b|
    requires forall j :: 0 <= j < |a| ==> F.Total(a[j]) <= F.Total(b[j])
    ensures TotalScore(a) <= TotalScore(b)
  {
    if a != [] {
      TotalScoreMonotone(a[..|a| - 1], b[..|b| - 1]);
    }
  }

  lemma ReplaceNeverLowersTotal(fs: seq<F.FrameState>, k: nat, f: F.FrameState)
    requires k < |fs| && F.Total(fs[k]) <= F.Total(f)
    ensures TotalScore(fs) <= TotalScore(fs[k := f])
  {
    var r := fs[k := f];
    forall j | 0 <= j < |fs| ensures F.Total(fs[j]) <= F.Total(r[j]) {
      if j != k {
        assert r[j] == fs[j];
      }
    }
    TotalScoreMonotone(fs, r);
  }

  /** No frame is ever owed a negative bonus. */
  lemma DueNonNegative(gs: seq<F.FrameState>, i: nat)
    requires i < |gs| && Ready(gs)
    requires forall j :: 0 <= j < |gs| ==> F.Inv(gs[j])
    ensures 0 <= Due(gs, i)
  {
    if i + 1 < |gs| {
      F.RollsInRange(gs[i + 1]);
    }
    if i + 2 < |gs| {
      F.RollsInRange(gs[i + 2]);
    }
  }

  /** The bonus scan never lowers a frame total. */
  lemma UpdateNeverLowers(fs: seq<F.FrameState>)
    requires Shape(fs)
    ensures forall j :: 0 <= j < |fs| ==> F.Total(fs[j]) <= F.Total(UpdateFramesBonusPoints(fs)[j])
  {
    if F.Finished(Last(fs)) {
      FinishedGameReady(fs);
      ScanFromSettles(fs, 0);
      var r := UpdateFramesBonusPoints(fs);
      forall j | 0 <= j < |fs| ensures F.Total(fs[j]) <= F.Total(r[j]) {
        DueNonNegative(fs, j);
        assert r[j] == fs[j].(bonus := r[j].bonus);
      }
    }
  }

  /** The total score never decreases, whatever `roll` is called with. */
  lemma RollNeverLowersTotal(fs: seq<F.FrameState>, pins: int)
    requires Shape(fs)
    ensures TotalScore(fs) <= TotalScore(Roll(fs, pins).frames)
  {
    var g := NextFrame(fs);
    if |g| > |fs| {
      assert g[..|g| - 1] == fs;
    }
    assert TotalScore(fs) == TotalScore(g);
    RollCurrentNeverLowersTotal(g, pins);
  }

  lemma RollCurrentNeverLowersTotal(g: seq<F.FrameState>, pins: int)
    requires Shape(g)
    ensures TotalScore(g) <= TotalScore(RollCurrent(g, pins).frames)
  {
    var cur := Last(g);
    match F.Roll(cur, pins)
    case Failure(_) =>
    case Success(rolled) =>
      RollCurrentAccepted(g, pins, rolled);
      if !F.Finished(cur) {
        F.SumAppend(cur.rolls, pins);
      }
      ScanAfterReplaceNeverLowers(g, rolled);
  }

  lemma ScanAfterReplaceNeverLowers(g: seq<F.FrameState>, rolled: F.FrameState)
    requires Shape(g) && Shape(g[|g| - 1 := rolled]) && F.Total(Last(g)) <= F.Total(rolled)
    ensures TotalScore(g) <= TotalScore(UpdateFramesBonusPoints(g[|g| - 1 := rolled]))
  {
    var h := g[|g| - 1 := rolled];
    ReplaceNeverLowersTotal(g, |g| - 1, rolled);
    UpdateNeverLowers(h);
    TotalScoreMonotone(h, UpdateFramesBonusPoints(h));
  }

  /** Bonuses play no part in the layout of a game. */
  lemma ShapeIgnoresBonuses(a: seq<F.FrameState>, b: seq<F.FrameState>)
    requires Shape(a) && |a| == |b|
    requires forall j :: 0 <= j < |a| ==> b[j] == a[j].(bonus := b[j].bonus)
    ensures Shape(b)
  {
    forall j | 0 <= j < |a| ensures b[j].index == j + 1 && F.Inv(b[j]) {
      assert b[j] == a[j].(bonus := b[j].bonus);
    }
  }

  /**
   * A bonus once added is final: a roll, accepted or rejected, leaves a
   * non-zero bonus as it was.
   */
  lemma BonusKept(fs: seq<F.FrameState>, pins: int, i: nat)
    requires Shape(fs) && i < |fs| && fs[i].bonus != 0
    ensures var r := Roll(fs, pins).frames;
      i < |r| && r[i].bonus == fs[i].bonus
  {
    var g := NextFrame(fs);
    assert g[i] == fs[i];
    RollCurrentKeepsBonus(g, pins, i);
  }

  lemma RollCurrentKeepsBonus(g: seq<F.FrameState>, pins: int, i: nat)
    requires Shape(g) && i < |g| && g[i].bonus != 0
    ensures var r := RollCurrent(g, pins).frames;
      i < |r| && r[i].bonus == g[i].bonus
  {
    match F.Roll(Last(g), pins)
    case Failure(_) =>
    case Success(rolled) =>
      RollCurrentAccepted(g, pins, rolled);
      ReplaceKeepsBonus(g, rolled, i);
  }

  lemma ReplaceKeepsBonus(g: seq<F.FrameState>, rolled: F.FrameState, i: nat)
    requires Shape(g) && Shape(g[|g| - 1 := rolled]) && rolled.bonus == Last(g).bonus
    requires i < |g| && g[i].bonus != 0
    ensures UpdateFramesBonusPoints(g[|g| - 1 := rolled])[i].bonus == g[i].bonus
  {
    ScanKeepsBonus(g[|g| - 1 := rolled], i);
  }

  /** The bonus scan leaves a non-zero bonus alone. */
  lemma ScanKeepsBonus(h: seq<F.FrameState>, i: nat)
    requires Shape(h) && i < |h| && h[i].bonus != 0
    ensures UpdateFramesBonusPoints(h)[i].bonus == h[i].bonus
  {
    if F.Finished(Last(h)) {
      FinishedGameReady(h);
      ScanFromSettles(h, 0);
    }
  }

  /** Under the invariant, a settled spare holds the first roll of the next frame as its bonus. */
  lemma SpareBonusValue(fs: seq<F.FrameState>, i: nat)
    requires Inv(fs) && i + 1 < |Settled(fs)| && fs[i].spare
    ensures fs[i].bonus == fs[i + 1].rolls[0]
  {
    var gs := Settled(fs);
    assert gs[i] == fs[i] && gs[i + 1] == fs[i + 1];
    F.EarlyFrameFlags(fs[i]);
  }

  /**
   * Under the invariant, a settled strike holds the next two rolls as its
   * bonus, taken from the frame after it when the next frame is a strike too;
   * 0 while those rolls are missing.
   */
  lemma StrikeBonusValue(fs: seq<F.FrameState>, i: nat)
    requires Inv(fs) && i < |Settled(fs)| && fs[i].strike
    ensures var gs := Settled(fs);
      fs[i].bonus ==
        if i + 1 == |gs| then 0
        else if fs[i + 1].strike then (if i + 2 < |gs| then F.MaxPins + fs[i + 2].rolls[0] else 0)
        else fs[i + 1].rolls[0] + fs[i + 1].rolls[1]
  {
    var gs := Settled(fs);
    assert gs[i] == fs[i];
    if i + 1 < |gs| {
      assert gs[i + 1] == fs[i + 1];
      if fs[i + 1].strike {
        F.StrikeRoll(fs[i + 1]);
        if i + 2 < |gs| {
          assert gs[i + 2] == fs[i + 2];
        }
      }
    }
  }
}
