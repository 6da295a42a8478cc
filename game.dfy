/**
 * The game object of js/game.js: `VDGame()` owns an array of frame objects and
 * a reference to the current one, and updates them in place.
 */
module BowlingGame {
  import opened Wrappers
  import F = FrameModel
  import G = GameModel
  import opened BowlingFrame

  /** The values held by a sequence of frame objects, in order. */
  function StatesOf(fs: seq<Frame>): (r: seq<F.FrameState>)
    reads fs
    ensures |r| == |fs|
    ensures forall i :: 0 <= i < |fs| ==> r[i] == fs[i].State()
  {
    if fs == [] then [] else StatesOf(fs[..|fs| - 1]) + [fs[|fs| - 1].State()]
  }

  /** The totals of a sequence of frame objects, added up first to last. */
  function TotalOf(fs: seq<Frame>): (total: int)
    reads fs
    ensures total == G.TotalScore(StatesOf(fs))
  {
    if fs == [] then 0
    else
      var init := StatesOf(fs[..|fs| - 1]);
      var last := fs[|fs| - 1].State();
      assert StatesOf(fs) == init + [last];
      assert (init + [last])[..|fs| - 1] == init;
      TotalOf(fs[..|fs| - 1]) + fs[|fs| - 1].GetTotalScore()
  }

  class Game {
    const maxFrames: int
    var currentFrame: Frame
    var frames: seq<Frame>

    /** The value of the game: the states of its frames. */
    function Model(): seq<F.FrameState>
      reads this, frames
    {
      StatesOf(frames)
    }

    /** Frame objects sit at the position their index names, so no object appears twice. */
    ghost predicate Indexed()
      reads this
    {
      forall i :: 0 <= i < |frames| ==> frames[i].index == i + 1
    }

    /** The object structure: the current frame is the last, roll limits are set, the values are laid out as a game. */
    ghost predicate Shape()
      reads this, frames
    {
      maxFrames == G.MaxFrames && |frames| >= 1 && currentFrame == frames[|frames| - 1] &&
      G.Shape(Model())
    }

    ghost predicate Valid()
      reads this, frames
    {
      Shape() && G.Inv(Model())
    }

    constructor ()
      ensures Valid() && Model() == G.NewGame()
    {
      maxFrames := G.MaxFrames;
      var first := new Frame(1);
      currentFrame := first;
      frames := [first];
      new;
      G.NewGameInv();
    }

    /** Different positions hold different frame objects, since their indices differ. */
    lemma FramesDistinct(i: nat, j: nat)
      requires Indexed() && i < |frames| && j < |frames| && i != j
      ensures frames[i] != frames[j]
    {
    }

    /** When only the object at position i changed, the game value changed only at i. */
    twostate lemma ModelAfterUpdate(i: nat)
      requires old(Indexed()) && unchanged(this) && i < |frames|
      requires forall o :: o in frames && o != frames[i] ==> unchanged(o)
      ensures Model() == old(Model())[i := frames[i].State()]
    {
      forall j | 0 <= j < |frames| && j != i ensures frames[j].State() == old(frames[j].State()) {
        assert frames[j] in frames && frames[j].index != frames[i].index;
      }
    }

    /** Every frame object of a well-formed game is a valid frame. */
    lemma FrameValid(i: nat)
      requires Shape() && i < |frames|
      ensures frames[i].Valid() && frames[i].index == i + 1
    {
      assert Model()[i] == frames[i].State();
    }

    lemma ShapeIndexed()
      requires Shape()
      ensures Indexed()
    {
      forall i | 0 <= i < |frames| ensures frames[i].index == i + 1 {
        FrameValid(i);
      }
    }

    /** `nextFrame`: start frame |frames|+1 when the current frame is finished and fewer than ten exist. */
    method NextFrame()
      requires Shape()
      modifies this
      ensures Shape()
      ensures Model() == G.NextFrame(old(Model()))
      ensures frames == old(frames) || (frames == old(frames) + [currentFrame] && fresh(currentFrame))
      ensures |old(frames)| <= |frames| && frames[..|old(frames)|] == old(frames)
    {
      ghost var before := Model();
      ghost var objects := frames;
      assert |before| == |frames| && currentFrame.State() == G.Last(before);
      var nextFrameIndex := |frames| + 1;
      if currentFrame.IsFinished() && nextFrameIndex <= maxFrames {
        currentFrame := new Frame(nextFrameIndex);
        frames := frames + [currentFrame];
        assert frames[..|objects|] == objects;
        assert Model() == before + [F.NewFrame(nextFrameIndex)];
        assert G.NextFrame(before) == before + [F.NewFrame(nextFrameIndex)];
      } else {
        assert G.NextFrame(before) == before;
      }
    }

    /** `checkSpareBonus(spareFrame)` for a frame of this game. */
    method CheckSpareBonus(spareFrame: Frame)
      requires Indexed() && G.Ready(Model())
      requires 1 <= spareFrame.index <= |frames| && frames[spareFrame.index - 1] == spareFrame
      modifies spareFrame
      ensures Model() == G.CheckSpareBonus(old(Model()), spareFrame.index - 1)
    {
      ghost var before := Model();
      ghost var i := spareFrame.index - 1;
      ghost var owed := G.SpareBonus(before, i);
      var frameIndex := spareFrame.GetIndex();
      if frameIndex >= |frames| {
        return;
      }
      var nextFrameInGame := frames[frameIndex];
      var firstRollAfterResult := nextFrameInGame.GetRollByIndex(1);
      assert nextFrameInGame.State() == before[frameIndex];
      assert owed == firstRollAfterResult;
      spareFrame.AddBonus(firstRollAfterResult.value);
      assert spareFrame.State() == before[i].(bonus := before[i].bonus + owed.GetOr(0));
      ModelAfterUpdate(i);
    }

    /** `checkStrikeBonus(strikeFrame)` for a frame of this game. */
    method CheckStrikeBonus(strikeFrame: Frame)
      requires Indexed() && G.Ready(Model())
      requires 1 <= strikeFrame.index <= |frames| && frames[strikeFrame.index - 1] == strikeFrame
      modifies strikeFrame
      ensures Model() == G.CheckStrikeBonus(old(Model()), strikeFrame.index - 1)
    {
      ghost var before := Model();
      ghost var i := strikeFrame.index - 1;
      ghost var owed := G.StrikeBonus(before, i);
      var frameIndex := strikeFrame.GetIndex();
      if frameIndex >= |frames| {
        return;
      }
      var nextFrameInGame := frames[frameIndex];
      assert nextFrameInGame.State() == before[frameIndex];
      var firstRollAfterResult := nextFrameInGame.GetRollByIndex(1).value;
      var secondRollAfterResult := 0;
      if nextFrameInGame.IsStrike() {
        if frameIndex + 1 < |frames| {
          var nextNextFrameInGame := frames[frameIndex + 1];
          assert nextNextFrameInGame.State() == before[frameIndex + 1];
          secondRollAfterResult := nextNextFrameInGame.GetRollByIndex(1).value;
          var bonus := firstRollAfterResult + secondRollAfterResult;
          assert owed == Some(bonus);
          strikeFrame.AddBonus(bonus);
        } else {
          assert owed == None;
        }
      } else {
        secondRollAfterResult := nextFrameInGame.GetRollByIndex(2).value;
        var bonus := firstRollAfterResult + secondRollAfterResult;
        assert owed == Some(bonus);
        strikeFrame.AddBonus(bonus);
      }
      assert strikeFrame.State() == before[i].(bonus := before[i].bonus + owed.GetOr(0));
      ModelAfterUpdate(i);
    }

    /** The callback the bonus scan runs on one frame: settle it unless it already has a bonus. */
    method SettleFrame(frame: Frame)
      requires Indexed() && G.Ready(Model())
      requires 1 <= frame.index <= |frames| && frames[frame.index - 1] == frame
      modifies frame
      ensures Model() == G.ScanFrame(old(Model()), frame.index - 1)
    {
      ghost var before := Model();
      ghost var k := frame.index - 1;
      assert frame.State() == before[k];
      if frame.HadBonus() {
        return;
      }
      if frame.IsStrike() {
        CheckStrikeBonus(frame);
      }
      ghost var middle := Model();
      assert middle == if before[k].strike then G.CheckStrikeBonus(before, k) else before;
      assert frame.State() == middle[k];
      if frame.IsSpare() {
        CheckSpareBonus(frame);
      }
    }

    /**
     * `updateFramesBonusPoints`: once the current frame is finished, walk the
     * frames in order and settle each one that has no bonus yet.
     */
    method UpdateFramesBonusPoints()
      requires Shape()
      modifies frames
      ensures Shape()
      ensures Model() == G.UpdateFramesBonusPoints(old(Model()))
    {
      ghost var before := Model();
      assert currentFrame.State() == G.Last(before);
      if !currentFrame.IsFinished() {
        return;
      }
      G.FinishedGameReady(before);
      ShapeIndexed();
      ForEachFrame();
      G.ShapeIgnoresBonuses(before, Model());
    }

    /** The `forEach` of the bonus scan: the callback on every frame, first to last. */
    method ForEachFrame()
      requires Indexed() && G.Ready(Model())
      modifies frames
      ensures Model() == G.ScanFrom(old(Model()), 0)
    {
      ghost var before := Model();
      var k := 0;
      ghost var done := before;
      while k < |frames|
        invariant 0 <= k <= |frames| && Indexed()
        invariant Model() == done && G.Ready(done)
        invariant G.ScanFrom(done, k) == G.ScanFrom(before, 0)
      {
        assert frames[k].index == k + 1;
        SettleFrame(frames[k]);
        assert G.ScanFrom(done, k) == G.ScanFrom(G.ScanFrame(done, k), k + 1);
        done := G.ScanFrame(done, k);
        k := k + 1;
      }
    }

    /** `currentFrame.roll(pins)`: only the current frame changes, as the frame model says. */
    method RollFrame(pins: int) returns (r: Outcome<F.RollError>)
      requires Shape()
      modifies currentFrame
      ensures unchanged(this)
      ensures match F.Roll(G.Last(old(Model())), pins)
        case Failure(e) => r == Fail(e) && Model() == old(Model())
        case Success(f) => r == Pass && Model() == old(Model())[|frames| - 1 := f]
    {
      ghost var last := |frames| - 1;
      FrameValid(last);
      r := currentFrame.Roll(pins);
      ModelAfterUpdate(last);
    }

    /**
     * The part of `roll` after `nextFrame`: the current frame takes the pins,
     * and the bonus scan follows unless the frame rejected them.
     */
    method RollCurrent(pins: int) returns (r: Outcome<F.RollError>)
      requires Shape()
      modifies frames
      ensures Shape()
      ensures G.RollCurrent(old(Model()), pins) == G.Step(Model(), r)
    {
      ghost var before := Model();
      ghost var last := G.Last(before);
      assert |before| == |frames|;
      r := RollFrame(pins);
      if r.Fail? {
        assert Model() == before && r == Fail(F.Roll(last, pins).error);
        G.RollCurrentCases(before, pins);
        return;
      }
      ghost var rolled := F.Roll(last, pins).value;
      assert Model() == before[|before| - 1 := rolled];
      G.RollCurrentAccepted(before, pins, rolled);
      UpdateFramesBonusPoints();
    }

    /** `roll(pins)`: advance lazily, then roll in the current frame; every call keeps the game invariant. */
    method Roll(pins: int) returns (r: Outcome<F.RollError>)
      requires Valid()
      modifies this, frames
      ensures Valid()
      ensures G.Roll(old(Model()), pins) == G.Step(Model(), r)
      ensures |old(frames)| <= |frames| && frames[..|old(frames)|] == old(frames)
    {
      ghost var before := Model();
      NextFrame();
      ghost var advanced := Model();
      ghost var list := frames;
      r := RollCurrent(pins);
      assert frames == list;
      assert advanced == G.NextFrame(before);
      G.RollAfterAdvance(before, pins, advanced);
      G.RollPreservesInv(before, pins);
    }

    /** `getFrame(k)`: frame k (1-based) for k > 0, the current frame otherwise, nothing past the end. */
    function GetFrame(frameIndex: int): (r: Option<Frame>)
      reads this, frames
      ensures r.Some? ==> r.value in frames
      ensures G.Shape(Model()) ==>
        (r.None? <==> G.GetFrame(Model(), frameIndex).None?) &&
        (r.Some? ==> r.value.State() == G.GetFrame(Model(), frameIndex).value)
    {
      var position := if frameIndex > 0 then frameIndex - 1 else |frames| - 1;
      if 0 <= position < |frames| then Some(frames[position]) else None
    }

    /** `getTotalScore`: the frames' totals added up, first to last. */
    function GetTotalScore(): (total: int)
      reads this, frames
      ensures total == G.TotalScore(Model())
    {
      TotalOf(frames)
    }
  }
}
