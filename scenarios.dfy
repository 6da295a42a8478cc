/**
 * The scenarios of test/game.spec.js, replayed on the model: each lemma states
 * what the test expects after the rolls it makes.
 */
module Scenarios {
  import opened Wrappers
  import F = FrameModel
  import G = GameModel
  import R = ReferenceScore
  import opened Replay

  /** test/game.spec.js:28-36: a new game scores 0, and 6 after rolls of 1 and 5. */
  lemma ScoreAfterEachRoll()
    ensures G.TotalScore(Play([])) == 0
    ensures G.TotalScore(Play([1, 5])) == 6
  {
    G.NewGameInv();
    Total_1_5();
  }

  /** test/game.spec.js:122-129: nine rolls of 0, then 5 and 5 (after the odd 0 they fall in frames five and six), then 1. */
  lemma LastFramesTotals()
    ensures G.TotalScore(Play([0, 0, 0, 0, 0, 0, 0, 0, 0])) == 0
    ensures G.TotalScore(Play([0, 0, 0, 0, 0, 0, 0, 0, 0, 5, 5])) == 10
    ensures G.TotalScore(Play([0, 0, 0, 0, 0, 0, 0, 0, 0, 5, 5, 1])) == 11
  {
    Total_0x9();
    Total_0x9_5_5();
    Total_0x9_5_5_1();
  }

  /** test/game.spec.js:131-134: twenty rolls of 0 score 0. */
  lemma GutterGameTotal()
    ensures G.TotalScore(Play(Repeat(20, 0))) == 0
  {
    GutterGame(20);
  }

  /** test/game.spec.js:136-139: twelve strikes score 300. */
  lemma PerfectGameTotal()
    ensures G.TotalScore(Play([10, 10, 10, 10, 10, 10, 10, 10, 10, 10, 10, 10])) == 300
  {
    Total_10x12();
  }

  /** test/game.spec.js:38-45: the frame stays current after its second roll and is left on the next one. */
  lemma NewFrameAfterSecondRoll()
    ensures G.GetFrame(Play([]), 0).value.index == 1
    ensures G.GetFrame(Play([2, 1]), 0).value.index == 1
    ensures G.GetFrame(Play([2, 1, 3]), 0).value.index == 2
  {
    AfterStart();
    After_2_1();
    After_2_1_3();
  }

  /** test/game.spec.js:47-52: after a strike the next roll goes to frame 2. */
  lemma NewFrameAfterStrike()
    ensures G.GetFrame(Play([10, 2]), 0).value.index == 2
  {
    After_10_2();
  }

  /** test/game.spec.js:54-60: the pins left standing in the current frame. */
  lemma PinsLeftInFrame()
    ensures G.GetFrame(Play([1, 4]), 0).value.leftPins == 5
    ensures G.GetFrame(Play([1, 4, 9]), 0).value.leftPins == 1
  {
    After_1_4();
    After_1_4_9();
  }

  /** test/game.spec.js:62-69: more pins than are standing are refused. */
  lemma TooManyPinsRefused()
    ensures G.Roll(Play([]), 11).outcome == Fail(F.OutOfRange(10))
    ensures G.Roll(Play([2]), 9).outcome == Fail(F.OutOfRange(8))
  {
    AfterStart();
    Refuse([], 11, F.FrameState(1, 10, [], false, false, 0));
    After_2();
    Refuse([2], 9, F.FrameState(1, 8, [2], false, false, 0));
  }

  /** test/game.spec.js:71-80: only the second roll that clears the rack marks a spare. */
  lemma SpareMarked()
    ensures !G.GetFrame(Play([3]), 0).value.spare
    ensures !G.GetFrame(Play([3, 4]), 0).value.spare
    ensures !G.GetFrame(Play([3, 4, 1]), 0).value.spare
    ensures G.GetFrame(Play([3, 4, 1, 9]), 0).value.spare
  {
    After_3();
    After_3_4();
    After_3_4_1();
    After_3_4_1_9();
  }

  /** test/game.spec.js:82-89: only a first roll of ten marks a strike. */
  lemma StrikeMarked()
    ensures !G.GetFrame(Play([3]), 0).value.strike
    ensures !G.GetFrame(Play([3, 4]), 0).value.strike
    ensures G.GetFrame(Play([3, 4, 10]), 0).value.strike
  {
    After_3();
    After_3_4();
    After_3_4_10();
  }

  /** test/game.spec.js:91-101: a spare earns the next roll. */
  lemma SpareBonusTotals()
    ensures G.TotalScore(Play([5, 5])) == 10
    ensures G.TotalScore(Play([5, 5, 6, 3])) == 25
    ensures G.TotalScore(Play([5, 5, 6, 3, 5, 5])) == 35
    ensures G.TotalScore(Play([5, 5, 6, 3, 5, 5, 5, 5])) == 50
  {
    Total_5_5();
    Total_5_5_6_3();
    Total_5_5_6_3_5_5();
    Total_5_5_6_3_5x4();
  }

  /** test/game.spec.js:103-109: a strike earns the next two rolls. */
  lemma StrikeBonusTotals()
    ensures G.TotalScore(Play([10])) == 10
    ensures G.TotalScore(Play([10, 6, 4])) == 30
  {
    Total_10();
    Total_10_6_4();
  }

  /** test/game.spec.js:111-120: spares and strikes mixed. */
  lemma MixedBonusTotals()
    ensures G.TotalScore(Play([5, 5])) == 10
    ensures G.TotalScore(Play([5, 5, 1, 3])) == 15
    ensures G.TotalScore(Play([5, 5, 1, 3, 10, 5, 5])) == 45
  {
    Total_5_5();
    Total_5_5_1_3();
    Total_5_5_1_3_10_5_5();
  }

  // The lemmas below are the steps of the replays above, one per prefix of a
  // test's rolls: `Rolled_*` gives the frame's roll on literal states (with
  // the literal concatenation it needs), `After_*` the game after that prefix,
  // and `Score_*`/`Total_*` the reference score and total.  They are solver
  // steps and state nothing beyond the lemmas above.

  lemma AfterStart()
    ensures |Play([])| == 1 && Current(Play([])) == F.FrameState(1, 10, [], false, false, 0)
    ensures R.Flat(Play([])) == []
  {
  }

  lemma Rolled_0()
    ensures [] + [0] == [0]
    ensures F.Roll(F.FrameState(1, 10, [], false, false, 0), 0) == Success(F.FrameState(1, 10, [0], false, false, 0))
  {
    assert [] + [0] == [0];
  }

  lemma After_0()
    ensures |Play([0])| == 1 && Current(Play([0])) == F.FrameState(1, 10, [0], false, false, 0)
    ensures R.Flat(Play([0])) == [0]
  {
    AfterStart();
    Rolled_0();
    Continue([], 0, [0], F.FrameState(1, 10, [], false, false, 0), F.FrameState(1, 10, [0], false, false, 0));
  }

  lemma Rolled_1()
    ensures [] + [1] == [1]
    ensures F.Roll(F.FrameState(1, 10, [], false, false, 0), 1) == Success(F.FrameState(1, 9, [1], false, false, 0))
  {
    assert [] + [1] == [1];
  }

  lemma After_1()
    ensures |Play([1])| == 1 && Current(Play([1])) == F.FrameState(1, 9, [1], false, false, 0)
    ensures R.Flat(Play([1])) == [1]
  {
    AfterStart();
    Rolled_1();
    Continue([], 1, [1], F.FrameState(1, 10, [], false, false, 0), F.FrameState(1, 9, [1], false, false, 0));
  }

  lemma Rolled_2()
    ensures [] + [2] == [2]
    ensures F.Roll(F.FrameState(1, 10, [], false, false, 0), 2) == Success(F.FrameState(1, 8, [2], false, false, 0))
  {
    assert [] + [2] == [2];
  }

  lemma After_2()
    ensures |Play([2])| == 1 && Current(Play([2])) == F.FrameState(1, 8, [2], false, false, 0)
    ensures R.Flat(Play([2])) == [2]
  {
    AfterStart();
    Rolled_2();
    Continue([], 2, [2], F.FrameState(1, 10, [], false, false, 0), F.FrameState(1, 8, [2], false, false, 0));
  }

  lemma Rolled_3()
    ensures [] + [3] == [3]
    ensures F.Roll(F.FrameState(1, 10, [], false, false, 0), 3) == Success(F.FrameState(1, 7, [3], false, false, 0))
  {
    assert [] + [3] == [3];
  }

  lemma After_3()
    ensures |Play([3])| == 1 && Current(Play([3])) == F.FrameState(1, 7, [3], false, false, 0)
    ensures R.Flat(Play([3])) == [3]
  {
    AfterStart();
    Rolled_3();
    Continue([], 3, [3], F.FrameState(1, 10, [], false, false, 0), F.FrameState(1, 7, [3], false, false, 0));
  }

  lemma Rolled_5()
    ensures [] + [5] == [5]
    ensures F.Roll(F.FrameState(1, 10, [], false, false, 0), 5) == Success(F.FrameState(1, 5, [5], false, false, 0))
  {
    assert [] + [5] == [5];
  }

  lemma After_5()
    ensures |Play([5])| == 1 && Current(Play([5])) == F.FrameState(1, 5, [5], false, false, 0)
    ensures R.Flat(Play([5])) == [5]
  {
    AfterStart();
    Rolled_5();
    Continue([], 5, [5], F.FrameState(1, 10, [], false, false, 0), F.FrameState(1, 5, [5], false, false, 0));
  }

  lemma Rolled_10()
    ensures [] + [10] == [10]
    ensures F.Roll(F.FrameState(1, 10, [], false, false, 0), 10) == Success(F.FrameState(1, 0, [10], true, false, 0))
  {
    assert [] + [10] == [10];
  }

  lemma After_10()
    ensures |Play([10])| == 1 && Current(Play([10])) == F.FrameState(1, 0, [10], true, false, 0)
    ensures R.Flat(Play([10])) == [10]
  {
    AfterStart();
    Rolled_10();
    Continue([], 10, [10], F.FrameState(1, 10, [], false, false, 0), F.FrameState(1, 0, [10], true, false, 0));
  }

  lemma Rolled_0_0()
    ensures [0] + [0] == [0, 0]
    ensures F.Roll(F.FrameState(1, 10, [0], false, false, 0), 0) == Success(F.FrameState(1, 10, [0, 0], false, false, 0))
  {
    assert [0] + [0] == [0, 0];
  }

  lemma After_0_0()
    ensures |Play([0, 0])| == 1 && Current(Play([0, 0])) == F.FrameState(1, 10, [0, 0], false, false, 0)
    ensures R.Flat(Play([0, 0])) == [0, 0]
  {
    After_0();
    Rolled_0_0();
    Continue([0], 0, [0, 0], F.FrameState(1, 10, [0], false, false, 0), F.FrameState(1, 10, [0, 0], false, false, 0));
  }

  lemma Rolled_1_4()
    ensures [1] + [4] == [1, 4]
    ensures F.Roll(F.FrameState(1, 9, [1], false, false, 0), 4) == Success(F.FrameState(1, 5, [1, 4], false, false, 0))
  {
    assert [1] + [4] == [1, 4];
  }

  lemma After_1_4()
    ensures |Play([1, 4])| == 1 && Current(Play([1, 4])) == F.FrameState(1, 5, [1, 4], false, false, 0)
    ensures R.Flat(Play([1, 4])) == [1, 4]
  {
    After_1();
    Rolled_1_4();
    Continue([1], 4, [1, 4], F.FrameState(1, 9, [1], false, false, 0), F.FrameState(1, 5, [1, 4], false, false, 0));
  }

  lemma Rolled_1_5()
    ensures [1] + [5] == [1, 5]
    ensures F.Roll(F.FrameState(1, 9, [1], false, false, 0), 5) == Success(F.FrameState(1, 4, [1, 5], false, false, 0))
  {
    assert [1] + [5] == [1, 5];
  }

  lemma After_1_5()
    ensures |Play([1, 5])| == 1 && Current(Play([1, 5])) == F.FrameState(1, 4, [1, 5], false, false, 0)
    ensures R.Flat(Play([1, 5])) == [1, 5]
  {
    After_1();
    Rolled_1_5();
    Continue([1], 5, [1, 5], F.FrameState(1, 9, [1], false, false, 0), F.FrameState(1, 4, [1, 5], false, false, 0));
  }

  lemma Rolled_2_1()
    ensures [2] + [1] == [2, 1]
    ensures F.Roll(F.FrameState(1, 8, [2], false, false, 0), 1) == Success(F.FrameState(1, 7, [2, 1], false, false, 0))
  {
    assert [2] + [1] == [2, 1];
  }

  lemma After_2_1()
    ensures |Play([2, 1])| == 1 && Current(Play([2, 1])) == F.FrameState(1, 7, [2, 1], false, false, 0)
    ensures R.Flat(Play([2, 1])) == [2, 1]
  {
    After_2();
    Rolled_2_1();
    Continue([2], 1, [2, 1], F.FrameState(1, 8, [2], false, false, 0), F.FrameState(1, 7, [2, 1], false, false, 0));
  }

  lemma Rolled_3_4()
    ensures [3] + [4] == [3, 4]
    ensures F.Roll(F.FrameState(1, 7, [3], false, false, 0), 4) == Success(F.FrameState(1, 3, [3, 4], false, false, 0))
  {
    assert [3] + [4] == [3, 4];
  }

  lemma After_3_4()
    ensures |Play([3, 4])| == 1 && Current(Play([3, 4])) == F.FrameState(1, 3, [3, 4], false, false, 0)
    ensures R.Flat(Play([3, 4])) == [3, 4]
  {
    After_3();
    Rolled_3_4();
    Continue([3], 4, [3, 4], F.FrameState(1, 7, [3], false, false, 0), F.FrameState(1, 3, [3, 4], false, false, 0));
  }

  lemma Rolled_5_5()
    ensures [5] + [5] == [5, 5]
    ensures F.Roll(F.FrameState(1, 5, [5], false, false, 0), 5) == Success(F.FrameState(1, 0, [5, 5], false, true, 0))
  {
    assert [5] + [5] == [5, 5];
  }

  lemma After_5_5()
    ensures |Play([5, 5])| == 1 && Current(Play([5, 5])) == F.FrameState(1, 0, [5, 5], false, true, 0)
    ensures R.Flat(Play([5, 5])) == [5, 5]
  {
    After_5();
    Rolled_5_5();
    Continue([5], 5, [5, 5], F.FrameState(1, 5, [5], false, false, 0), F.FrameState(1, 0, [5, 5], false, true, 0));
  }

  lemma Rolled_10_2()
    ensures [10] + [2] == [10, 2]
    ensures F.Roll(F.NewFrame(2), 2) == Success(F.FrameState(2, 8, [2], false, false, 0))
  {
    assert [] + [2] == [2];
  }

  lemma After_10_2()
    ensures |Play([10, 2])| == 2 && Current(Play([10, 2])) == F.FrameState(2, 8, [2], false, false, 0)
    ensures R.Flat(Play([10, 2])) == [10, 2]
  {
    After_10();
    Rolled_10_2();
    Advance([10], 2, [10, 2], F.FrameState(1, 0, [10], true, false, 0), F.FrameState(2, 8, [2], false, false, 0));
  }

  lemma Rolled_10_6()
    ensures [10] + [6] == [10, 6]
    ensures F.Roll(F.NewFrame(2), 6) == Success(F.FrameState(2, 4, [6], false, false, 0))
  {
    assert [] + [6] == [6];
  }

  lemma After_10_6()
    ensures |Play([10, 6])| == 2 && Current(Play([10, 6])) == F.FrameState(2, 4, [6], false, false, 0)
    ensures R.Flat(Play([10, 6])) == [10, 6]
  {
    After_10();
    Rolled_10_6();
    Advance([10], 6, [10, 6], F.FrameState(1, 0, [10], true, false, 0), F.FrameState(2, 4, [6], false, false, 0));
  }

  lemma Rolled_10_10()
    ensures [10] + [10] == [10, 10]
    ensures F.Roll(F.NewFrame(2), 10) == Success(F.FrameState(2, 0, [10], true, false, 0))
  {
    assert [] + [10] == [10];
  }

  lemma After_10_10()
    ensures |Play([10, 10])| == 2 && Current(Play([10, 10])) == F.FrameState(2, 0, [10], true, false, 0)
    ensures R.Flat(Play([10, 10])) == [10, 10]
  {
    After_10();
    Rolled_10_10();
    Advance([10], 10, [10, 10], F.FrameState(1, 0, [10], true, false, 0), F.FrameState(2, 0, [10], true, false, 0));
  }

  lemma Rolled_0x3()
    ensures [0, 0] + [0] == [0, 0, 0]
    ensures F.Roll(F.NewFrame(2), 0) == Success(F.FrameState(2, 10, [0], false, false, 0))
  {
    assert [] + [0] == [0];
  }

  lemma After_0x3()
    ensures |Play([0, 0, 0])| == 2 && Current(Play([0, 0, 0])) == F.FrameState(2, 10, [0], false, false, 0)
    ensures R.Flat(Play([0, 0, 0])) == [0, 0, 0]
  {
    After_0_0();
    Rolled_0x3();
    Advance([0, 0], 0, [0, 0, 0], F.FrameState(1, 10, [0, 0], false, false, 0), F.FrameState(2, 10, [0], false, false, 0));
  }

  lemma Rolled_1_4_9()
    ensures [1, 4] + [9] == [1, 4, 9]
    ensures F.Roll(F.NewFrame(2), 9) == Success(F.FrameState(2, 1, [9], false, false, 0))
  {
    assert [] + [9] == [9];
  }

  lemma After_1_4_9()
    ensures |Play([1, 4, 9])| == 2 && Current(Play([1, 4, 9])) == F.FrameState(2, 1, [9], false, false, 0)
    ensures R.Flat(Play([1, 4, 9])) == [1, 4, 9]
  {
    After_1_4();
    Rolled_1_4_9();
    Advance([1, 4], 9, [1, 4, 9], F.FrameState(1, 5, [1, 4], false, false, 0), F.FrameState(2, 1, [9], false, false, 0));
  }

  lemma Rolled_2_1_3()
    ensures [2, 1] + [3] == [2, 1, 3]
    ensures F.Roll(F.NewFrame(2), 3) == Success(F.FrameState(2, 7, [3], false, false, 0))
  {
    assert [] + [3] == [3];
  }

  lemma After_2_1_3()
    ensures |Play([2, 1, 3])| == 2 && Current(Play([2, 1, 3])) == F.FrameState(2, 7, [3], false, false, 0)
    ensures R.Flat(Play([2, 1, 3])) == [2, 1, 3]
  {
    After_2_1();
    Rolled_2_1_3();
    Advance([2, 1], 3, [2, 1, 3], F.FrameState(1, 7, [2, 1], false, false, 0), F.FrameState(2, 7, [3], false, false, 0));
  }

  lemma Rolled_3_4_1()
    ensures [3, 4] + [1] == [3, 4, 1]
    ensures F.Roll(F.NewFrame(2), 1) == Success(F.FrameState(2, 9, [1], false, false, 0))
  {
    assert [] + [1] == [1];
  }

  lemma After_3_4_1()
    ensures |Play([3, 4, 1])| == 2 && Current(Play([3, 4, 1])) == F.FrameState(2, 9, [1], false, false, 0)
    ensures R.Flat(Play([3, 4, 1])) == [3, 4, 1]
  {
    After_3_4();
    Rolled_3_4_1();
    Advance([3, 4], 1, [3, 4, 1], F.FrameState(1, 3, [3, 4], false, false, 0), F.FrameState(2, 9, [1], false, false, 0));
  }

  lemma Rolled_3_4_10()
    ensures [3, 4] + [10] == [3, 4, 10]
    ensures F.Roll(F.NewFrame(2), 10) == Success(F.FrameState(2, 0, [10], true, false, 0))
  {
    assert [] + [10] == [10];
  }

  lemma After_3_4_10()
    ensures |Play([3, 4, 10])| == 2 && Current(Play([3, 4, 10])) == F.FrameState(2, 0, [10], true, false, 0)
    ensures R.Flat(Play([3, 4, 10])) == [3, 4, 10]
  {
    After_3_4();
    Rolled_3_4_10();
    Advance([3, 4], 10, [3, 4, 10], F.FrameState(1, 3, [3, 4], false, false, 0), F.FrameState(2, 0, [10], true, false, 0));
  }

  lemma Rolled_5_5_1()
    ensures [5, 5] + [1] == [5, 5, 1]
    ensures F.Roll(F.NewFrame(2), 1) == Success(F.FrameState(2, 9, [1], false, false, 0))
  {
    assert [] + [1] == [1];
  }

  lemma After_5_5_1()
    ensures |Play([5, 5, 1])| == 2 && Current(Play([5, 5, 1])) == F.FrameState(2, 9, [1], false, false, 0)
    ensures R.Flat(Play([5, 5, 1])) == [5, 5, 1]
  {
    After_5_5();
    Rolled_5_5_1();
    Advance([5, 5], 1, [5, 5, 1], F.FrameState(1, 0, [5, 5], false, true, 0), F.FrameState(2, 9, [1], false, false, 0));
  }

  lemma Rolled_5_5_6()
    ensures [5, 5] + [6] == [5, 5, 6]
    ensures F.Roll(F.NewFrame(2), 6) == Success(F.FrameState(2, 4, [6], false, false, 0))
  {
    assert [] + [6] == [6];
  }

  lemma After_5_5_6()
    ensures |Play([5, 5, 6])| == 2 && Current(Play([5, 5, 6])) == F.FrameState(2, 4, [6], false, false, 0)
    ensures R.Flat(Play([5, 5, 6])) == [5, 5, 6]
  {
    After_5_5();
    Rolled_5_5_6();
    Advance([5, 5], 6, [5, 5, 6], F.FrameState(1, 0, [5, 5], false, true, 0), F.FrameState(2, 4, [6], false, false, 0));
  }

  lemma Rolled_10_6_4()
    ensures [10, 6] + [4] == [10, 6, 4]
    ensures F.Roll(F.FrameState(2, 4, [6], false, false, 0), 4) == Success(F.FrameState(2, 0, [6, 4], false, true, 0))
  {
    assert [6] + [4] == [6, 4];
  }

  lemma After_10_6_4()
    ensures |Play([10, 6, 4])| == 2 && Current(Play([10, 6, 4])) == F.FrameState(2, 0, [6, 4], false, true, 0)
    ensures R.Flat(Play([10, 6, 4])) == [10, 6, 4]
  {
    After_10_6();
    Rolled_10_6_4();
    Continue([10, 6], 4, [10, 6, 4], F.FrameState(2, 4, [6], false, false, 0), F.FrameState(2, 0, [6, 4], false, true, 0));
  }

  lemma Rolled_10x3()
    ensures [10, 10] + [10] == [10, 10, 10]
    ensures F.Roll(F.NewFrame(3), 10) == Success(F.FrameState(3, 0, [10], true, false, 0))
  {
    assert [] + [10] == [10];
  }

  lemma After_10x3()
    ensures |Play([10, 10, 10])| == 3 && Current(Play([10, 10, 10])) == F.FrameState(3, 0, [10], true, false, 0)
    ensures R.Flat(Play([10, 10, 10])) == [10, 10, 10]
  {
    After_10_10();
    Rolled_10x3();
    Advance([10, 10], 10, [10, 10, 10], F.FrameState(2, 0, [10], true, false, 0), F.FrameState(3, 0, [10], true, false, 0));
  }

  lemma Rolled_0x4()
    ensures [0, 0, 0] + [0] == [0, 0, 0, 0]
    ensures F.Roll(F.FrameState(2, 10, [0], false, false, 0), 0) == Success(F.FrameState(2, 10, [0, 0], false, false, 0))
  {
    assert [0] + [0] == [0, 0];
  }

  lemma After_0x4()
    ensures |Play([0, 0, 0, 0])| == 2 && Current(Play([0, 0, 0, 0])) == F.FrameState(2, 10, [0, 0], false, false, 0)
    ensures R.Flat(Play([0, 0, 0, 0])) == [0, 0, 0, 0]
  {
    After_0x3();
    Rolled_0x4();
    Continue([0, 0, 0], 0, [0, 0, 0, 0], F.FrameState(2, 10, [0], false, false, 0), F.FrameState(2, 10, [0, 0], false, false, 0));
  }

  lemma Rolled_3_4_1_9()
    ensures [3, 4, 1] + [9] == [3, 4, 1, 9]
    ensures F.Roll(F.FrameState(2, 9, [1], false, false, 0), 9) == Success(F.FrameState(2, 0, [1, 9], false, true, 0))
  {
    assert [1] + [9] == [1, 9];
  }

  lemma After_3_4_1_9()
    ensures |Play([3, 4, 1, 9])| == 2 && Current(Play([3, 4, 1, 9])) == F.FrameState(2, 0, [1, 9], false, true, 0)
    ensures R.Flat(Play([3, 4, 1, 9])) == [3, 4, 1, 9]
  {
    After_3_4_1();
    Rolled_3_4_1_9();
    Continue([3, 4, 1], 9, [3, 4, 1, 9], F.FrameState(2, 9, [1], false, false, 0), F.FrameState(2, 0, [1, 9], false, true, 0));
  }

  lemma Rolled_5_5_1_3()
    ensures [5, 5, 1] + [3] == [5, 5, 1, 3]
    ensures F.Roll(F.FrameState(2, 9, [1], false, false, 0), 3) == Success(F.FrameState(2, 6, [1, 3], false, false, 0))
  {
    assert [1] + [3] == [1, 3];
  }

  lemma After_5_5_1_3()
    ensures |Play([5, 5, 1, 3])| == 2 && Current(Play([5, 5, 1, 3])) == F.FrameState(2, 6, [1, 3], false, false, 0)
    ensures R.Flat(Play([5, 5, 1, 3])) == [5, 5, 1, 3]
  {
    After_5_5_1();
    Rolled_5_5_1_3();
    Continue([5, 5, 1], 3, [5, 5, 1, 3], F.FrameState(2, 9, [1], false, false, 0), F.FrameState(2, 6, [1, 3], false, false, 0));
  }

  lemma Rolled_5_5_6_3()
    ensures [5, 5, 6] + [3] == [5, 5, 6, 3]
    ensures F.Roll(F.FrameState(2, 4, [6], false, false, 0), 3) == Success(F.FrameState(2, 1, [6, 3], false, false, 0))
  {
    assert [6] + [3] == [6, 3];
  }

  lemma After_5_5_6_3()
    ensures |Play([5, 5, 6, 3])| == 2 && Current(Play([5, 5, 6, 3])) == F.FrameState(2, 1, [6, 3], false, false, 0)
    ensures R.Flat(Play([5, 5, 6, 3])) == [5, 5, 6, 3]
  {
    After_5_5_6();
    Rolled_5_5_6_3();
    Continue([5, 5, 6], 3, [5, 5, 6, 3], F.FrameState(2, 4, [6], false, false, 0), F.FrameState(2, 1, [6, 3], false, false, 0));
  }

  lemma Rolled_10x4()
    ensures [10, 10, 10] + [10] == [10, 10, 10, 10]
    ensures F.Roll(F.NewFrame(4), 10) == Success(F.FrameState(4, 0, [10], true, false, 0))
  {
    assert [] + [10] == [10];
  }

  lemma After_10x4()
    ensures |Play([10, 10, 10, 10])| == 4 && Current(Play([10, 10, 10, 10])) == F.FrameState(4, 0, [10], true, false, 0)
    ensures R.Flat(Play([10, 10, 10, 10])) == [10, 10, 10, 10]
  {
    After_10x3();
    Rolled_10x4();
    Advance([10, 10, 10], 10, [10, 10, 10, 10], F.FrameState(3, 0, [10], true, false, 0), F.FrameState(4, 0, [10], true, false, 0));
  }

  lemma Rolled_0x5()
    ensures [0, 0, 0, 0] + [0] == [0, 0, 0, 0, 0]
    ensures F.Roll(F.NewFrame(3), 0) == Success(F.FrameState(3, 10, [0], false, false, 0))
  {
    assert [] + [0] == [0];
  }

  lemma After_0x5()
    ensures |Play([0, 0, 0, 0, 0])| == 3 && Current(Play([0, 0, 0, 0, 0])) == F.FrameState(3, 10, [0], false, false, 0)
    ensures R.Flat(Play([0, 0, 0, 0, 0])) == [0, 0, 0, 0, 0]
  {
    After_0x4();
    Rolled_0x5();
    Advance([0, 0, 0, 0], 0, [0, 0, 0, 0, 0], F.FrameState(2, 10, [0, 0], false, false, 0), F.FrameState(3, 10, [0], false, false, 0));
  }

  lemma Rolled_5_5_1_3_10()
    ensures [5, 5, 1, 3] + [10] == [5, 5, 1, 3, 10]
    ensures F.Roll(F.NewFrame(3), 10) == Success(F.FrameState(3, 0, [10], true, false, 0))
  {
    assert [] + [10] == [10];
  }

  lemma After_5_5_1_3_10()
    ensures |Play([5, 5, 1, 3, 10])| == 3 && Current(Play([5, 5, 1, 3, 10])) == F.FrameState(3, 0, [10], true, false, 0)
    ensures R.Flat(Play([5, 5, 1, 3, 10])) == [5, 5, 1, 3, 10]
  {
    After_5_5_1_3();
    Rolled_5_5_1_3_10();
    Advance([5, 5, 1, 3], 10, [5, 5, 1, 3, 10], F.FrameState(2, 6, [1, 3], false, false, 0), F.FrameState(3, 0, [10], true, false, 0));
  }

  lemma Rolled_5_5_6_3_5()
    ensures [5, 5, 6, 3] + [5] == [5, 5, 6, 3, 5]
    ensures F.Roll(F.NewFrame(3), 5) == Success(F.FrameState(3, 5, [5], false, false, 0))
  {
    assert [] + [5] == [5];
  }

  lemma After_5_5_6_3_5()
    ensures |Play([5, 5, 6, 3, 5])| == 3 && Current(Play([5, 5, 6, 3, 5])) == F.FrameState(3, 5, [5], false, false, 0)
    ensures R.Flat(Play([5, 5, 6, 3, 5])) == [5, 5, 6, 3, 5]
  {
    After_5_5_6_3();
    Rolled_5_5_6_3_5();
    Advance([5, 5, 6, 3], 5, [5, 5, 6, 3, 5], F.FrameState(2, 1, [6, 3], false, false, 0), F.FrameState(3, 5, [5], false, false, 0));
  }

  lemma Rolled_10x5()
    ensures [10, 10, 10, 10] + [10] == [10, 10, 10, 10, 10]
    ensures F.Roll(F.NewFrame(5), 10) == Success(F.FrameState(5, 0, [10], true, false, 0))
  {
    assert [] + [10] == [10];
  }

  lemma After_10x5()
    ensures |Play([10, 10, 10, 10, 10])| == 5 && Current(Play([10, 10, 10, 10, 10])) == F.FrameState(5, 0, [10], true, false, 0)
    ensures R.Flat(Play([10, 10, 10, 10, 10])) == [10, 10, 10, 10, 10]
  {
    After_10x4();
    Rolled_10x5();
    Advance([10, 10, 10, 10], 10, [10, 10, 10, 10, 10], F.FrameState(4, 0, [10], true, false, 0), F.FrameState(5, 0, [10], true, false, 0));
  }

  lemma Rolled_0x6()
    ensures [0, 0, 0, 0, 0] + [0] == [0, 0, 0, 0, 0, 0]
    ensures F.Roll(F.FrameState(3, 10, [0], false, false, 0), 0) == Success(F.FrameState(3, 10, [0, 0], false, false, 0))
  {
    assert [0] + [0] == [0, 0];
  }

  lemma After_0x6()
    ensures |Play([0, 0, 0, 0, 0, 0])| == 3 && Current(Play([0, 0, 0, 0, 0, 0])) == F.FrameState(3, 10, [0, 0], false, false, 0)
    ensures R.Flat(Play([0, 0, 0, 0, 0, 0])) == [0, 0, 0, 0, 0, 0]
  {
    After_0x5();
    Rolled_0x6();
    Continue([0, 0, 0, 0, 0], 0, [0, 0, 0, 0, 0, 0], F.FrameState(3, 10, [0], false, false, 0), F.FrameState(3, 10, [0, 0], false, false, 0));
  }

  lemma Rolled_5_5_1_3_10_5()
    ensures [5, 5, 1, 3, 10] + [5] == [5, 5, 1, 3, 10, 5]
    ensures F.Roll(F.NewFrame(4), 5) == Success(F.FrameState(4, 5, [5], false, false, 0))
  {
    assert [] + [5] == [5];
  }

  lemma After_5_5_1_3_10_5()
    ensures |Play([5, 5, 1, 3, 10, 5])| == 4 && Current(Play([5, 5, 1, 3, 10, 5])) == F.FrameState(4, 5, [5], false, false, 0)
    ensures R.Flat(Play([5, 5, 1, 3, 10, 5])) == [5, 5, 1, 3, 10, 5]
  {
    After_5_5_1_3_10();
    Rolled_5_5_1_3_10_5();
    Advance([5, 5, 1, 3, 10], 5, [5, 5, 1, 3, 10, 5], F.FrameState(3, 0, [10], true, false, 0), F.FrameState(4, 5, [5], false, false, 0));
  }

  lemma Rolled_5_5_6_3_5_5()
    ensures [5, 5, 6, 3, 5] + [5] == [5, 5, 6, 3, 5, 5]
    ensures F.Roll(F.FrameState(3, 5, [5], false, false, 0), 5) == Success(F.FrameState(3, 0, [5, 5], false, true, 0))
  {
    assert [5] + [5] == [5, 5];
  }

  lemma After_5_5_6_3_5_5()
    ensures |Play([5, 5, 6, 3, 5, 5])| == 3 && Current(Play([5, 5, 6, 3, 5, 5])) == F.FrameState(3, 0, [5, 5], false, true, 0)
    ensures R.Flat(Play([5, 5, 6, 3, 5, 5])) == [5, 5, 6, 3, 5, 5]
  {
    After_5_5_6_3_5();
    Rolled_5_5_6_3_5_5();
    Continue([5, 5, 6, 3, 5], 5, [5, 5, 6, 3, 5, 5], F.FrameState(3, 5, [5], false, false, 0), F.FrameState(3, 0, [5, 5], false, true, 0));
  }

  lemma Rolled_10x6()
    ensures [10, 10, 10, 10, 10] + [10] == [10, 10, 10, 10, 10, 10]
    ensures F.Roll(F.NewFrame(6), 10) == Success(F.FrameState(6, 0, [10], true, false, 0))
  {
    assert [] + [10] == [10];
  }

  lemma After_10x6()
    ensures |Play([10, 10, 10, 10, 10, 10])| == 6 && Current(Play([10, 10, 10, 10, 10, 10])) == F.FrameState(6, 0, [10], true, false, 0)
    ensures R.Flat(Play([10, 10, 10, 10, 10, 10])) == [10, 10, 10, 10, 10, 10]
  {
    After_10x5();
    Rolled_10x6();
    Advance([10, 10, 10, 10, 10], 10, [10, 10, 10, 10, 10, 10], F.FrameState(5, 0, [10], true, false, 0), F.FrameState(6, 0, [10], true, false, 0));
  }

  lemma Rolled_0x7()
    ensures [0, 0, 0, 0, 0, 0] + [0] == [0, 0, 0, 0, 0, 0, 0]
    ensures F.Roll(F.NewFrame(4), 0) == Success(F.FrameState(4, 10, [0], false, false, 0))
  {
    assert [] + [0] == [0];
  }

  lemma After_0x7()
    ensures |Play([0, 0, 0, 0, 0, 0, 0])| == 4 && Current(Play([0, 0, 0, 0, 0, 0, 0])) == F.FrameState(4, 10, [0], false, false, 0)
    ensures R.Flat(Play([0, 0, 0, 0, 0, 0, 0])) == [0, 0, 0, 0, 0, 0, 0]
  {
    After_0x6();
    Rolled_0x7();
    Advance([0, 0, 0, 0, 0, 0], 0, [0, 0, 0, 0, 0, 0, 0], F.FrameState(3, 10, [0, 0], false, false, 0), F.FrameState(4, 10, [0], false, false, 0));
  }

  lemma Rolled_5_5_1_3_10_5_5()
    ensures [5, 5, 1, 3, 10, 5] + [5] == [5, 5, 1, 3, 10, 5, 5]
    ensures F.Roll(F.FrameState(4, 5, [5], false, false, 0), 5) == Success(F.FrameState(4, 0, [5, 5], false, true, 0))
  {
    assert [5] + [5] == [5, 5];
  }

  lemma After_5_5_1_3_10_5_5()
    ensures |Play([5, 5, 1, 3, 10, 5, 5])| == 4 && Current(Play([5, 5, 1, 3, 10, 5, 5])) == F.FrameState(4, 0, [5, 5], false, true, 0)
    ensures R.Flat(Play([5, 5, 1, 3, 10, 5, 5])) == [5, 5, 1, 3, 10, 5, 5]
  {
    After_5_5_1_3_10_5();
    Rolled_5_5_1_3_10_5_5();
    Continue([5, 5, 1, 3, 10, 5], 5, [5, 5, 1, 3, 10, 5, 5], F.FrameState(4, 5, [5], false, false, 0), F.FrameState(4, 0, [5, 5], false, true, 0));
  }

  lemma Rolled_5_5_6_3_5x3()
    ensures [5, 5, 6, 3, 5, 5] + [5] == [5, 5, 6, 3, 5, 5, 5]
    ensures F.Roll(F.NewFrame(4), 5) == Success(F.FrameState(4, 5, [5], false, false, 0))
  {
    assert [] + [5] == [5];
  }

  lemma After_5_5_6_3_5x3()
    ensures |Play([5, 5, 6, 3, 5, 5, 5])| == 4 && Current(Play([5, 5, 6, 3, 5, 5, 5])) == F.FrameState(4, 5, [5], false, false, 0)
    ensures R.Flat(Play([5, 5, 6, 3, 5, 5, 5])) == [5, 5, 6, 3, 5, 5, 5]
  {
    After_5_5_6_3_5_5();
    Rolled_5_5_6_3_5x3();
    Advance([5, 5, 6, 3, 5, 5], 5, [5, 5, 6, 3, 5, 5, 5], F.FrameState(3, 0, [5, 5], false, true, 0), F.FrameState(4, 5, [5], false, false, 0));
  }

  lemma Rolled_10x7()
    ensures [10, 10, 10, 10, 10, 10] + [10] == [10, 10, 10, 10, 10, 10, 10]
    ensures F.Roll(F.NewFrame(7), 10) == Success(F.FrameState(7, 0, [10], true, false, 0))
  {
    assert [] + [10] == [10];
  }

  lemma After_10x7()
    ensures |Play([10, 10, 10, 10, 10, 10, 10])| == 7 && Current(Play([10, 10, 10, 10, 10, 10, 10])) == F.FrameState(7, 0, [10], true, false, 0)
    ensures R.Flat(Play([10, 10, 10, 10, 10, 10, 10])) == [10, 10, 10, 10, 10, 10, 10]
  {
    After_10x6();
    Rolled_10x7();
    Advance([10, 10, 10, 10, 10, 10], 10, [10, 10, 10, 10, 10, 10, 10], F.FrameState(6, 0, [10], true, false, 0), F.FrameState(7, 0, [10], true, false, 0));
  }

  lemma Rolled_0x8()
    ensures [0, 0, 0, 0, 0, 0, 0] + [0] == [0, 0, 0, 0, 0, 0, 0, 0]
    ensures F.Roll(F.FrameState(4, 10, [0], false, false, 0), 0) == Success(F.FrameState(4, 10, [0, 0], false, false, 0))
  {
    assert [0] + [0] == [0, 0];
  }

  lemma After_0x8()
    ensures |Play([0, 0, 0, 0, 0, 0, 0, 0])| == 4 && Current(Play([0, 0, 0, 0, 0, 0, 0, 0])) == F.FrameState(4, 10, [0, 0], false, false, 0)
    ensures R.Flat(Play([0, 0, 0, 0, 0, 0, 0, 0])) == [0, 0, 0, 0, 0, 0, 0, 0]
  {
    After_0x7();
    Rolled_0x8();
    Continue([0, 0, 0, 0, 0, 0, 0], 0, [0, 0, 0, 0, 0, 0, 0, 0], F.FrameState(4, 10, [0], false, false, 0), F.FrameState(4, 10, [0, 0], false, false, 0));
  }

  lemma Rolled_5_5_6_3_5x4()
    ensures [5, 5, 6, 3, 5, 5, 5] + [5] == [5, 5, 6, 3, 5, 5, 5, 5]
    ensures F.Roll(F.FrameState(4, 5, [5], false, false, 0), 5) == Success(F.FrameState(4, 0, [5, 5], false, true, 0))
  {
    assert [5] + [5] == [5, 5];
  }

  lemma After_5_5_6_3_5x4()
    ensures |Play([5, 5, 6, 3, 5, 5, 5, 5])| == 4 && Current(Play([5, 5, 6, 3, 5, 5, 5, 5])) == F.FrameState(4, 0, [5, 5], false, true, 0)
    ensures R.Flat(Play([5, 5, 6, 3, 5, 5, 5, 5])) == [5, 5, 6, 3, 5, 5, 5, 5]
  {
    After_5_5_6_3_5x3();
    Rolled_5_5_6_3_5x4();
    Continue([5, 5, 6, 3, 5, 5, 5], 5, [5, 5, 6, 3, 5, 5, 5, 5], F.FrameState(4, 5, [5], false, false, 0), F.FrameState(4, 0, [5, 5], false, true, 0));
  }

  lemma Rolled_10x8()
    ensures [10, 10, 10, 10, 10, 10, 10] + [10] == [10, 10, 10, 10, 10, 10, 10, 10]
    ensures F.Roll(F.NewFrame(8), 10) == Success(F.FrameState(8, 0, [10], true, false, 0))
  {
    assert [] + [10] == [10];
  }

  lemma After_10x8()
    ensures |Play([10, 10, 10, 10, 10, 10, 10, 10])| == 8 && Current(Play([10, 10, 10, 10, 10, 10, 10, 10])) == F.FrameState(8, 0, [10], true, false, 0)
    ensures R.Flat(Play([10, 10, 10, 10, 10, 10, 10, 10])) == [10, 10, 10, 10, 10, 10, 10, 10]
  {
    After_10x7();
    Rolled_10x8();
    Advance([10, 10, 10, 10, 10, 10, 10], 10, [10, 10, 10, 10, 10, 10, 10, 10], F.FrameState(7, 0, [10], true, false, 0), F.FrameState(8, 0, [10], true, false, 0));
  }

  lemma Rolled_0x9()
    ensures [0, 0, 0, 0, 0, 0, 0, 0] + [0] == [0, 0, 0, 0, 0, 0, 0, 0, 0]
    ensures F.Roll(F.NewFrame(5), 0) == Success(F.FrameState(5, 10, [0], false, false, 0))
  {
    assert [] + [0] == [0];
  }

  lemma After_0x9()
    ensures |Play([0, 0, 0, 0, 0, 0, 0, 0, 0])| == 5 && Current(Play([0, 0, 0, 0, 0, 0, 0, 0, 0])) == F.FrameState(5, 10, [0], false, false, 0)
    ensures R.Flat(Play([0, 0, 0, 0, 0, 0, 0, 0, 0])) == [0, 0, 0, 0, 0, 0, 0, 0, 0]
  {
    After_0x8();
    Rolled_0x9();
    Advance([0, 0, 0, 0, 0, 0, 0, 0], 0, [0, 0, 0, 0, 0, 0, 0, 0, 0], F.FrameState(4, 10, [0, 0], false, false, 0), F.FrameState(5, 10, [0], false, false, 0));
  }

  lemma Rolled_10x9()
    ensures [10, 10, 10, 10, 10, 10, 10, 10] + [10] == [10, 10, 10, 10, 10, 10, 10, 10, 10]
    ensures F.Roll(F.NewFrame(9), 10) == Success(F.FrameState(9, 0, [10], true, false, 0))
  {
    assert [] + [10] == [10];
  }

  lemma After_10x9()
    ensures |Play([10, 10, 10, 10, 10, 10, 10, 10, 10])| == 9 && Current(Play([10, 10, 10, 10, 10, 10, 10, 10, 10])) == F.FrameState(9, 0, [10], true, false, 0)
    ensures R.Flat(Play([10, 10, 10, 10, 10, 10, 10, 10, 10])) == [10, 10, 10, 10, 10, 10, 10, 10, 10]
  {
    After_10x8();
    Rolled_10x9();
    Advance([10, 10, 10, 10, 10, 10, 10, 10], 10, [10, 10, 10, 10, 10, 10, 10, 10, 10], F.FrameState(8, 0, [10], true, false, 0), F.FrameState(9, 0, [10], true, false, 0));
  }

  lemma Rolled_0x9_5()
    ensures [0, 0, 0, 0, 0, 0, 0, 0, 0] + [5] == [0, 0, 0, 0, 0, 0, 0, 0, 0, 5]
    ensures F.Roll(F.FrameState(5, 10, [0], false, false, 0), 5) == Success(F.FrameState(5, 5, [0, 5], false, false, 0))
  {
    assert [0] + [5] == [0, 5];
  }

  lemma After_0x9_5()
    ensures |Play([0, 0, 0, 0, 0, 0, 0, 0, 0, 5])| == 5 && Current(Play([0, 0, 0, 0, 0, 0, 0, 0, 0, 5])) == F.FrameState(5, 5, [0, 5], false, false, 0)
    ensures R.Flat(Play([0, 0, 0, 0, 0, 0, 0, 0, 0, 5])) == [0, 0, 0, 0, 0, 0, 0, 0, 0, 5]
  {
    After_0x9();
    Rolled_0x9_5();
    Continue([0, 0, 0, 0, 0, 0, 0, 0, 0], 5, [0, 0, 0, 0, 0, 0, 0, 0, 0, 5], F.FrameState(5, 10, [0], false, false, 0), F.FrameState(5, 5, [0, 5], false, false, 0));
  }

  lemma Rolled_10x10()
    ensures [10, 10, 10, 10, 10, 10, 10, 10, 10] + [10] == [10, 10, 10, 10, 10, 10, 10, 10, 10, 10]
    ensures F.Roll(F.NewFrame(10), 10) == Success(F.FrameState(10, 10, [10], false, false, 0))
  {
    assert [] + [10] == [10];
  }

  lemma After_10x10()
    ensures |Play([10, 10, 10, 10, 10, 10, 10, 10, 10, 10])| == 10 && Current(Play([10, 10, 10, 10, 10, 10, 10, 10, 10, 10])) == F.FrameState(10, 10, [10], false, false, 0)
    ensures R.Flat(Play([10, 10, 10, 10, 10, 10, 10, 10, 10, 10])) == [10, 10, 10, 10, 10, 10, 10, 10, 10, 10]
  {
    After_10x9();
    Rolled_10x10();
    Advance([10, 10, 10, 10, 10, 10, 10, 10, 10], 10, [10, 10, 10, 10, 10, 10, 10, 10, 10, 10], F.FrameState(9, 0, [10], true, false, 0), F.FrameState(10, 10, [10], false, false, 0));
  }

  lemma Rolled_0x9_5_5()
    ensures [0, 0, 0, 0, 0, 0, 0, 0, 0, 5] + [5] == [0, 0, 0, 0, 0, 0, 0, 0, 0, 5, 5]
    ensures F.Roll(F.NewFrame(6), 5) == Success(F.FrameState(6, 5, [5], false, false, 0))
  {
    assert [] + [5] == [5];
  }

  lemma After_0x9_5_5()
    ensures |Play([0, 0, 0, 0, 0, 0, 0, 0, 0, 5, 5])| == 6 && Current(Play([0, 0, 0, 0, 0, 0, 0, 0, 0, 5, 5])) == F.FrameState(6, 5, [5], false, false, 0)
    ensures R.Flat(Play([0, 0, 0, 0, 0, 0, 0, 0, 0, 5, 5])) == [0, 0, 0, 0, 0, 0, 0, 0, 0, 5, 5]
  {
    After_0x9_5();
    Rolled_0x9_5_5();
    Advance([0, 0, 0, 0, 0, 0, 0, 0, 0, 5], 5, [0, 0, 0, 0, 0, 0, 0, 0, 0, 5, 5], F.FrameState(5, 5, [0, 5], false, false, 0), F.FrameState(6, 5, [5], false, false, 0));
  }

  lemma Rolled_10x11()
    ensures [10, 10, 10, 10, 10, 10, 10, 10, 10, 10] + [10] == [10, 10, 10, 10, 10, 10, 10, 10, 10, 10, 10]
    ensures F.Roll(F.FrameState(10, 10, [10], false, false, 0), 10) == Success(F.FrameState(10, 10, [10, 10], false, false, 0))
  {
    assert [10] + [10] == [10, 10];
  }

  lemma After_10x11()
    ensures |Play([10, 10, 10, 10, 10, 10, 10, 10, 10, 10, 10])| == 10 && Current(Play([10, 10, 10, 10, 10, 10, 10, 10, 10, 10, 10])) == F.FrameState(10, 10, [10, 10], false, false, 0)
    ensures R.Flat(Play([10, 10, 10, 10, 10, 10, 10, 10, 10, 10, 10])) == [10, 10, 10, 10, 10, 10, 10, 10, 10, 10, 10]
  {
    After_10x10();
    Rolled_10x11();
    Continue([10, 10, 10, 10, 10, 10, 10, 10, 10, 10], 10, [10, 10, 10, 10, 10, 10, 10, 10, 10, 10, 10], F.FrameState(10, 10, [10], false, false, 0), F.FrameState(10, 10, [10, 10], false, false, 0));
  }

  lemma Rolled_0x9_5_5_1()
    ensures [0, 0, 0, 0, 0, 0, 0, 0, 0, 5, 5] + [1] == [0, 0, 0, 0, 0, 0, 0, 0, 0, 5, 5, 1]
    ensures F.Roll(F.FrameState(6, 5, [5], false, false, 0), 1) == Success(F.FrameState(6, 4, [5, 1], false, false, 0))
  {
    assert [5] + [1] == [5, 1];
  }

  lemma After_0x9_5_5_1()
    ensures |Play([0, 0, 0, 0, 0, 0, 0, 0, 0, 5, 5, 1])| == 6 && Current(Play([0, 0, 0, 0, 0, 0, 0, 0, 0, 5, 5, 1])) == F.FrameState(6, 4, [5, 1], false, false, 0)
    ensures R.Flat(Play([0, 0, 0, 0, 0, 0, 0, 0, 0, 5, 5, 1])) == [0, 0, 0, 0, 0, 0, 0, 0, 0, 5, 5, 1]
  {
    After_0x9_5_5();
    Rolled_0x9_5_5_1();
    Continue([0, 0, 0, 0, 0, 0, 0, 0, 0, 5, 5], 1, [0, 0, 0, 0, 0, 0, 0, 0, 0, 5, 5, 1], F.FrameState(6, 5, [5], false, false, 0), F.FrameState(6, 4, [5, 1], false, false, 0));
  }

  lemma Rolled_10x12()
    ensures [10, 10, 10, 10, 10, 10, 10, 10, 10, 10, 10] + [10] == [10, 10, 10, 10, 10, 10, 10, 10, 10, 10, 10, 10]
    ensures F.Roll(F.FrameState(10, 10, [10, 10], false, false, 0), 10) == Success(F.FrameState(10, 0, [10, 10, 10], false, false, 0))
  {
    assert [10, 10] + [10] == [10, 10, 10];
  }

  lemma After_10x12()
    ensures |Play([10, 10, 10, 10, 10, 10, 10, 10, 10, 10, 10, 10])| == 10 && Current(Play([10, 10, 10, 10, 10, 10, 10, 10, 10, 10, 10, 10])) == F.FrameState(10, 0, [10, 10, 10], false, false, 0)
    ensures R.Flat(Play([10, 10, 10, 10, 10, 10, 10, 10, 10, 10, 10, 10])) == [10, 10, 10, 10, 10, 10, 10, 10, 10, 10, 10, 10]
  {
    After_10x11();
    Rolled_10x12();
    Continue([10, 10, 10, 10, 10, 10, 10, 10, 10, 10, 10], 10, [10, 10, 10, 10, 10, 10, 10, 10, 10, 10, 10, 10], F.FrameState(10, 10, [10, 10], false, false, 0), F.FrameState(10, 0, [10, 10, 10], false, false, 0));
  }

  lemma Score_1_5()
    ensures R.FlatScore([1, 5], 1) == 6
  {
  }

  lemma Total_1_5()
    ensures G.TotalScore(Play([1, 5])) == 6
  {
    After_1_5();
    TotalWhenFinished([1, 5]);
    Score_1_5();
  }

  lemma Score_5_5()
    ensures R.FlatScore([5, 5], 1) == 10
  {
  }

  lemma Total_5_5()
    ensures G.TotalScore(Play([5, 5])) == 10
  {
    After_5_5();
    TotalWhenFinished([5, 5]);
    Score_5_5();
  }

  lemma Score_5_5_6_3()
    ensures R.FlatScore([5, 5, 6, 3], 1) == 25
  {
  }

  lemma Total_5_5_6_3()
    ensures G.TotalScore(Play([5, 5, 6, 3])) == 25
  {
    After_5_5_6_3();
    TotalWhenFinished([5, 5, 6, 3]);
    Score_5_5_6_3();
  }

  lemma Score_5_5_6_3_5_5()
    ensures R.FlatScore([5, 5, 6, 3, 5, 5], 1) == 35
  {
  }

  lemma Total_5_5_6_3_5_5()
    ensures G.TotalScore(Play([5, 5, 6, 3, 5, 5])) == 35
  {
    After_5_5_6_3_5_5();
    TotalWhenFinished([5, 5, 6, 3, 5, 5]);
    Score_5_5_6_3_5_5();
  }

  lemma Score_5_5_6_3_5x4()
    ensures R.FlatScore([5, 5, 6, 3, 5, 5, 5, 5], 1) == 50
  {
  }

  lemma Total_5_5_6_3_5x4()
    ensures G.TotalScore(Play([5, 5, 6, 3, 5, 5, 5, 5])) == 50
  {
    After_5_5_6_3_5x4();
    TotalWhenFinished([5, 5, 6, 3, 5, 5, 5, 5]);
    Score_5_5_6_3_5x4();
  }

  lemma Score_10()
    ensures R.FlatScore([10], 1) == 10
  {
  }

  lemma Total_10()
    ensures G.TotalScore(Play([10])) == 10
  {
    After_10();
    TotalWhenFinished([10]);
    Score_10();
  }

  lemma Score_10_6_4()
    ensures R.FlatScore([10, 6, 4], 1) == 30
  {
  }

  lemma Total_10_6_4()
    ensures G.TotalScore(Play([10, 6, 4])) == 30
  {
    After_10_6_4();
    TotalWhenFinished([10, 6, 4]);
    Score_10_6_4();
  }

  lemma Score_5_5_1_3()
    ensures R.FlatScore([5, 5, 1, 3], 1) == 15
  {
  }

  lemma Total_5_5_1_3()
    ensures G.TotalScore(Play([5, 5, 1, 3])) == 15
  {
    After_5_5_1_3();
    TotalWhenFinished([5, 5, 1, 3]);
    Score_5_5_1_3();
  }

  lemma Score_5_5_1_3_10_5_5()
    ensures R.FlatScore([5, 5, 1, 3, 10, 5, 5], 1) == 45
  {
  }

  lemma Total_5_5_1_3_10_5_5()
    ensures G.TotalScore(Play([5, 5, 1, 3, 10, 5, 5])) == 45
  {
    After_5_5_1_3_10_5_5();
    TotalWhenFinished([5, 5, 1, 3, 10, 5, 5]);
    Score_5_5_1_3_10_5_5();
  }

  /** The literal list split in two, as a step for the solver. */
  lemma Cat_0x8_0()
    ensures [0, 0, 0, 0, 0, 0, 0, 0] + [0] == [0, 0, 0, 0, 0, 0, 0, 0, 0]
  {
  }

  lemma Score_0x8()
    ensures R.FlatScore([0, 0, 0, 0, 0, 0, 0, 0], 1) == 0
  {
    assert [0, 0, 0, 0, 0, 0, 0, 0] == Repeat(8, 0) + [];
    ZeroFramesScore(4, [], 1);
  }

  lemma Open_0x9()
    ensures !F.Finished(Current(Play([0, 0, 0, 0, 0, 0, 0, 0, 0])))
    ensures Current(Play([0, 0, 0, 0, 0, 0, 0, 0, 0])).rolls == [0]
    ensures R.Flat(Play([0, 0, 0, 0, 0, 0, 0, 0, 0])) == [0, 0, 0, 0, 0, 0, 0, 0] + Current(Play([0, 0, 0, 0, 0, 0, 0, 0, 0])).rolls
  {
    After_0x9();
    Cat_0x8_0();
  }

  lemma Total_0x9()
    ensures G.TotalScore(Play([0, 0, 0, 0, 0, 0, 0, 0, 0])) == 0
  {
    Open_0x9();
    TotalWhenOpen([0, 0, 0, 0, 0, 0, 0, 0, 0], [0, 0, 0, 0, 0, 0, 0, 0]);
    Score_0x8();
    R.SumSingle(0);
  }

  /** The literal list split in two, as a step for the solver. */
  lemma Cat_0x9_5_5()
    ensures [0, 0, 0, 0, 0, 0, 0, 0, 0, 5] + [5] == [0, 0, 0, 0, 0, 0, 0, 0, 0, 5, 5]
  {
  }

  lemma Score_0x9_5()
    ensures R.FlatScore([0, 0, 0, 0, 0, 0, 0, 0, 0, 5], 1) == 5
  {
    assert [0, 0, 0, 0, 0, 0, 0, 0, 0, 5] == Repeat(8, 0) + [0, 5];
    ZeroFramesScore(4, [0, 5], 1);
  }

  lemma Total_0x9_5_5()
    ensures G.TotalScore(Play([0, 0, 0, 0, 0, 0, 0, 0, 0, 5, 5])) == 10
  {
    After_0x9_5_5();
    Cat_0x9_5_5();
    TotalWhenOpen([0, 0, 0, 0, 0, 0, 0, 0, 0, 5, 5], [0, 0, 0, 0, 0, 0, 0, 0, 0, 5]);
    Score_0x9_5();
  }

  lemma Score_0_5_5_1()
    ensures R.FlatScore([0, 5, 5, 1], 5) == 11
  {
    assert [0, 5, 5, 1] == [0, 5] + [5, 1];
    R.PairStep(0, 5, [5, 1], 5);
    assert [5, 1] == [5, 1] + [];
    R.PairStep(5, 1, [], 6);
  }

  lemma Score_0x9_5_5_1()
    ensures R.FlatScore([0, 0, 0, 0, 0, 0, 0, 0, 0, 5, 5, 1], 1) == 11
  {
    assert [0, 0, 0, 0, 0, 0, 0, 0, 0, 5, 5, 1] == Repeat(8, 0) + [0, 5, 5, 1];
    ZeroFramesScore(4, [0, 5, 5, 1], 1);
    Score_0_5_5_1();
  }

  lemma Total_0x9_5_5_1()
    ensures G.TotalScore(Play([0, 0, 0, 0, 0, 0, 0, 0, 0, 5, 5, 1])) == 11
  {
    After_0x9_5_5_1();
    TotalWhenFinished([0, 0, 0, 0, 0, 0, 0, 0, 0, 5, 5, 1]);
    Score_0x9_5_5_1();
  }

  lemma Score_10x12()
    ensures R.FlatScore([10, 10, 10, 10, 10, 10, 10, 10, 10, 10, 10, 10], 1) == 300
  {
    assert [10, 10, 10, 10, 10, 10, 10, 10, 10, 10, 10, 10] == Repeat(12, F.MaxPins);
    StrikesScore(1);
  }

  lemma Finished_10x12()
    ensures F.Finished(Current(Play([10, 10, 10, 10, 10, 10, 10, 10, 10, 10, 10, 10])))
  {
    After_10x12();
  }

  lemma Flat_10x12()
    ensures R.Flat(Play([10, 10, 10, 10, 10, 10, 10, 10, 10, 10, 10, 10])) == [10, 10, 10, 10, 10, 10, 10, 10, 10, 10, 10, 10]
  {
    After_10x12();
  }

  lemma Total_10x12()
    ensures G.TotalScore(Play([10, 10, 10, 10, 10, 10, 10, 10, 10, 10, 10, 10])) == 300
  {
    Finished_10x12();
    TotalWhenFinished([10, 10, 10, 10, 10, 10, 10, 10, 10, 10, 10, 10]);
    Flat_10x12();
    Score_10x12();
  }
}
