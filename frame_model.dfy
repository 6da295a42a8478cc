/**
 * The state machine of one bowling frame (`VDGameFrame` in js/game.js), as values.
 *
 * A frame keeps the pins still standing, the rolls taken so far, a strike flag,
 * a spare flag and the bonus that the game adds later.  Frames 1 to 9 end after
 * a strike or two rolls; the tenth frame re-racks after a cleared first or second
 * roll and always takes three rolls.
 */
module FrameModel {
  import opened Wrappers

  /** Pins in a full rack. */
  const MaxPins := 10
  /** Index of the last frame of a game. */
  const LastIndex := 10

  type FrameIndex = i: int | 1 <= i <= LastIndex witness 1

  datatype FrameState = FrameState(
    index: FrameIndex,
    leftPins: int,
    rolls: seq<int>,
    strike: bool,
    spare: bool,
    bonus: int)

  /** The only error a roll can raise: the pin count is outside 0..maxPins. */
  datatype RollError = OutOfRange(maxPins: int)

  /** The roll limit of a frame: three in the tenth frame, two elsewhere. */
  function MaxRolls(index: FrameIndex): nat {
    if index == LastIndex then 3 else 2
  }

  /** The sum of a sequence, accumulated left to right as `reduce` does. */
  function Sum(s: seq<int>): int {
    if s == [] then 0 else Sum(s[..|s| - 1]) + s[|s| - 1]
  }

  /** A freshly created frame. */
  function NewFrame(index: FrameIndex): (f: FrameState)
    ensures Inv(f) && !Finished(f)
    ensures f.index == index && f.rolls == [] && f.leftPins == MaxPins && f.bonus == 0
  {
    FrameState(index, MaxPins, [], false, false, 0)
  }

  predicate Finished(f: FrameState) {
    f.strike || MaxRolls(f.index) == |f.rolls|
  }

  predicate HadBonus(f: FrameState) {
    f.bonus != 0
  }

  /** Pins knocked down in this frame plus the bonus earned so far. */
  function Total(f: FrameState): int {
    Sum(f.rolls) + f.bonus
  }

  function AddBonus(f: FrameState, points: int): FrameState {
    f.(bonus := f.bonus + points)
  }

  /** The n-th roll (1-based), absent when it has not been taken. */
  function RollAt(f: FrameState, n: int): (r: Option<int>)
    ensures r.Some? <==> 1 <= n <= |f.rolls|
    ensures r.Some? ==> r.value == f.rolls[n - 1]
  {
    if 1 <= n <= |f.rolls| then Some(f.rolls[n - 1]) else None
  }

  /**
   * One roll of `pins`.  The range check comes first, so a finished frame still
   * rejects an out-of-range count; an in-range roll on a finished frame is ignored.
   */
  function Roll(f: FrameState, pins: int): (r: Result<FrameState, RollError>)
    ensures r.Failure? <==> pins < 0 || pins > f.leftPins
    ensures r.Failure? ==> r.error == OutOfRange(f.leftPins)
    ensures r.Success? && Finished(f) ==> r.value == f
    ensures r.Success? && !Finished(f) ==>
      r.value.index == f.index && r.value.rolls == f.rolls + [pins] && r.value.bonus == f.bonus
  {
    if pins > f.leftPins || pins < 0 then
      Failure(OutOfRange(f.leftPins))
    else if Finished(f) then
      Success(f)
    else
      var doneRolls := |f.rolls| + 1;
      var left0 := f.leftPins - pins;
      var cleared1 := doneRolls == 1 && left0 == 0;
      var strike := if cleared1 && f.index < LastIndex then true else f.strike;
      var left1 := if cleared1 && f.index == LastIndex then left0 + MaxPins else left0;
      var cleared2 := doneRolls == 2 && left1 == 0;
      var spare := if cleared2 && f.index < LastIndex then true else f.spare;
      var left2 := if cleared2 && f.index == LastIndex then left1 + MaxPins else left1;
      Success(f.(leftPins := left2, rolls := f.rolls + [pins], strike := strike, spare := spare))
  }

  /**
   * Pins standing in the tenth frame after the given rolls: a rack cleared by
   * the first or the second roll is set up again.
   */
  function TenthStanding(rolls: seq<int>): int {
    if rolls == [] then MaxPins
    else
      var left := TenthStanding(rolls[..|rolls| - 1]) - rolls[|rolls| - 1];
      if |rolls| <= 2 && left == 0 then MaxPins else left
  }

  /** Every roll of the tenth frame knocked down at most the pins then standing. */
  ghost predicate TenthRollsValid(rolls: seq<int>) {
    rolls == [] ||
    var prefix := rolls[..|rolls| - 1];
    TenthRollsValid(prefix) && 0 <= rolls[|rolls| - 1] <= TenthStanding(prefix)
  }

  /**
   * The states a frame can reach from NewFrame by accepted rolls, described
   * by the roll values alone.  The bonus is the game's business and is not
   * constrained here.
   */
  ghost predicate Inv(f: FrameState) {
    if f.index < LastIndex then
      |f.rolls| <= 2 &&
      (forall k :: 0 <= k < |f.rolls| ==> 0 <= f.rolls[k]) &&
      Sum(f.rolls) <= MaxPins && f.leftPins == MaxPins - Sum(f.rolls) &&
      (f.strike <==> |f.rolls| >= 1 && f.rolls[0] == MaxPins) &&
      (f.strike ==> |f.rolls| == 1) &&
      (f.spare <==> |f.rolls| == 2 && Sum(f.rolls) == MaxPins)
    else
      !f.strike && !f.spare && |f.rolls| <= 3 &&
      TenthRollsValid(f.rolls) && f.leftPins == TenthStanding(f.rolls)
  }

  /** Appending a roll adds it to the sum. */
  lemma SumAppend(s: seq<int>, x: int)
    ensures Sum(s + [x]) == Sum(s) + x
  {
    assert (s + [x])[..|s|] == s;
  }

  /** A sum of non-negative values is non-negative. */
  lemma {:induction false} SumNonNegative(s: seq<int>)
    requires forall k :: 0 <= k < |s| ==> 0 <= s[k]
    ensures 0 <= Sum(s)
  {
    if s != [] {
      SumNonNegative(s[..|s| - 1]);
    }
  }

  /** An accepted roll keeps a reachable frame reachable. */
  lemma RollPreservesInv(f: FrameState, pins: int)
    requires Inv(f)
    requires Roll(f, pins).Success?
    ensures Inv(Roll(f, pins).value)
  {
    if !Finished(f) {
      if f.index < LastIndex {
        RollPreservesInvEarly(f, pins);
      } else {
        RollPreservesInvTenth(f, pins);
      }
    }
  }

  lemma RollPreservesInvEarly(f: FrameState, pins: int)
    requires Inv(f) && f.index < LastIndex && !Finished(f)
    requires 0 <= pins <= f.leftPins
    ensures Inv(Roll(f, pins).value)
  {
    var g := Roll(f, pins).value;
    SumAppend(f.rolls, pins);
    assert g.rolls == f.rolls + [pins];
    if |f.rolls| == 1 {
      assert g.rolls[0] == f.rolls[0];
    }
  }

  lemma RollPreservesInvTenth(f: FrameState, pins: int)
    requires Inv(f) && f.index == LastIndex && !Finished(f)
    requires 0 <= pins <= f.leftPins
    ensures Inv(Roll(f, pins).value)
  {
    var g := Roll(f, pins).value;
    var rolls := f.rolls + [pins];
    assert rolls[..|rolls| - 1] == f.rolls;
    assert g == f.(leftPins := TenthStanding(rolls), rolls := rolls);
    TenthRollsExtend(f.rolls, pins);
  }

  lemma TenthRollsExtend(rolls: seq<int>, pins: int)
    requires TenthRollsValid(rolls)
    requires 0 <= pins <= TenthStanding(rolls)
    ensures TenthRollsValid(rolls + [pins])
  {
    assert (rolls + [pins])[..|rolls|] == rolls;
  }

  /** The tenth frame never has a negative count standing, and before its third roll at least one pin. */
  lemma {:induction false} TenthStandingBounds(rolls: seq<int>)
    requires TenthRollsValid(rolls)
    ensures 0 <= TenthStanding(rolls) <= MaxPins
    ensures |rolls| < 3 ==> 1 <= TenthStanding(rolls)
  {
    if rolls != [] {
      TenthStandingBounds(rolls[..|rolls| - 1]);
    }
  }

  /** In every reachable frame the pins standing lie in 0..10, and an unfinished frame has some standing. */
  lemma LeftPinsInRange(f: FrameState)
    requires Inv(f)
    ensures 0 <= f.leftPins <= MaxPins
    ensures !Finished(f) ==> 1 <= f.leftPins
  {
    if f.index == LastIndex {
      TenthStandingBounds(f.rolls);
    } else {
      SumNonNegative(f.rolls);
      SumShort(f.rolls);
    }
  }

  /** Every roll of a tenth frame lies in 0..10. */
  lemma {:induction false} TenthRollsInRange(rolls: seq<int>)
    requires TenthRollsValid(rolls)
    ensures forall k :: 0 <= k < |rolls| ==> 0 <= rolls[k] <= MaxPins
  {
    if rolls != [] {
      var prefix := rolls[..|rolls| - 1];
      TenthRollsInRange(prefix);
      TenthStandingBounds(prefix);
      forall k | 0 <= k < |rolls| ensures 0 <= rolls[k] <= MaxPins {
        if k < |prefix| {
          assert rolls[k] == prefix[k];
        }
      }
    }
  }

  /** Every roll recorded in a reachable frame knocked down between 0 and 10 pins. */
  lemma RollsInRange(f: FrameState)
    requires Inv(f)
    ensures forall k :: 0 <= k < |f.rolls| ==> 0 <= f.rolls[k] <= MaxPins
  {
    if f.index == LastIndex {
      TenthRollsInRange(f.rolls);
    } else {
      SumShort(f.rolls);
    }
  }

  /** The sum of one or two rolls, written out. */
  lemma SumShort(s: seq<int>)
    ensures |s| == 1 ==> Sum(s) == s[0]
    ensures |s| == 2 ==> Sum(s) == s[0] + s[1]
  {
    if |s| == 2 {
      assert s[..1] == [s[0]];
      assert [s[0]][..0] == [];
    } else if |s| == 1 {
      assert s[..0] == [];
    }
  }

  /**
   * Frames one to nine: finished exactly after a first roll of 10 or after two
   * rolls; the strike flag means a first roll of 10, the spare flag two rolls
   * clearing the rack, and the two never hold together.
   */
  lemma EarlyFrameFlags(f: FrameState)
    requires Inv(f) && f.index < LastIndex
    ensures Finished(f) <==> (|f.rolls| == 1 && f.rolls[0] == MaxPins) || |f.rolls| == 2
    ensures f.strike <==> |f.rolls| >= 1 && f.rolls[0] == MaxPins
    ensures f.spare <==> |f.rolls| == 2 && f.rolls[0] + f.rolls[1] == MaxPins
    ensures !(f.strike && f.spare)
  {
    SumShort(f.rolls);
  }

  /** A reachable strike frame holds the one roll of ten. */
  lemma StrikeRoll(f: FrameState)
    requires Inv(f) && f.strike
    ensures f.index < LastIndex && f.rolls == [MaxPins]
  {
  }

  /** The tenth frame: finished exactly after three rolls, and never flagged strike or spare. */
  lemma TenthFrameFlags(f: FrameState)
    requires Inv(f) && f.index == LastIndex
    ensures Finished(f) <==> |f.rolls| == 3
    ensures !f.strike && !f.spare
  {
  }

  /**
   * What `getRollByIndex` sees after an accepted roll in an unfinished frame:
   * the earlier rolls where they were, the new pins as the next roll, nothing
   * beyond it.
   */
  lemma RollRecordsPins(f: FrameState, pins: int)
    requires !Finished(f) && 0 <= pins <= f.leftPins
    ensures var g := Roll(f, pins).value;
      (forall n :: 1 <= n <= |f.rolls| ==> RollAt(g, n) == RollAt(f, n)) &&
      RollAt(g, |f.rolls| + 1) == Some(pins) &&
      RollAt(g, |f.rolls| + 2) == None
  {
  }

  /**
   * An accepted roll in an unfinished frame one to nine: the pins are taken
   * off the rack, a 10 on the first roll is a strike and clearing the rack
   * with the second a spare.
   */
  lemma EarlyRoll(f: FrameState, pins: int)
    requires Inv(f) && f.index < LastIndex && !Finished(f) && 0 <= pins <= f.leftPins
    ensures var g := Roll(f, pins).value;
      g.leftPins == f.leftPins - pins &&
      (g.strike <==> f.rolls == [] && pins == MaxPins) &&
      (g.spare <==> |f.rolls| == 1 && pins == f.leftPins) &&
      Finished(g) == (g.strike || |f.rolls| == 1)
  {
  }

  /**
   * An accepted roll in an unfinished tenth frame: clearing the rack with the
   * first or second roll sets up ten pins again; no flag is ever set.
   */
  lemma TenthRoll(f: FrameState, pins: int)
    requires Inv(f) && f.index == LastIndex && !Finished(f) && 0 <= pins <= f.leftPins
    ensures var g := Roll(f, pins).value;
      g.leftPins == (if |f.rolls| < 2 && pins == f.leftPins then MaxPins else f.leftPins - pins) &&
      !g.strike && !g.spare &&
      (Finished(g) <==> |f.rolls| == 2)
  {
  }
}
