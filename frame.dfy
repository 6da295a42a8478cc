/**
 * The frame object of js/game.js: `VDGameFrame(index)` keeps its state in
 * closure variables that `roll` and `addBonus` update in place.
 */
module BowlingFrame {
  import opened Wrappers
  import F = FrameModel

  class Frame {
    const index: F.FrameIndex
    const maxRolls: nat := if index == F.LastIndex then 3 else 2
    var leftPins: int
    var rolls: seq<int>
    var spare: bool
    var strike: bool
    var bonus: int

    /** The value this object currently holds. */
    function State(): F.FrameState
      reads this
    {
      F.FrameState(index, leftPins, rolls, strike, spare, bonus)
    }

    ghost predicate Valid()
      reads this
    {
      F.Inv(State())
    }

    constructor (index: F.FrameIndex)
      ensures Valid() && State() == F.NewFrame(index)
    {
      this.index := index;
      leftPins := F.MaxPins;
      rolls := [];
      spare := false;
      strike := false;
      bonus := 0;
    }

    function IsFinished(): (b: bool)
      reads this
      ensures b == F.Finished(State())
    {
      strike || maxRolls == |rolls|
    }

    function IsStrike(): bool
      reads this
    {
      strike
    }

    function IsSpare(): bool
      reads this
    {
      spare
    }

    /** `getTotalScore`: the rolls added up, plus the bonus. */
    function GetTotalScore(): int
      reads this
    {
      F.Sum(rolls) + bonus
    }

    function HadBonus(): bool
      reads this
    {
      bonus != 0
    }

    function GetRollByIndex(n: int): Option<int>
      reads this
    {
      F.RollAt(State(), n)
    }

    function GetLeftPins(): int
      reads this
    {
      leftPins
    }

    function GetIndex(): F.FrameIndex
      reads this
    {
      index
    }

    method AddBonus(points: int)
      modifies this
      ensures State() == F.AddBonus(old(State()), points)
    {
      bonus := bonus + points;
    }

    /** Rolls `pins`; a count outside 0..leftPins is rejected before anything changes. */
    method Roll(pins: int) returns (r: Outcome<F.RollError>)
      requires Valid()
      modifies this
      ensures Valid()
      ensures match F.Roll(old(State()), pins)
        case Failure(e) => r == Fail(e) && State() == old(State())
        case Success(next) => r == Pass && State() == next
    {
      if pins > leftPins || pins < 0 {
        return Fail(F.OutOfRange(leftPins));
      }
      if IsFinished() {
        return Pass;
      }
      ghost var next := F.Roll(State(), pins).value;
      leftPins := leftPins - pins;
      var doneRolls := |rolls| + 1;
      if doneRolls == 1 && leftPins == 0 {
        if index < F.LastIndex {
          strike := true;
        } else {
          leftPins := leftPins + F.MaxPins;
        }
      }
      if doneRolls == 2 && leftPins == 0 {
        if index < F.LastIndex {
          spare := true;
        } else {
          leftPins := leftPins + F.MaxPins;
        }
      }
      rolls := rolls + [pins];
      assert State() == next;
      F.RollPreservesInv(old(State()), pins);
      r := Pass;
    }
  }
}
