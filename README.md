# Bowling game scoring engine, in Dafny

This is a model of the scoring engine in `js/game.js` of the bowling-game project, with proofs about it. The engine has two closures:

- **`VDGameFrame(index)`** is one frame. It tracks:
  - the pins still standing (`leftPins`);
  - the rolls taken;
  - a strike flag and a spare flag;
  - the bonus that the game adds later.

  `roll(pins)` does the following, in this order:
  - It rejects a count outside `0..leftPins`.
  - It ignores a roll once the frame is finished.
  - Otherwise it takes the pins off the rack.
  - In frames one to nine it marks a strike or a spare. In the tenth frame it sets up ten pins again after a cleared first or second roll.
  - It records the roll.

  Frames one to nine end after a strike or two rolls. The tenth frame ends after three rolls.
- **`VDGame()`** is a game: a list of up to ten frames, where the current frame is the last one. `roll(pins)` does three things:
  - It first appends the next frame if the current one is finished.
  - It then hands the pins to the current frame.
  - Once that frame is finished, it scans every frame that has no bonus yet, and adds the strike or spare bonus whose look-ahead rolls exist.

  `getTotalScore` adds the frame totals. `getFrame(k)` returns frame k, or the current frame when k ≤ 0.

The model has four layers:

- **Values.**
  - `FrameModel` models a frame as a datatype, with `Roll` as a function that returns a `Result`.
  - `GameModel` models a game as a sequence of frame states. It has one function per private and public method of `VDGame`.
  - `GameModel.Roll` returns the new frames together with the outcome, `Pass` or `Fail(OutOfRange(leftPins))`. The failure stands for the exception `roll` throws.
- **Objects.**
  - `BowlingFrame.Frame` and `BowlingGame.Game` are classes with the closures' variables as fields.
  - Their methods update those fields in the same order as the JavaScript. Each one is proved to take the state to what the value-level function gives for the old state.
  - `Game.ForEachFrame` is the `forEach` loop, with its loop invariant.
- **Reference scorer.** `ReferenceScore.FlatScore` scores the flat list of rolls with the usual strike and spare rules. It uses the code's own tenth-frame rule: whatever rolls are left, all added up.
  - While the current frame is finished, the game total is proved equal to it.
  - While the current frame is open, the game total is proved equal to the reference score of the earlier rolls plus the current frame's pins.
- **Replays.**
  - `Replay.Play` replays a list of rolls from a new game.
  - `Scenarios` states, as lemmas on those replays, the expectations of every case in `test/game.spec.js`.

The game invariant `GameModel.Inv` describes every state the game can reach:

- the frames are laid out in order;
- every frame is a state the frame can reach;
- every settled frame holds exactly the bonus it is owed, and a bonus whose look-ahead rolls are missing is still 0.

Four behaviours of `js/game.js` that the model keeps as written:

- The tenth frame always takes three rolls (`maxRolls` is 3 there and the strike flag is never set), so even an open tenth frame takes a third roll, unlike the usual bowling rules.
- `getFrame` past the last frame returns `undefined`, modelled as `None`.
- The game moves to the next frame lazily: `nextFrame` runs at the start of the next roll, not at the end of the roll that finishes a frame.
- A roll that throws after that advance leaves the new, empty frame in the game.

## Model

| member | source | states |
|---|---|---|
| FrameModel.NewFrame | js/game.js:101-109 | a new frame has ten pins standing, no rolls, no flags and bonus 0; it is reachable and not finished |
| FrameModel.RollRecordsPins | js/game.js:141-143 | after an accepted roll in an unfinished frame, `getRollByIndex` finds the earlier rolls where they were, the new pins as the next roll, and nothing beyond |
| FrameModel.Roll | js/game.js:153-182 | fails exactly when pins < 0 or pins > leftPins, with that leftPins in the error; an in-range roll leaves a finished frame as it was and otherwise appends the pins to the rolls, keeping index and bonus |
| FrameModel.RollPreservesInv | js/game.js:153-182 | an accepted roll takes a reachable frame to a reachable frame |
| FrameModel.EarlyFrameFlags | js/game.js:113-115 | in frames one to nine, reachable: finished iff a first roll of 10 or two rolls; strike iff the first roll is 10; spare iff two rolls summing to 10; never both |
| FrameModel.StrikeRoll | js/game.js:166-172 | a reachable frame flagged strike is one of frames one to nine and holds the single roll 10 |
| FrameModel.TenthFrameFlags | js/game.js:104-115 | in the tenth frame, reachable: finished iff three rolls; strike and spare never set |
| FrameModel.EarlyRoll | js/game.js:163-181 | an accepted roll in an unfinished early frame lowers leftPins by the pins; strike iff 10 on the first roll; spare iff the second roll clears the rack; finished afterwards iff strike or second roll |
| FrameModel.TenthRoll | js/game.js:163-181 | an accepted roll in an unfinished tenth frame re-racks to 10 when the first or second roll clears the rack, else lowers leftPins by the pins; sets no flag; finished afterwards iff it was the third roll |
| FrameModel.TenthStandingBounds | js/game.js:163-179 | the pins standing in the tenth frame lie in 0..10, and in 1..10 before the third roll |
| FrameModel.LeftPinsInRange | js/game.js:104-181 | in every reachable frame 0 ≤ leftPins ≤ 10, and an unfinished frame has at least one pin standing |
| FrameModel.TenthRollsInRange | js/game.js:156-181 | every accepted roll of the tenth frame lies in 0..10 |
| FrameModel.RollsInRange | js/game.js:156-181 | every roll recorded in a reachable frame lies in 0..10 |
| FrameModel.SumAppend | js/game.js:125-131 | appending a roll adds it to the frame's pin count |
| BowlingFrame.Frame.constructor | js/game.js:101-109 | the new object is valid and its state is NewFrame(index) |
| BowlingFrame.Frame.IsFinished | js/game.js:113-115 | agrees with FrameModel.Finished on the object's state |
| BowlingFrame.Frame.AddBonus | js/game.js:133-135 | the new state is the old one with the points added to the bonus |
| BowlingFrame.Frame.Roll | js/game.js:153-182 | the object stays valid; on failure its state is unchanged and the outcome carries OutOfRange(leftPins); on success its state is FrameModel.Roll of the old state |
| GameModel.NewGame | js/game.js:7-9 | a new game is one fresh frame with index 1, laid out as a game |
| GameModel.NextFrame | js/game.js:14-20 | appends NewFrame(n+1) exactly when the current frame is finished and fewer than ten frames exist; earlier frames unchanged |
| GameModel.NextFrameAppends | js/game.js:14-20 | after a finished frame, before the tenth, the result is the frames plus the next fresh frame |
| GameModel.SpareBonus | js/game.js:22-31 | a spare bonus is available exactly when the next frame exists |
| GameModel.StrikeBonus | js/game.js:33-58 | a strike bonus is available exactly when the next frame exists and, if it is a strike, so does the frame after it |
| GameModel.CheckSpareBonus | js/game.js:22-31 | only frame i changes, and only its bonus, by the spare bonus when it is available |
| GameModel.CheckStrikeBonus | js/game.js:33-58 | only frame i changes, and only its bonus, by the strike bonus when it is available |
| GameModel.ScanFrame | js/game.js:65-75 | a frame that already has a bonus is skipped; otherwise only its bonus changes, by what it is owed |
| GameModel.ScanFrom | js/game.js:65-75 | the scan changes bonuses only, and leaves frames already passed and frames with a bonus as they were |
| GameModel.FinishedGameReady | js/game.js:60-63 | once the current frame is finished, every frame has the rolls the bonus look-ups read |
| GameModel.UpdateFramesBonusPoints | js/game.js:60-76 | changes bonuses only, keeps the layout, and changes nothing while the current frame is open |
| GameModel.ScanFromSettles | js/game.js:65-75 | after the scan, each frame from k on that had no bonus holds exactly what it is owed, and each that had one is unchanged |
| GameModel.ScanPaysDue | js/game.js:60-76 | if every non-zero bonus already equals its due, the scan leaves every frame holding exactly its due |
| GameModel.Roll | js/game.js:88-92 | fails exactly when the pins are out of range for the frame current after the advance, with that frame's leftPins in the error, and then leaves the advanced frames; keeps the layout |
| GameModel.RollCurrent | js/game.js:90-91 | fails exactly when the pins are out of range for the current frame, leaving the frames unchanged; keeps the layout |
| GameModel.RollCurrentCases | js/game.js:90-91 | a rejected roll leaves the frames as they were, with the frame's error; an accepted one replaces the current frame and then runs the bonus scan |
| GameModel.RollCurrentRolls | js/game.js:90-91 | only the current frame's rolls change, by the pins exactly when the roll is accepted and the frame was not finished |
| GameModel.GetFrame | js/game.js:78-80 | returns nothing exactly when k exceeds the number of frames; otherwise a frame of the game, with index k, or with the current index for k ≤ 0 |
| GameModel.GetFrameAtIndex | js/game.js:78-80 | the frame returned is `frames[k-1]` for k > 0 and the current (last) frame for k ≤ 0 |
| GameModel.NewGameInv | js/game.js:7-9 | a new game satisfies the game invariant and scores 0 |
| GameModel.StrikeBonusExtends | js/game.js:33-58 | once a strike's look-ahead rolls exist, more frames do not change its bonus |
| GameModel.SpareBonusExtends | js/game.js:22-31 | once a spare's look-ahead roll exists, more frames do not change its bonus |
| GameModel.DueExtends | js/game.js:22-58 | a non-zero amount owed stays the same as the game grows |
| GameModel.DueIgnoresBonuses | js/game.js:22-58 | what a frame is owed depends only on the rolls and flags of that frame and the frames after it |
| GameModel.DueNonNegative | js/game.js:22-58 | no frame is ever owed a negative bonus |
| GameModel.NextFrameInv | js/game.js:14-20 | the advance keeps the game invariant |
| GameModel.ScanEstablishesInv | js/game.js:60-76 | a scan with the current frame finished, where every non-zero bonus is already right, yields a state satisfying the invariant |
| GameModel.SettledInv | js/game.js:60-76 | a game whose current frame is finished and whose every bonus equals its due satisfies the invariant |
| GameModel.RollPreservesInv | js/game.js:88-92 | every call of roll, accepted or rejected, keeps the game invariant |
| GameModel.RollCurrentPreservesInv | js/game.js:90-91 | rolling in the current frame and scanning keeps the game invariant |
| GameModel.ReplaceCurrentShape | js/game.js:90 | replacing the current frame by a reachable state with the same index keeps the layout |
| GameModel.ReplaceCurrentInv | js/game.js:90-91 | replacing the current frame by its state after an accepted roll, then scanning, keeps the invariant |
| GameModel.FinishingRollInv | js/game.js:60-76 | after the roll that finishes the current frame, the scan keeps the invariant |
| GameModel.TotalScoreMonotone | js/game.js:82-86 | the game total does not drop when no frame total drops |
| GameModel.ReplaceNeverLowersTotal | js/game.js:82-86 | replacing a frame by one with a total at least as high does not lower the game total |
| GameModel.UpdateNeverLowers | js/game.js:60-76 | the bonus scan never lowers a frame total |
| GameModel.RollNeverLowersTotal | js/game.js:88-92 | the total score never decreases, whatever roll is called with |
| GameModel.RollCurrentNeverLowersTotal | js/game.js:90-91 | rolling in the current frame and scanning never lowers the total |
| GameModel.ScanAfterReplaceNeverLowers | js/game.js:90-91 | replacing the current frame by one with no lower total, then scanning, never lowers the game total |
| GameModel.ShapeIgnoresBonuses | js/game.js:133-135 | changing bonuses keeps the layout of the game |
| GameModel.BonusKept | js/game.js:66-68 | a non-zero bonus is final: any later roll, accepted or rejected, leaves it as it was |
| GameModel.RollCurrentKeepsBonus | js/game.js:66-68 | rolling in the current frame leaves every non-zero bonus as it was |
| GameModel.ReplaceKeepsBonus | js/game.js:66-68 | the scan after replacing the current frame leaves every non-zero bonus as it was |
| GameModel.ScanKeepsBonus | js/game.js:66-68 | the bonus scan leaves a non-zero bonus alone |
| GameModel.SpareBonusValue | js/game.js:22-31 | in a reachable game a settled spare with a next frame holds that frame's first roll as its bonus |
| GameModel.StrikeBonusValue | js/game.js:33-58 | in a reachable game a settled strike holds its next two rolls (from the frame after when the next is a strike), and 0 while they are missing |
| BowlingGame.TotalOf | js/game.js:82-86 | the left-to-right sum of the frame objects' totals is GameModel.TotalScore of their states |
| BowlingGame.Game.constructor | js/game.js:7-9 | the new game has its object structure and the game invariant, and its model is GameModel.NewGame |
| BowlingGame.Game.NextFrame | js/game.js:14-20 | the model becomes GameModel.NextFrame of the old model; the frame list is unchanged or gains one fresh current frame, keeping the old frames as its prefix |
| BowlingGame.Game.CheckSpareBonus | js/game.js:22-31 | the model becomes GameModel.CheckSpareBonus of the old model at the frame's position |
| BowlingGame.Game.CheckStrikeBonus | js/game.js:33-58 | the model becomes GameModel.CheckStrikeBonus of the old model at the frame's position |
| BowlingGame.Game.SettleFrame | js/game.js:66-74 | the model becomes GameModel.ScanFrame of the old model at the frame's position |
| BowlingGame.Game.ForEachFrame | js/game.js:65-75 | the loop takes the model to GameModel.ScanFrom of the old model from 0 |
| BowlingGame.Game.UpdateFramesBonusPoints | js/game.js:60-76 | the model becomes GameModel.UpdateFramesBonusPoints of the old model, keeping the layout |
| BowlingGame.Game.RollFrame | js/game.js:90 | the current frame object takes FrameModel.Roll of its state, or stays as it was with the error returned |
| BowlingGame.Game.RollCurrent | js/game.js:90-91 | the new model and outcome are GameModel.RollCurrent of the old model |
| BowlingGame.Game.Roll | js/game.js:88-92 | the game keeps its object structure and the game invariant, the new model and outcome are GameModel.Roll of the old model, and the frame objects it had stay at their positions |
| BowlingGame.Game.GetFrame | js/game.js:78-80 | returns one of the game's frame objects, and its state is what GameModel.GetFrame gives |
| BowlingGame.Game.GetTotalScore | js/game.js:82-86 | the total is GameModel.TotalScore of the model |
| ReferenceScore.StrikeLookahead | js/game.js:33-58 | in a settled game, a strike's bonus is the flat sum of the next two rolls |
| ReferenceScore.SpareLookahead | js/game.js:22-31 | in a settled game, a spare's bonus is the next roll in the flat list |
| ReferenceScore.FrameStep | js/game.js:125-131 | one settled frame scores its own total in the flat reading, and the rest start one frame later |
| ReferenceScore.SuffixScore | js/game.js:82-86 | the settled frames from position i on score as their flat rolls do from frame i+1 |
| ReferenceScore.SettledIsScored | js/game.js:60-76 | in a reachable game the settled frames all carry what they are owed |
| ReferenceScore.TotalScoreIsReference | js/game.js:82-86 | in a reachable game the total equals the reference score of all rolls once the current frame is finished, and otherwise the reference score of the earlier rolls plus the current frame's pins |
| ReferenceScore.NextFrameKeepsFlat | js/game.js:14-20 | the advance adds no rolls, and leaves the current frame finished exactly when all ten frames are finished |
| ReferenceScore.RollExtendsFlat | js/game.js:88-92 | an accepted roll adds its pins to the rolls seen unless every frame is finished; a rejected one adds nothing |
| ReferenceScore.RollCurrentExtendsFlat | js/game.js:90-91 | rolling in the current frame adds the pins to the rolls seen exactly when it is accepted and the frame was open |
| Replay.Play | js/game.js:88-92 | every sequence of calls of roll from a new game reaches a state satisfying the game invariant |
| Replay.Observe | js/game.js:88-92 | one call of roll: which frame receives it, that it throws exactly when the pins are out of range there, that a thrown roll leaves the advanced frames, what the current frame becomes, and the rolls seen |
| Replay.Continue | js/game.js:88-92 | a roll accepted by an unfinished current frame stays in that frame, which becomes the frame's rolled state, and is recorded |
| Replay.Advance | js/game.js:14-20 | after a finished frame before the tenth, an accepted roll opens the next frame, which becomes the fresh frame's rolled state |
| Replay.Refuse | js/game.js:153-158 | a count outside what the unfinished current frame has standing is refused with OutOfRange of its leftPins |
| Replay.TotalWhenFinished | js/game.js:82-86 | once the current frame is finished, the total is the reference score of all rolls |
| Replay.TotalWhenOpen | js/game.js:82-86 | while the current frame is open, the total is the reference score of the earlier rolls plus its pins |
| Replay.PlayKeepsOrAdds | js/game.js:88-92 | one more roll records its pins or records nothing |
| Replay.NoPinsNoScore | js/game.js:82-86 | a reachable game in which every recorded roll is 0 scores 0 |
| Replay.GutterGame | test/game.spec.js:131-134 | any number of rolls of 0 from a new game scores 0 |
| Replay.StrikesScore | test/game.spec.js:136-139 | from frame f on, 13 − f strikes score 30 a frame in the reference scorer |
| Scenarios.ScoreAfterEachRoll | test/game.spec.js:28-36 | a new game scores 0, and 6 after rolls of 1 and 5 |
| Scenarios.NewFrameAfterSecondRoll | test/game.spec.js:38-45 | the current frame is frame 1 at first and after rolls 2, 1, and frame 2 after a further 3 |
| Scenarios.NewFrameAfterStrike | test/game.spec.js:47-52 | after a strike and a 2 the current frame is frame 2 |
| Scenarios.PinsLeftInFrame | test/game.spec.js:54-60 | after rolls 1, 4 five pins stand; after a further 9 one pin stands |
| Scenarios.TooManyPinsRefused | test/game.spec.js:62-69 | 11 pins are refused in a new game, and 9 after a 2, each with the standing count in the error |
| Scenarios.SpareMarked | test/game.spec.js:71-80 | after 3; 3, 4; 3, 4, 1 the current frame is not a spare, after 3, 4, 1, 9 it is |
| Scenarios.StrikeMarked | test/game.spec.js:82-89 | after 3 and 3, 4 the current frame is not a strike, after 3, 4, 10 it is |
| Scenarios.SpareBonusTotals | test/game.spec.js:91-101 | totals 10, 25, 35 and 50 along rolls 5, 5, 6, 3, 5, 5, 5, 5 |
| Scenarios.StrikeBonusTotals | test/game.spec.js:103-109 | totals 10 after a strike and 30 after a further 6, 4 |
| Scenarios.MixedBonusTotals | test/game.spec.js:111-120 | totals 10, 15 and 45 along rolls 5, 5, 1, 3, 10, 5, 5 |
| Scenarios.LastFramesTotals | test/game.spec.js:122-129 | totals 0, 10 and 11 after nine zeros, then 5, 5, then 1 |
| Scenarios.GutterGameTotal | test/game.spec.js:131-134 | twenty rolls of 0 score 0 |
| Scenarios.PerfectGameTotal | test/game.spec.js:136-139 | twelve strikes score 300 |

The lemmas in `Scenarios` whose names start with `Rolled_`, `After_`, `Score_`, `Total_`, `Cat_`, `Open_`, `Finished_` and `Flat_` are steps of these replays. They describe the game after each prefix of a test's rolls.

## Left out

- `js/app.js`, the page that drives the game, is not part of this model. The `handlers` argument of `VDGame` is never used by the game, and is not modelled.
- `randomRoll` has an empty body and does nothing, so it is not modelled.
- The closures' plain getters are modelled without contracts of their own, because each one only returns a field: `isStrike`, `isSpare`, `getTotalScore` of a frame, `hadBonus`, `getRollByIndex`, `getLeftPins` and `getIndex` (`BowlingFrame.Frame.IsStrike` and the like). The value-level counterparts `FrameModel.Total`, `FrameModel.HadBonus` and `FrameModel.RollAt` are used throughout. The same holds for the definitions `FrameModel.Finished` (`isFinished`, js/game.js:113-115), `FrameModel.AddBonus` (`addBonus`, js/game.js:133-135) and `GameModel.TotalScore` (`getTotalScore`, js/game.js:82-86). They carry no contracts of their own. Their properties are stated by `EarlyFrameFlags`/`TenthFrameFlags`, `BowlingFrame.Frame.AddBonus` and `ReferenceScore.TotalScoreIsReference` with `GameModel.RollNeverLowersTotal`.
- `FrameModel.Roll`: pin counts are integers. JavaScript's `pins || 0` turns `undefined`, `null` and `NaN` into 0, and a fractional or string argument would behave by JavaScript's coercion rules. None of those arguments is modelled.
- `FrameModel.NewFrame`: `index || 1` only matters for index 0, which the game never passes. Frame indices are taken in 1..10.
- `GameModel.GetFrame`: the argument is an integer. A fractional or non-numeric `frameIndex` is not modelled. A call with no argument (`getFrame()`, left `undefined`) fails the test `frameIndex > 0` and returns the current frame, like k = 0. The scenarios write it as `GetFrame(fs, 0)`.
- The text of the exception is not modelled. The model keeps the number in it (`OutOfRange(leftPins)`), and a thrown roll becomes a `Fail` outcome.
- Frame objects are never shared between games, and frames are not created outside `VDGame`. The class model relies on this: the frames of a game are distinct objects, and the game owns them.
