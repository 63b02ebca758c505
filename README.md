# react-othello rules engine and game session, in Dafny

This project models the Othello core of react-othello (`src/models.js`) and proves properties of it.

**The board engine.** It works on immutable 8x8 boards:
- `createBord` builds the opening position.
- `statusExists` and `canChangeNeighborStatus` walk a line of discs from a square in one of the eight compass directions.
- `canPlaceDisc` decides whether a side may place a disc on a square. `getAvailableCoords` collects every legal square.
- `changeNeighborStatus` flips the discs of one capture line. `placeDisc` puts the disc down and then applies `changeNeighborStatus` in all eight directions.

**The `Game` session.** It is an object holding the current board, the side to move and a history of snapshots. Placing a disc, skipping and reverting update these fields in place.

The model has five modules:
- `Wrappers` (`wrappers.dfy`): `Option`, `Result` and `Outcome`.
- `BoardModel` (`board.dfy`): sides, square statuses, directions, coordinates, the opening board, neighbour stepping and status lookup.
- `Engine` (`engine.dfy`): the rules as functions. Next to them are reference definitions of a capture line: `Anchor`, `CaptureLine`, `Flips` and `Captured`. Lemmas tie each recursive walk and each `reduce` fold to those definitions.
- `Opening` (`opening.dfy`): facts about the opening position and the scenarios from the repository's unit tests.
- `Session` (`game.dfy`): class `Game`, with fields `currentBoard`, `currentDisc` and `history`, and methods that modify `this`.

How the source's representations map to the model:
- The board is a `map<Coord, Status>`.
- A square is a structured `Coord(row, col)`; squares 1..8 × 1..8 are on the board.
- The source encodes coordinates as two-digit strings. A neighbour off the board becomes a string that is absent from the map, so the lookup yields `null`. The model's `NeighborCoord` returns `None` there instead, and `GetStatus` returns `None` for a square the board does not hold.
- The `throw` in `changeNeighborStatus` is the `Err(InvalidStatus)` result.
- The `throw` in `revertTo` is the `Fail(InvalidHistoryNumber)` outcome.
- Each `Object.values(DIRECTIONS).reduce(...)` is a left fold over `Directions`, in the source's order: `AnyCapture` for `canPlaceDisc` and `ChangeAll` for `placeDisc`.

## Model

| member | source | states |
|---|---|---|
| BoardModel.CreateBoard | src/models.js:26-48 | the opening board holds exactly the 64 squares 1..8 × 1..8, with (4,4) and (5,5) white, (4,5) and (5,4) black and all others vacant |
| BoardModel.DirectionsComplete | src/models.js:15-24 | the folds visit each of the eight directions exactly once |
| BoardModel.NeighborCoord | src/models.js:108-132 | the neighbour is the square one step along the direction; it is absent exactly when that square is off the board, and a present neighbour is strictly closer to the edge in that direction |
| BoardModel.NeighborOffBoardAtEdge | src/models.js:108-132 | an on-board square lacks a neighbour exactly in the directions that point across the edge it sits on |
| BoardModel.GetStatus | src/models.js:149-153 | a lookup yields the square's status when the board holds the square, and nothing otherwise |
| BoardModel.GetStatusOffBoard | src/models.js:149-153 | on the opening board a lookup fails exactly for squares outside the grid |
| BoardModel.GetNeighborStatus | src/models.js:102-106 | a neighbour status is only reported for an on-board neighbour the board holds, and it is that square's status |
| Engine.PossibleStatus | src/models.js:155-164 | a side's colour is never vacant; white belongs to the white side and black to the black side |
| Engine.StatusExistsIff | src/models.js:73-84 | the walk succeeds exactly when, some k ≥ 1 steps away, a disc of the mover's colour sits with only opposing discs before it |
| Engine.CanChangeNeighborStatusIff | src/models.js:61-71 | a capture in one direction is possible exactly when there is a closed line with at least one opposing disc |
| Engine.NoCaptureAtBlockedNeighbor | src/models.js:61-84 | a neighbour that is off the board, vacant or of the mover's colour rules out a capture; a neighbour off the board or vacant also makes the walk fail |
| Engine.AnyCaptureIff | src/models.js:56-58 | the `reduce` of `canPlaceDisc` is the accumulator or-ed with a capture test in some direction of the list |
| Engine.CanPlaceDiscIff | src/models.js:54-59 | a placement is legal exactly when the square is on the board and vacant and some direction has a closed capture line |
| Engine.GetAvailableCoords | src/models.js:50-52 | the legal-move list holds only vacant squares of the board |
| Engine.GetAvailableCoordsIff | src/models.js:50-52 | a square is listed exactly when a placement there is legal |
| Engine.ChangeNeighborStatus | src/models.js:86-92 | the flip fails exactly when the start square does not hold the mover's colour; on success the board keeps its squares and nothing behind the start square along the direction changes |
| Engine.ChangeNeighborStatusFails | src/models.js:87 | the error is raised exactly when the start square does not hold the mover's colour |
| Engine.ChangeNeighborStatusNoLine | src/models.js:88 | with no capture in that direction the board comes back unchanged |
| Engine.ChangeNeighborStatusFlipsLine | src/models.js:86-92 | every square strictly inside the closed capture line takes the mover's colour, and every other square keeps its status, including those beyond the closing disc |
| Engine.ChangeAll | src/models.js:97-99 | the fold over the directions keeps the board's squares and the mover's disc on the target |
| Engine.ChangeAllFlipsLines | src/models.js:97-99 | after the fold over distinct directions, a square other than the target has the mover's colour if it lies inside a capture line from the target in one of those directions, and otherwise keeps its status |
| Engine.PlaceDisc | src/models.js:94-100 | placement keeps the board's squares, and an illegal placement returns the board unchanged |
| Engine.PlaceDiscSpec | src/models.js:94-100 | a legal placement puts the mover's colour on the target; every other square takes the mover's colour if it lies inside a capture line from the target, and keeps its status otherwise |
| Engine.PlaceDiscAt | src/models.js:94-100 | the same, for one square |
| Engine.PlaceDiscTarget | src/models.js:96-99 | the target square gets the mover's colour |
| Engine.PlaceDiscOnlyFlipsOpponents | src/models.js:94-100 | a square other than the target changes only when the placement was legal, and then only from an opposing disc to the mover's colour |
| Engine.PlaceDiscFlipsSome | src/models.js:94-100 | a legal placement flips at least one opposing disc |
| Engine.CapturedWasOpponent | src/models.js:73-84 | a square inside a capture line is on the board, is not the target and holds an opposing disc |
| Engine.AnchorUnique | src/models.js:73-84 | a walk in one direction is closed at one distance at most |
| Engine.FlipsIff | src/models.js:86-92 | the squares flipped along a line are exactly the squares strictly between the start and the closing disc |
| Opening.OpeningCanPlaceDisc | src/models.js:54-59 | on the opening board, black may place exactly at (3,4), (4,3), (5,6), (6,5) and white exactly at (3,5), (4,6), (5,3), (6,4) |
| Opening.OpeningAvailableCoords | src/models.js:50-52 | the legal-move lists of the opening board are those four squares for each side |
| Opening.OpeningCaptureLine | src/models.js:73-84 | every capture line on the opening board has exactly one opposing disc |
| Opening.OpeningBlackPlaysFourThree | src/models.js:94-100 | black at (4,3) on the opening board turns (4,3) and (4,4) black |
| Opening.OpeningBlackLeavesVacant | src/models.js:94-100 | black at (4,3) on the opening board leaves (3,3) and (3,4) vacant |
| Opening.OpeningWhiteCapturesFiveFour | src/models.js:94-100 | white may place at (5,3) on the opening board, which turns (5,4) white |
| Opening.VacantStaysVacant | src/models.js:94-100 | a legal placement leaves every other vacant square vacant |
| Opening.ChangeNeighborStatusExample | src/models.js:86-92 | black from (4,3) flips (4,4); then white from (4,2), with white at (4,6), flips (4,3), (4,4), (4,5) and leaves (4,7) vacant |
| Session.Other | src/models.js:212-218 | the side to move next is never the current one |
| Session.Game.constructor | src/models.js:171-176 | a new session has the opening board, the given first side and one snapshot of them, and satisfies the invariant: the history is non-empty and its last snapshot records the current board and side |
| Session.Game.CanPlaceDisc | src/models.js:182-184 | the session's legality test agrees with its legal-move list |
| Session.Game.GetAvailableCoords | src/models.js:186-188 | the session's legal moves are vacant squares of its board |
| Session.Game.GetNextDisc | src/models.js:212-218 | the side to move next is the other side, never the current one |
| Session.Game.AddHistory | src/models.js:220-233 | appends exactly one snapshot of the current board and side, changes nothing else and re-establishes the invariant |
| Session.Game.PlaceDisc | src/models.js:190-197 | an illegal move changes neither board, side nor history; a legal one sets the board to the engine's placement, passes the turn and appends one snapshot recording the mover and the square; the invariant is kept |
| Session.Game.Skip | src/models.js:207-210 | the board stays, the turn passes and one snapshot marked as a skip is appended; the invariant is kept |
| Session.Game.RevertTo | src/models.js:199-205 | fails, changing nothing, exactly when n is not an index of the history; otherwise restores board and side from snapshot n and truncates the history to its first n+1 snapshots; the invariant is kept |
| Session.RevertToTwice | src/models.js:199-205 | reverting twice to the same index gives the same outcome and the state of the first revert |
| Session.PlayAndRevert | src/models.js:171-205 | after white's opening move (5,3) and a revert to snapshot 0, the session is back on the opening board with one snapshot |
| Session.PlayAndRevertToLatest | src/models.js:190-205 | after white's opening move (5,3), reverting to snapshot 1 keeps two snapshots, black to move and (5,4) white |

## Left out

- The React user interface (`src/app.js`) and the build configuration (`webpack.config.js`) hold no rules logic.
- The Immutable.js and lodash plumbing is replaced by Dafny maps and sequences. This includes the `get bord()` conversion to a plain object (src/models.js:178-180).
- The two-digit string encoding of coordinates (`getCoord`, `getRow`, `getCol`, `getRowCol`, src/models.js:134-147) is replaced by the structured `Coord`. Only its meaning is kept: a square off the board is absent.
- The check `if (!neighborStatus)` in `getNeighborStatus` (src/models.js:104) never fires, because a coordinate string is never empty. Off-board neighbours yield `null` through the failed map lookup instead. The model reaches the same `None` by checking the range in `NeighborCoord`. For boards whose squares all lie in 1..8 × 1..8, which includes every board the source builds, the two agree.
- The `default: throw` branches of `getNeighborCoord` and `getPossibleStatus` (src/models.js:129-130, 161-162) cannot be reached: directions and sides are closed datatypes here.
- Engine.GetAvailableCoords: the source returns an array in the board's key order; the model returns a set, so the order is not captured.
- Session.Game.PlaceDisc: returning `this` for chaining is not modelled; the method returns nothing.
- Session.Game.AddHistory: the source stores the coordinate as an object `{row, col}`, or an empty object when there is none; the model stores `Option<Coord>`.
- The unit test at test/models.test.js:112-120 disagrees with `revertTo`. It expects `revertTo(1)` after one move to leave one snapshot with (5,4) black again. The code keeps `n + 1` snapshots, so index 1 is the move's own record. The model follows the code, and `Session.PlayAndRevertToLatest` states what the code does there. That test also calls `getCurrentBord()`, which `Game` does not define.
- `skip` does not check that the side to move has no legal placement, and neither does the model.
