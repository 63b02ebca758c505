/**
 * The game session: the current board, the side to move and the history of
 * snapshots, updated in place by placements, skips and reverts
 * (src/models.js:170-234).
 */
module Session {
  import opened Wrappers
  import opened BoardModel
  import Engine
  import Opening

  /** The error `revertTo` throws for an index that names no history entry. */
  datatype GameError = InvalidHistoryNumber

  /**
   * A snapshot appended to the history: the board and the side to move
   * after the action, the side that placed a disc and where (both `None`
   * for the first entry and for skips), and whether the action was a skip.
   */
  datatype HistoryEntry = HistoryEntry(
    currentBoard: Board,
    currentDisc: Side,
    placedDisc: Option<Side>,
    coord: Option<Coord>,
    skip: bool)

  /** The side that moves after `side`. */
  function Other(side: Side): (r: Side)
    ensures r != side
  {
    match side
    case WhiteSide => BlackSide
    case BlackSide => WhiteSide
  }

  class Game {
    var currentBoard: Board
    var currentDisc: Side
    var history: seq<HistoryEntry>

    /** The history is never empty and its last entry records the current board and side. */
    ghost predicate Valid()
      reads this
    {
      |history| > 0 &&
      history[|history| - 1].currentBoard == currentBoard &&
      history[|history| - 1].currentDisc == currentDisc
    }

    /** A new session on the opening board, `firstDisc` to move, with one initial snapshot. */
    constructor (firstDisc: Side)
      ensures Valid()
      ensures currentDisc == firstDisc && currentBoard == CreateBoard()
      ensures history == [HistoryEntry(CreateBoard(), firstDisc, None, None, false)]
    {
      currentDisc := firstDisc;
      currentBoard := CreateBoard();
      history := [];
      new;
      AddHistory(None, None, false);
    }

    /** Whether the side to move may place at `coord` (`Game.canPlaceDisc`). */
    function CanPlaceDisc(coord: Coord): (r: bool)
      reads this
      ensures r <==> coord in GetAvailableCoords()
    {
      Engine.CanPlaceDisc(currentBoard, coord, currentDisc)
    }

    /** The squares where the side to move may place (`Game.getAvailableCoords`). */
    function GetAvailableCoords(): (r: set<Coord>)
      reads this
      ensures forall c :: c in r ==> c in currentBoard && currentBoard[c] == Vacant
    {
      Engine.GetAvailableCoords(currentBoard, currentDisc)
    }

    /** The side that moves next (`getNextDisc`). */
    function GetNextDisc(): (r: Side)
      reads this
      ensures r == Other(currentDisc) && r != currentDisc
    {
      if currentDisc == WhiteSide then BlackSide else WhiteSide
    }

    /** Appends a snapshot of the current board and side (`addHistory`). */
    method AddHistory(placedDisc: Option<Side>, coord: Option<Coord>, skip: bool)
      modifies this
      ensures currentBoard == old(currentBoard) && currentDisc == old(currentDisc)
      ensures history == old(history) + [HistoryEntry(currentBoard, currentDisc, placedDisc, coord, skip)]
      ensures Valid()
    {
      history := history + [HistoryEntry(currentBoard, currentDisc, placedDisc, coord, skip)];
    }

    /**
     * Places a disc of the side to move at `coord` (`Game.placeDisc`). An
     * illegal placement changes nothing; a legal one applies the engine's
     * placement, passes the turn and records the side that moved and where.
     */
    method PlaceDisc(coord: Coord)
      requires Valid()
      modifies this
      ensures Valid()
      ensures !old(CanPlaceDisc(coord)) ==>
        currentBoard == old(currentBoard) && currentDisc == old(currentDisc) && history == old(history)
      ensures old(CanPlaceDisc(coord)) ==>
        currentBoard == Engine.PlaceDisc(old(currentBoard), coord, old(currentDisc)) &&
        currentDisc == Other(old(currentDisc)) &&
        history == old(history) + [HistoryEntry(currentBoard, currentDisc, Some(old(currentDisc)), Some(coord), false)]
    {
      if !CanPlaceDisc(coord) { return; }
      currentBoard := Engine.PlaceDisc(currentBoard, coord, currentDisc);
      var prevDisc := currentDisc;
      currentDisc := GetNextDisc();
      AddHistory(Some(prevDisc), Some(coord), false);
    }

    /**
     * Passes the turn without checking that the side to move has no legal
     * placement (`skip`), and records a skip snapshot.
     */
    method Skip()
      requires Valid()
      modifies this
      ensures Valid()
      ensures currentBoard == old(currentBoard) && currentDisc == Other(old(currentDisc))
      ensures history == old(history) + [HistoryEntry(currentBoard, currentDisc, None, None, true)]
    {
      currentDisc := GetNextDisc();
      AddHistory(None, None, true);
    }

    /**
     * Returns to snapshot `n` and discards every later one (`revertTo`);
     * fails, changing nothing, when `n` names no snapshot.
     */
    method RevertTo(n: int) returns (r: Outcome<GameError>)
      requires Valid()
      modifies this
      ensures Valid()
      ensures r.Fail? <==> !(0 <= n < |old(history)|)
      ensures r.Fail? ==> (r.error == InvalidHistoryNumber &&
        currentBoard == old(currentBoard) && currentDisc == old(currentDisc) && history == old(history))
      ensures r.Pass? ==> (
        currentBoard == old(history[n].currentBoard) && currentDisc == old(history[n].currentDisc) &&
        history == old(history[..n + 1]))
    {
      if !(0 <= n < |history|) {
        return Fail(InvalidHistoryNumber);
      }
      var entry := history[n];
      currentBoard := entry.currentBoard;
      currentDisc := entry.currentDisc;
      history := history[..n + 1];
      return Pass;
    }
  }

  /** Reverting twice to the same index changes nothing the second time. */
  method RevertToTwice(g: Game, n: int) returns (r1: Outcome<GameError>, r2: Outcome<GameError>)
    requires g.Valid()
    modifies g
    ensures g.Valid() && r1 == r2
    ensures r1.Pass? <==> 0 <= n < |old(g.history)|
    ensures 0 <= n < |old(g.history)| ==> (g.history == old(g.history[..n + 1]) &&
      g.currentBoard == old(g.history[n].currentBoard) && g.currentDisc == old(g.history[n].currentDisc))
  {
    r1 := g.RevertTo(n);
    ghost var board, disc, history := g.currentBoard, g.currentDisc, g.history;
    r2 := g.RevertTo(n);
    assert g.currentBoard == board && g.currentDisc == disc && g.history == history;
  }

  /**
   * A session started by white: the legal move (5,3) turns (5,4) white and
   * appends a second snapshot; reverting to snapshot 0 restores the opening
   * board, white to move and a one-entry history.
   */
  method PlayAndRevert() returns (g: Game)
    ensures g.Valid() && g.currentBoard == CreateBoard() && g.currentDisc == WhiteSide
    ensures g.currentBoard[Coord(5, 4)] == Black
    ensures g.history == [HistoryEntry(CreateBoard(), WhiteSide, None, None, false)]
  {
    g := new Game(WhiteSide);
    Opening.OpeningWhiteCapturesFiveFour(g.currentBoard);
    g.PlaceDisc(Coord(5, 3));
    assert g.currentBoard[Coord(5, 4)] == White;
    assert |g.history| == 2 && g.currentDisc == BlackSide;
    var r := g.RevertTo(0);
  }

  /**
   * Reverting to snapshot 1 right after the first move keeps both snapshots
   * and the board after the move, since snapshot 1 is that move's own record.
   */
  method PlayAndRevertToLatest() returns (g: Game, r: Outcome<GameError>)
    ensures g.Valid() && r.Pass?
    ensures |g.history| == 2 && g.currentDisc == BlackSide
    ensures Coord(5, 4) in g.currentBoard && g.currentBoard[Coord(5, 4)] == White
  {
    g := new Game(WhiteSide);
    Opening.OpeningWhiteCapturesFiveFour(g.currentBoard);
    g.PlaceDisc(Coord(5, 3));
    r := g.RevertTo(1);
  }
}
