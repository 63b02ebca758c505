/**
 * The board of an Othello game: squares, their statuses, the two sides,
 * the eight compass directions and the geometry of stepping between
 * squares (src/models.js:4-48, 102-168).
 */
module BoardModel {
  import opened Wrappers

  /** The two players. */
  datatype Side = WhiteSide | BlackSide

  /** The occupancy of one square. */
  datatype Status = White | Black | Vacant

  /** The eight compass directions, in the order the source lists them. */
  datatype Direction = Top | RightTop | Right | RightBottom | Bottom | LeftBottom | Left | LeftTop

  /** A square as a structured (row, column) pair; rows and columns 1..8 are on the board. */
  datatype Coord = Coord(row: int, col: int)

  /** A board maps every square to its status. It is a value: operations return new boards. */
  type Board = map<Coord, Status>

  /** The directions in the order the source folds over them. */
  const Directions: seq<Direction> := [Top, RightTop, Right, RightBottom, Bottom, LeftBottom, Left, LeftTop]

  predicate InRange(c: Coord) {
    1 <= c.row <= 8 && 1 <= c.col <= 8
  }

  /** Every direction occurs exactly once in `Directions`. */
  lemma DirectionsComplete()
    ensures forall d: Direction :: d in Directions
    ensures forall i, j :: 0 <= i < j < |Directions| ==> Directions[i] != Directions[j]
  {
    forall d: Direction ensures d in Directions {
      var k := match d
        case Top => 0 case RightTop => 1 case Right => 2 case RightBottom => 3
        case Bottom => 4 case LeftBottom => 5 case Left => 6 case LeftTop => 7;
      assert Directions[k] == d;
    }
  }

  /** The status the opening layout gives a square (the switch of `createBord`). */
  function OpeningStatus(c: Coord): Status {
    if c == Coord(4, 4) || c == Coord(5, 5) then White
    else if c == Coord(4, 5) || c == Coord(5, 4) then Black
    else Vacant
  }

  predicate IsCentre(c: Coord) {
    c == Coord(4, 4) || c == Coord(5, 5) || c == Coord(4, 5) || c == Coord(5, 4)
  }

  /** The opening layout: all 64 squares defined, two white and two black discs in the centre, the rest vacant. */
  ghost predicate IsOpeningLayout(b: Board) {
    (forall c :: c in b <==> InRange(c)) &&
    Coord(4, 4) in b && b[Coord(4, 4)] == White &&
    Coord(5, 5) in b && b[Coord(5, 5)] == White &&
    Coord(4, 5) in b && b[Coord(4, 5)] == Black &&
    Coord(5, 4) in b && b[Coord(5, 4)] == Black &&
    forall c :: c in b && !IsCentre(c) ==> b[c] == Vacant
  }

  /** The opening position (`createBord`). */
  function CreateBoard(): (b: Board)
    ensures IsOpeningLayout(b)
  {
    map r, k | 1 <= r <= 8 && 1 <= k <= 8 :: Coord(r, k) := OpeningStatus(Coord(r, k))
  }

  /** The square `i` steps away from `c` in direction `d` (the offsets of `getNeighborCoord`). */
  function Offset(c: Coord, d: Direction, i: int): Coord {
    match d
    case Top => Coord(c.row - i, c.col)
    case RightTop => Coord(c.row - i, c.col + i)
    case Right => Coord(c.row, c.col + i)
    case RightBottom => Coord(c.row + i, c.col + i)
    case Bottom => Coord(c.row + i, c.col)
    case LeftBottom => Coord(c.row + i, c.col - i)
    case LeftTop => Coord(c.row - i, c.col - i)
    case Left => Coord(c.row, c.col - i)
  }

  /**
   * How far `c` lies along direction `d` (the dot product of the square
   * with the direction's unit step). Each step in `d` increases it.
   */
  function Progress(c: Coord, d: Direction): (p: int)
    ensures InRange(c) ==> -16 <= p <= 16
  {
    match d
    case Top => -c.row
    case RightTop => c.col - c.row
    case Right => c.col
    case RightBottom => c.row + c.col
    case Bottom => c.row
    case LeftBottom => c.row - c.col
    case Left => -c.col
    case LeftTop => -c.row - c.col
  }

  /** A termination measure for walks along `d`: it shrinks with every step that stays on the board. */
  function Room(c: Coord, d: Direction): nat {
    if InRange(c) then 17 - Progress(c, d) else 34
  }

  /** Stepping into `d` moves strictly forward along `d`. */
  lemma OffsetAdvances(c: Coord, d: Direction, i: int)
    requires i >= 1
    ensures Progress(Offset(c, d, i), d) >= Progress(c, d) + i
  {
  }

  /** The neighbour of `c` in direction `d`, or `None` when that square is off the board. */
  function NeighborCoord(c: Coord, d: Direction): (r: Option<Coord>)
    ensures r.None? <==> !InRange(Offset(c, d, 1))
    ensures r.Some? ==> InRange(r.value) && r.value == Offset(c, d, 1)
    ensures r.Some? ==> Room(r.value, d) < Room(c, d)
  {
    var n := Offset(c, d, 1);
    OffsetAdvances(c, d, 1);
    if InRange(n) then Some(n) else None
  }

  /** An edge square has no neighbour exactly in the directions that point off its edge. */
  lemma NeighborOffBoardAtEdge(c: Coord, d: Direction)
    requires InRange(c)
    ensures NeighborCoord(c, d).None? <==>
      (d in {Top, RightTop, LeftTop} && c.row == 1) ||
      (d in {Bottom, RightBottom, LeftBottom} && c.row == 8) ||
      (d in {Right, RightTop, RightBottom} && c.col == 8) ||
      (d in {Left, LeftTop, LeftBottom} && c.col == 1)
  {
  }

  /** The status of a square, or `None` for a square the board does not hold (`getStatus`). */
  function GetStatus(b: Board, c: Coord): (r: Option<Status>)
    ensures r.Some? <==> c in b
    ensures r.Some? ==> r.value == b[c]
  {
    if c in b then Some(b[c]) else None
  }

  /** On the opening board a lookup fails exactly for the squares outside the 8x8 grid. */
  lemma GetStatusOffBoard(c: Coord)
    ensures GetStatus(CreateBoard(), c).None? <==> !InRange(c)
  {
  }

  /** The status of the neighbour of `c` in `d`, or `None` when it is off the board (`getNeighborStatus`). */
  function GetNeighborStatus(b: Board, c: Coord, d: Direction): (r: Option<Status>)
    ensures r.Some? ==> NeighborCoord(c, d).Some? && NeighborCoord(c, d).value in b
    ensures r.Some? ==> r.value == b[Offset(c, d, 1)]
  {
    match NeighborCoord(c, d)
    case None => None
    case Some(n) => GetStatus(b, n)
  }
}
