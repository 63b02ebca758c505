/**
 * Facts about the opening position: which moves each side has, and what
 * the captures the test suite exercises do to it (test/models.test.js).
 */
module Opening {
  import opened Wrappers
  import opened BoardModel
  import opened Engine

  /** The legal opening moves of each side. */
  function OpeningMoves(side: Side): set<Coord> {
    match side
    case BlackSide => {Coord(3, 4), Coord(4, 3), Coord(5, 6), Coord(6, 5)}
    case WhiteSide => {Coord(3, 5), Coord(4, 6), Coord(5, 3), Coord(6, 4)}
  }

  /** No ray steps over three squares of the 2x2 centre. */
  lemma CentreHoldsNoThreeInARow(c: Coord, d: Direction)
    ensures !(IsCentre(Offset(c, d, 1)) && IsCentre(Offset(c, d, 2)) && IsCentre(Offset(c, d, 3)))
  {
  }

  /** On the opening board every capture line is one opposing disc closed by the next square. */
  lemma OpeningCaptureLine(b: Board, c: Coord, d: Direction, s: Status, k: int)
    requires IsOpeningLayout(b)
    ensures CaptureLine(b, c, d, s, k) <==> k == 2 && OpeningCapture(b, c, d, s)
  {
    CentreHoldsNoThreeInARow(c, d);
    if CaptureLine(b, c, d, s, k) && k >= 3 {
      assert IsOpponent(SquareAt(b, c, d, 1), s) && IsOpponent(SquareAt(b, c, d, 2), s);
      assert SquareAt(b, c, d, 3) != Some(Vacant) && SquareAt(b, c, d, 3) != None by {
        if k > 3 { assert IsOpponent(SquareAt(b, c, d, 3), s); }
      }
    }
  }

  /** The one-step capture a legal opening move makes along `d`. */
  predicate OpeningCapture(b: Board, c: Coord, d: Direction, s: Status) {
    s != Vacant && IsOpponent(SquareAt(b, c, d, 1), s) && SquareAt(b, c, d, 2) == Some(s)
  }

  /** A one-step opening capture exists exactly for the squares `OpeningMoves` lists. */
  lemma OpeningCaptureAt(b: Board, c: Coord, side: Side)
    requires IsOpeningLayout(b)
    ensures (exists d :: OpeningCapture(b, c, d, PossibleStatus(side))) <==> c in OpeningMoves(side)
  {
    var s := PossibleStatus(side);
    if c in OpeningMoves(side) {
      if side == BlackSide {
        if c == Coord(3, 4) { assert OpeningCapture(b, c, Bottom, s); }
        else if c == Coord(4, 3) { assert OpeningCapture(b, c, Right, s); }
        else if c == Coord(5, 6) { assert OpeningCapture(b, c, Left, s); }
        else { assert OpeningCapture(b, c, Top, s); }
      } else {
        if c == Coord(3, 5) { assert OpeningCapture(b, c, Bottom, s); }
        else if c == Coord(4, 6) { assert OpeningCapture(b, c, Left, s); }
        else if c == Coord(5, 3) { assert OpeningCapture(b, c, Right, s); }
        else { assert OpeningCapture(b, c, Top, s); }
      }
    } else {
      forall d ensures !OpeningCapture(b, c, d, s) {
        OpeningNoCapture(b, c, d, side);
      }
    }
  }

  /** Away from the listed squares no direction gives an opening capture. */
  lemma OpeningNoCapture(b: Board, c: Coord, d: Direction, side: Side)
    requires IsOpeningLayout(b)
    requires c !in OpeningMoves(side)
    ensures !OpeningCapture(b, c, d, PossibleStatus(side))
  {
  }

  /** On the opening board, `canPlaceDisc` holds exactly on the listed squares. */
  lemma OpeningCanPlaceDisc(b: Board, c: Coord, side: Side)
    requires IsOpeningLayout(b)
    ensures CanPlaceDisc(b, c, side) <==> c in OpeningMoves(side)
  {
    var s := PossibleStatus(side);
    CanPlaceDiscIff(b, c, side);
    OpeningCaptureAt(b, c, side);
    forall d, k ensures CaptureLine(b, c, d, s, k) <==> k == 2 && OpeningCapture(b, c, d, s) {
      OpeningCaptureLine(b, c, d, s, k);
    }
    if c in OpeningMoves(side) {
      var d :| OpeningCapture(b, c, d, s);
      assert CaptureLine(b, c, d, s, 2);
    }
  }

  /**
   * The legal-move lists of the opening position: (3,4), (4,3), (5,6), (6,5)
   * for black and (3,5), (4,6), (5,3), (6,4) for white.
   */
  lemma OpeningAvailableCoords(side: Side)
    ensures GetAvailableCoords(CreateBoard(), side) == OpeningMoves(side)
  {
    var b := CreateBoard();
    forall c ensures c in GetAvailableCoords(b, side) <==> c in OpeningMoves(side) {
      OpeningCanPlaceDisc(b, c, side);
    }
  }

  /** A square that holds no opposing disc is flipped by no move. */
  lemma NotCapturedUnlessOpponent(b: Board, c: Coord, s: Status, p: Coord)
    requires p in b && !IsOpponent(Some(b[p]), s)
    ensures !Captured(b, c, s, p)
  {
    if Captured(b, c, s, p) {
      CapturedWasOpponent(b, c, s, p);
    }
  }

  /** Black may open at (4,3). */
  lemma OpeningBlackMayPlayFourThree(b: Board)
    requires IsOpeningLayout(b)
    ensures CanPlaceDisc(b, Coord(4, 3), BlackSide)
  {
    OpeningCanPlaceDisc(b, Coord(4, 3), BlackSide);
  }

  /** Black at (4,3) captures (4,4) along the row. */
  lemma OpeningBlackCapturesFourFour(b: Board)
    requires IsOpeningLayout(b) && CanPlaceDisc(b, Coord(4, 3), BlackSide)
    ensures PlaceDisc(b, Coord(4, 3), BlackSide)[Coord(4, 4)] == Black
  {
    assert CaptureLine(b, Coord(4, 3), Right, Black, 2);
    FlipsInside(b, Coord(4, 3), Right, Black, 2, 1);
    PlaceDiscAt(b, Coord(4, 3), BlackSide, Coord(4, 4));
  }

  /** White at (5,3) on the opening board captures (5,4) along the row. */
  lemma OpeningWhiteCapturesFiveFour(b: Board)
    requires IsOpeningLayout(b)
    ensures CanPlaceDisc(b, Coord(5, 3), WhiteSide)
    ensures PlaceDisc(b, Coord(5, 3), WhiteSide)[Coord(5, 4)] == White
  {
    OpeningCanPlaceDisc(b, Coord(5, 3), WhiteSide);
    assert CaptureLine(b, Coord(5, 3), Right, White, 2);
    FlipsInside(b, Coord(5, 3), Right, White, 2, 1);
    PlaceDiscAt(b, Coord(5, 3), WhiteSide, Coord(5, 4));
  }

  /** A vacant square other than the target stays vacant. */
  lemma VacantStaysVacant(b: Board, c: Coord, side: Side, p: Coord)
    requires CanPlaceDisc(b, c, side) && p in b && p != c && b[p] == Vacant
    ensures PlaceDisc(b, c, side)[p] == Vacant
  {
    NotCapturedUnlessOpponent(b, c, PossibleStatus(side), p);
    PlaceDiscAt(b, c, side, p);
  }

  /** Black playing (4,3) on the opening board turns (4,3) and (4,4) black. */
  lemma OpeningBlackPlaysFourThree(b: Board)
    requires IsOpeningLayout(b)
    ensures PlaceDisc(b, Coord(4, 3), BlackSide)[Coord(4, 3)] == Black
    ensures PlaceDisc(b, Coord(4, 3), BlackSide)[Coord(4, 4)] == Black
  {
    OpeningBlackMayPlayFourThree(b);
    PlaceDiscTarget(b, Coord(4, 3), BlackSide);
    OpeningBlackCapturesFourFour(b);
  }

  /** Black playing (4,3) on the opening board leaves (3,3) and (3,4) vacant. */
  lemma OpeningBlackLeavesVacant(b: Board)
    requires IsOpeningLayout(b)
    ensures PlaceDisc(b, Coord(4, 3), BlackSide)[Coord(3, 3)] == Vacant
    ensures PlaceDisc(b, Coord(4, 3), BlackSide)[Coord(3, 4)] == Vacant
  {
    OpeningBlackMayPlayFourThree(b);
    VacantStaysVacant(b, Coord(4, 3), BlackSide, Coord(3, 3));
    VacantStaysVacant(b, Coord(4, 3), BlackSide, Coord(3, 4));
  }

  /** With black at (4,3) and (4,5), black from (4,3) captures the white (4,4) and changes nothing else. */
  lemma BlackCapturesFourFour(b2: Board)
    requires Coord(4, 3) in b2 && b2[Coord(4, 3)] == Black
    requires Coord(4, 4) in b2 && b2[Coord(4, 4)] == White
    requires Coord(4, 5) in b2 && b2[Coord(4, 5)] == Black
    ensures ChangeNeighborStatus(b2, Coord(4, 3), Right, Black).Ok?
    ensures forall p :: p in b2 ==>
      ChangeNeighborStatus(b2, Coord(4, 3), Right, Black).value[p] == if p == Coord(4, 4) then Black else b2[p]
  {
    ChangeNeighborStatusFlipsLine(b2, Coord(4, 3), Right, Black);
    assert CaptureLine(b2, Coord(4, 3), Right, Black, 2);
    forall p ensures Flips(b2, Coord(4, 3), Right, Black, p) <==> p == Coord(4, 4) {
      FlipsIff(b2, Coord(4, 3), Right, Black, 2, p);
    }
  }

  /**
   * On a row reading white, black, black, black, white, vacant from (4,2),
   * white from (4,2) captures the three black discs and leaves (4,7) vacant.
   */
  lemma WhiteCapturesThree(b4: Board)
    requires forall j :: 2 <= j <= 7 ==> Coord(4, j) in b4
    requires b4[Coord(4, 2)] == White && b4[Coord(4, 3)] == Black && b4[Coord(4, 4)] == Black
    requires b4[Coord(4, 5)] == Black && b4[Coord(4, 6)] == White && b4[Coord(4, 7)] == Vacant
    ensures ChangeNeighborStatus(b4, Coord(4, 2), Right, White).Ok?
    ensures var b5 := ChangeNeighborStatus(b4, Coord(4, 2), Right, White).value;
      b5[Coord(4, 3)] == White && b5[Coord(4, 4)] == White && b5[Coord(4, 5)] == White &&
      b5[Coord(4, 6)] == White && b5[Coord(4, 7)] == Vacant
  {
    var c := Coord(4, 2);
    assert Coord(4, 3) in b4 && Coord(4, 6) in b4 && Coord(4, 7) in b4;
    ChangeNeighborStatusFlipsLine(b4, c, Right, White);
    assert CaptureLine(b4, c, Right, White, 4) by {
      assert SquareAt(b4, c, Right, 1) == Some(Black);
      assert SquareAt(b4, c, Right, 2) == Some(Black);
      assert SquareAt(b4, c, Right, 3) == Some(Black);
      assert SquareAt(b4, c, Right, 4) == Some(White);
    }
    FlipsInside(b4, c, Right, White, 4, 1);
    FlipsInside(b4, c, Right, White, 4, 2);
    FlipsInside(b4, c, Right, White, 4, 3);
    FlipsIff(b4, c, Right, White, 4, Coord(4, 6));
    FlipsIff(b4, c, Right, White, 4, Coord(4, 7));
    assert !OnSegment(c, Right, 4, Coord(4, 7));
  }

  /**
   * The capture sequence of the `changeNeighborStatus` test: black at (4,3)
   * captures (4,4); then with white at (4,2) and (4,6), white captures
   * (4,3), (4,4), (4,5), and the vacant (4,7) beyond the closing disc stays vacant.
   */
  lemma ChangeNeighborStatusExample(b: Board)
    requires IsOpeningLayout(b)
    ensures var b2 := b[Coord(4, 3) := Black];
      var r3 := ChangeNeighborStatus(b2, Coord(4, 3), Right, Black);
      r3.Ok? && r3.value[Coord(4, 4)] == Black &&
      var b4 := r3.value[Coord(4, 6) := White][Coord(4, 2) := White];
      var r5 := ChangeNeighborStatus(b4, Coord(4, 2), Right, White);
      r5.Ok? && r5.value[Coord(4, 3)] == White && r5.value[Coord(4, 4)] == White &&
      r5.value[Coord(4, 5)] == White && r5.value[Coord(4, 7)] == Vacant
  {
    var b2 := b[Coord(4, 3) := Black];
    BlackCapturesFourFour(b2);
    var b3 := ChangeNeighborStatus(b2, Coord(4, 3), Right, Black).value;
    assert forall j :: 2 <= j <= 7 ==> Coord(4, j) in b3;
    assert b3[Coord(4, 3)] == Black && b3[Coord(4, 5)] == Black && b3[Coord(4, 7)] == Vacant;
    var b4 := b3[Coord(4, 6) := White][Coord(4, 2) := White];
    WhiteCapturesThree(b4);
  }
}
