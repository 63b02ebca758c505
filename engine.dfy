/**
 * The Othello rules over immutable boards: walking a line of discs, the
 * legality of a placement, the legal-move list, and applying a capture
 * (src/models.js:50-100, 155-164).
 *
 * Every function here is modelled on its counterpart in the source. Beside
 * them stand reference definitions that say directly what a capture line
 * is (`Anchor`, `CaptureLine`, `Flips`, `Captured`), and lemmas that tie the
 * recursive walks and folds to those definitions.
 */
module Engine {
  import opened Wrappers
  import opened BoardModel

  /** The error `changeNeighborStatus` throws when its start square does not hold the mover's colour. */
  datatype RuleError = InvalidStatus

  /** The colour a side's discs show (`getPossibleStatus`). */
  function PossibleStatus(side: Side): (s: Status)
    ensures s != Vacant
    ensures s == White <==> side == WhiteSide
  {
    match side
    case WhiteSide => White
    case BlackSide => Black
  }

  // ---------------------------------------------------------------------
  // Reference definitions
  // ---------------------------------------------------------------------

  /** The status `i` steps from `c` along `d`, or `None` once the ray has left the board. */
  function SquareAt(b: Board, c: Coord, d: Direction, i: int): Option<Status> {
    var p := Offset(c, d, i);
    if InRange(p) then GetStatus(b, p) else None
  }

  /** `x` is a disc of the colour opposing `s`. */
  predicate IsOpponent(x: Option<Status>, s: Status) {
    x.Some? && x.value != Vacant && x.value != s
  }

  /**
   * Walking from `c` along `d`, the squares 1 .. k-1 hold opposing discs and
   * square `k` holds a disc of colour `s`: the walk is closed at step `k`.
   */
  ghost predicate Anchor(b: Board, c: Coord, d: Direction, s: Status, k: int) {
    1 <= k && s != Vacant && SquareAt(b, c, d, k) == Some(s) &&
    forall i :: 1 <= i < k ==> IsOpponent(SquareAt(b, c, d, i), s)
  }

  /** A capture line: at least one opposing disc, closed by a disc of colour `s`. */
  ghost predicate CaptureLine(b: Board, c: Coord, d: Direction, s: Status, k: int) {
    2 <= k && Anchor(b, c, d, s, k)
  }

  /** Square `p` lies strictly inside the capture line from `c` along `d`. */
  ghost predicate Flips(b: Board, c: Coord, d: Direction, s: Status, p: Coord) {
    exists k, i :: CaptureLine(b, c, d, s, k) && 1 <= i < k && p == Offset(c, d, i)
  }

  /** Square `p` lies inside a capture line from `c` in some direction. */
  ghost predicate Captured(b: Board, c: Coord, s: Status, p: Coord) {
    exists d :: Flips(b, c, d, s, p)
  }

  // ---------------------------------------------------------------------
  // The walks, as the source writes them
  // ---------------------------------------------------------------------

  /**
   * Walks from `c` along `d` over opposing discs and answers whether a disc
   * of colour `s` closes the walk (`statusExists`).
   */
  function StatusExists(b: Board, c: Coord, d: Direction, s: Status): bool
    decreases Room(c, d)
  {
    match GetNeighborStatus(b, c, d)
    case None => false
    case Some(x) =>
      if x == Vacant then false
      else if x == s then true
      else StatusExists(b, NeighborCoord(c, d).value, d, s)
  }

  /** Whether a placement at `c` captures in direction `d` (`canChangeNeighborStatus`). */
  function CanChangeNeighborStatus(b: Board, c: Coord, d: Direction, s: Status): bool {
    match GetNeighborStatus(b, c, d)
    case None => false
    case Some(x) =>
      if x == Vacant || x == s then false
      else StatusExists(b, NeighborCoord(c, d).value, d, s)
  }

  /** The `reduce` of `canPlaceDisc`: `acc` or-ed with a capture test for every direction in `ds`. */
  function AnyCapture(b: Board, c: Coord, ds: seq<Direction>, s: Status, acc: bool): bool
    decreases |ds|
  {
    if ds == [] then acc
    else AnyCapture(b, c, ds[1..], s, acc || CanChangeNeighborStatus(b, c, ds[0], s))
  }

  /** Whether `side` may place a disc at `c` (`canPlaceDisc`). */
  function CanPlaceDisc(b: Board, c: Coord, side: Side): bool {
    if GetStatus(b, c) != Some(Vacant) then false
    else AnyCapture(b, c, Directions, PossibleStatus(side), false)
  }

  /** The squares of `b` where `side` may place a disc (`getAvailableCoords`). */
  function GetAvailableCoords(b: Board, side: Side): (r: set<Coord>)
    ensures r <= b.Keys
    ensures forall c :: c in r ==> b[c] == Vacant
  {
    set c | c in b && CanPlaceDisc(b, c, side)
  }

  /**
   * Flips the opposing discs from the neighbour of `c` up to the disc that
   * closes the line (`changeNeighborStatus`). Fails unless `c` itself holds `s`.
   */
  function ChangeNeighborStatus(b: Board, c: Coord, d: Direction, s: Status): (r: Result<Board, RuleError>)
    ensures r.Ok? <==> GetStatus(b, c) == Some(s)
    ensures r.Ok? ==> r.value.Keys == b.Keys
    ensures r.Ok? ==> forall p :: p in b && Progress(p, d) <= Progress(c, d) ==> r.value[p] == b[p]
    decreases Room(c, d)
  {
    if GetStatus(b, c) != Some(s) then Err(InvalidStatus)
    else if !CanChangeNeighborStatus(b, c, d, s) then Ok(b)
    else
      var n := NeighborCoord(c, d).value;
      OffsetAdvances(c, d, 1);
      ChangeNeighborStatus(b[n := s], n, d, s)
  }

  /** The `reduce` of `placeDisc`: applies `changeNeighborStatus` from `c` for every direction in `ds`, in order. */
  function ChangeAll(b: Board, c: Coord, ds: seq<Direction>, s: Status): (r: Board)
    requires GetStatus(b, c) == Some(s)
    ensures r.Keys == b.Keys && r[c] == s
    decreases |ds|
  {
    if ds == [] then b
    else ChangeAll(ChangeNeighborStatus(b, c, ds[0], s).value, c, ds[1..], s)
  }

  /** Places a disc of `side` at `c` and applies every capture (`placeDisc`); an illegal move changes nothing. */
  function PlaceDisc(b: Board, c: Coord, side: Side): (r: Board)
    ensures r.Keys == b.Keys
    ensures !CanPlaceDisc(b, c, side) ==> r == b
  {
    if !CanPlaceDisc(b, c, side) then b
    else
      var s := PossibleStatus(side);
      ChangeAll(b[c := s], c, Directions, s)
  }

  // ---------------------------------------------------------------------
  // Geometry of rays
  // ---------------------------------------------------------------------

  /** Walking on from the neighbour is walking one step further from the start. */
  lemma SquareAtShift(b: Board, c: Coord, d: Direction, n: Coord, j: int)
    requires NeighborCoord(c, d) == Some(n)
    ensures SquareAt(b, n, d, j) == SquareAt(b, c, d, j + 1)
  {
    OffsetCompose(c, d, 1, j);
  }

  /** Two walks along one direction add up. */
  lemma OffsetCompose(c: Coord, d: Direction, i: int, j: int)
    ensures Offset(Offset(c, d, i), d, j) == Offset(c, d, i + j)
  {
  }

  /** The first square of the ray is the neighbour. */
  lemma SquareAtFirst(b: Board, c: Coord, d: Direction)
    ensures SquareAt(b, c, d, 1) == GetNeighborStatus(b, c, d)
  {
  }

  /** Rays in two different directions from one square share no square. */
  lemma RaysDisjoint(c: Coord, d1: Direction, d2: Direction, i: int, j: int)
    requires d1 != d2 && i >= 1 && j >= 1
    ensures Offset(c, d1, i) != Offset(c, d2, j)
  {
  }

  /** A closed walk is closed at one step only. */
  lemma AnchorUnique(b: Board, c: Coord, d: Direction, s: Status, k1: int, k2: int)
    requires Anchor(b, c, d, s, k1) && Anchor(b, c, d, s, k2)
    ensures k1 == k2
  {
  }

  /** Over an opposing first square, a walk from the neighbour is closed exactly one step sooner. */
  lemma AnchorShift(b: Board, c: Coord, d: Direction, s: Status, n: Coord, k: int)
    requires NeighborCoord(c, d) == Some(n)
    requires IsOpponent(SquareAt(b, c, d, 1), s)
    ensures Anchor(b, n, d, s, k) <==> Anchor(b, c, d, s, k + 1)
  {
    forall j ensures SquareAt(b, n, d, j) == SquareAt(b, c, d, j + 1) {
      SquareAtShift(b, c, d, n, j);
    }
    if Anchor(b, n, d, s, k) {
      forall i | 1 <= i < k + 1 ensures IsOpponent(SquareAt(b, c, d, i), s) {
        if i > 1 { assert SquareAt(b, c, d, i) == SquareAt(b, n, d, i - 1); }
      }
    }
    if Anchor(b, c, d, s, k + 1) {
      forall i | 1 <= i < k ensures IsOpponent(SquareAt(b, n, d, i), s) {
        assert SquareAt(b, n, d, i) == SquareAt(b, c, d, i + 1);
      }
    }
  }

  /** Boards that agree along a ray agree on an anchor of it. */
  lemma AnchorSameRay(b1: Board, b2: Board, c: Coord, d: Direction, s: Status, k: int)
    requires forall i :: i >= 1 ==> SquareAt(b1, c, d, i) == SquareAt(b2, c, d, i)
    requires Anchor(b1, c, d, s, k)
    ensures Anchor(b2, c, d, s, k)
  {
    forall i | 1 <= i < k ensures IsOpponent(SquareAt(b2, c, d, i), s) {
      assert IsOpponent(SquareAt(b1, c, d, i), s);
    }
  }

  /** Boards that agree along a ray flip the same squares along it. */
  lemma FlipsSameRay(b1: Board, b2: Board, c: Coord, d: Direction, s: Status, p: Coord)
    requires forall i :: i >= 1 ==> SquareAt(b1, c, d, i) == SquareAt(b2, c, d, i)
    ensures Flips(b1, c, d, s, p) <==> Flips(b2, c, d, s, p)
  {
    if Flips(b1, c, d, s, p) {
      var k, i :| CaptureLine(b1, c, d, s, k) && 1 <= i < k && p == Offset(c, d, i);
      AnchorSameRay(b1, b2, c, d, s, k);
      assert CaptureLine(b2, c, d, s, k);
    }
    if Flips(b2, c, d, s, p) {
      var k, i :| CaptureLine(b2, c, d, s, k) && 1 <= i < k && p == Offset(c, d, i);
      AnchorSameRay(b2, b1, c, d, s, k);
      assert CaptureLine(b1, c, d, s, k);
    }
  }

  // ---------------------------------------------------------------------
  // The walks against the reference definitions
  // ---------------------------------------------------------------------

  /** `statusExists` holds exactly when the walk from `c` along `d` is closed by a disc of colour `s`. */
  lemma {:induction false} StatusExistsIff(b: Board, c: Coord, d: Direction, s: Status)
    ensures StatusExists(b, c, d, s) <==> exists k :: Anchor(b, c, d, s, k)
    decreases Room(c, d)
  {
    SquareAtFirst(b, c, d);
    var x := GetNeighborStatus(b, c, d);
    if x.None? || x.value == Vacant {
      forall k ensures !Anchor(b, c, d, s, k) {
        if k > 1 { assert !IsOpponent(SquareAt(b, c, d, 1), s); }
      }
    } else if x.value == s {
      assert Anchor(b, c, d, s, 1);
    } else {
      var n := NeighborCoord(c, d).value;
      StatusExistsIff(b, n, d, s);
      if StatusExists(b, n, d, s) {
        var k :| Anchor(b, n, d, s, k);
        AnchorShift(b, c, d, s, n, k);
      } else {
        forall k ensures !Anchor(b, c, d, s, k) {
          AnchorShift(b, c, d, s, n, k - 1);
        }
      }
    }
  }

  /** `canChangeNeighborStatus` holds exactly when a capture line starts at `c` in direction `d`. */
  lemma CanChangeNeighborStatusIff(b: Board, c: Coord, d: Direction, s: Status)
    ensures CanChangeNeighborStatus(b, c, d, s) <==> exists k :: CaptureLine(b, c, d, s, k)
  {
    SquareAtFirst(b, c, d);
    var x := GetNeighborStatus(b, c, d);
    if x.None? || x.value == Vacant || x.value == s {
      forall k ensures !CaptureLine(b, c, d, s, k) {
        if k >= 2 { assert !IsOpponent(SquareAt(b, c, d, 1), s); }
      }
    } else {
      var n := NeighborCoord(c, d).value;
      StatusExistsIff(b, n, d, s);
      if StatusExists(b, n, d, s) {
        var k :| Anchor(b, n, d, s, k);
        AnchorShift(b, c, d, s, n, k);
        assert CaptureLine(b, c, d, s, k + 1);
      } else {
        forall k ensures !CaptureLine(b, c, d, s, k) {
          AnchorShift(b, c, d, s, n, k - 1);
        }
      }
    }
  }

  /** Off the board, on a vacant neighbour or on a neighbour of the mover's colour, no walk and no capture start. */
  lemma NoCaptureAtBlockedNeighbor(b: Board, c: Coord, d: Direction, s: Status)
    requires GetNeighborStatus(b, c, d) in {None, Some(Vacant), Some(s)}
    ensures !CanChangeNeighborStatus(b, c, d, s)
    ensures GetNeighborStatus(b, c, d) != Some(s) ==> !StatusExists(b, c, d, s)
    ensures forall k :: !CaptureLine(b, c, d, s, k)
  {
    CanChangeNeighborStatusIff(b, c, d, s);
  }

  /** The fold of `canPlaceDisc` is an existential over the directions it visits. */
  lemma {:induction false} AnyCaptureIff(b: Board, c: Coord, ds: seq<Direction>, s: Status, acc: bool)
    ensures AnyCapture(b, c, ds, s, acc) <==> acc || exists d :: d in ds && CanChangeNeighborStatus(b, c, d, s)
    decreases |ds|
  {
    if ds != [] {
      AnyCaptureIff(b, c, ds[1..], s, acc || CanChangeNeighborStatus(b, c, ds[0], s));
      assert forall d :: d in ds <==> d == ds[0] || d in ds[1..];
    }
  }

  /**
   * A placement is legal exactly on a vacant square from which a capture
   * line runs in some direction.
   */
  lemma CanPlaceDiscIff(b: Board, c: Coord, side: Side)
    ensures CanPlaceDisc(b, c, side) <==>
      c in b && b[c] == Vacant && exists d, k :: CaptureLine(b, c, d, PossibleStatus(side), k)
  {
    var s := PossibleStatus(side);
    if GetStatus(b, c) == Some(Vacant) {
      assert CanPlaceDisc(b, c, side) == AnyCapture(b, c, Directions, s, false);
      AnyCaptureIff(b, c, Directions, s, false);
      SomeDirectionCaptures(b, c, s);
    }
  }

  /** Some direction of `Directions` allows a capture exactly when some capture line runs from `c`. */
  lemma SomeDirectionCaptures(b: Board, c: Coord, s: Status)
    ensures (exists d :: d in Directions && CanChangeNeighborStatus(b, c, d, s)) <==>
      exists d, k :: CaptureLine(b, c, d, s, k)
  {
    if exists d :: d in Directions && CanChangeNeighborStatus(b, c, d, s) {
      var d :| d in Directions && CanChangeNeighborStatus(b, c, d, s);
      CanChangeNeighborStatusIff(b, c, d, s);
      var k :| CaptureLine(b, c, d, s, k);
    }
    if exists d, k :: CaptureLine(b, c, d, s, k) {
      var d, k :| CaptureLine(b, c, d, s, k);
      CanChangeNeighborStatusIff(b, c, d, s);
      DirectionsComplete();
      assert d in Directions && CanChangeNeighborStatus(b, c, d, s);
    }
  }

  /** The legal-move list holds exactly the vacant squares of the board from which some capture line runs. */
  lemma GetAvailableCoordsIff(b: Board, side: Side, c: Coord)
    ensures c in GetAvailableCoords(b, side) <==>
      c in b && b[c] == Vacant && exists d, k :: CaptureLine(b, c, d, PossibleStatus(side), k)
  {
    CanPlaceDiscIff(b, c, side);
  }

  // ---------------------------------------------------------------------
  // Applying captures
  // ---------------------------------------------------------------------

  /** Inside a capture line closed at step `k`, the flipped squares are steps 1 .. k-1. */
  lemma FlipsIff(b: Board, c: Coord, d: Direction, s: Status, k: int, p: Coord)
    requires CaptureLine(b, c, d, s, k)
    ensures Flips(b, c, d, s, p) <==> OnSegment(c, d, k, p)
  {
    if Flips(b, c, d, s, p) {
      var k', i :| CaptureLine(b, c, d, s, k') && 1 <= i < k' && p == Offset(c, d, i);
      AnchorUnique(b, c, d, s, k, k');
    }
  }

  /** Each square strictly inside a capture line is flipped. */
  lemma FlipsInside(b: Board, c: Coord, d: Direction, s: Status, k: int, i: int)
    requires CaptureLine(b, c, d, s, k) && 1 <= i < k
    ensures Flips(b, c, d, s, Offset(c, d, i)) && Captured(b, c, s, Offset(c, d, i))
  {
    assert Flips(b, c, d, s, Offset(c, d, i));
  }

  /** A square no capture line passes through is flipped by nothing. */
  lemma NoLineNoFlips(b: Board, c: Coord, d: Direction, s: Status)
    requires forall k :: !CaptureLine(b, c, d, s, k)
    ensures forall p :: !Flips(b, c, d, s, p)
  {
  }

  /** Flipping the neighbour `n` of `c` leaves the rest of the ray, seen from `n`, as it was seen from `c`. */
  lemma SquareAtAfterUpdate(b: Board, b': Board, c: Coord, d: Direction, s: Status, n: Coord, j: int)
    requires NeighborCoord(c, d) == Some(n) && b' == b[n := s] && j >= 1
    ensures SquareAt(b', n, d, j) == SquareAt(b, c, d, j + 1)
  {
    SquareAtShift(b, c, d, n, j);
    assert Offset(n, d, j) == Offset(c, d, j + 1) != n;
  }

  /** After the neighbour of `c` is flipped, a line closed at step `k` from `c` is closed at step `k - 1` from it. */
  lemma AnchorAfterUpdate(b: Board, b': Board, c: Coord, d: Direction, s: Status, k: int, n: Coord)
    requires CaptureLine(b, c, d, s, k) && k >= 3
    requires NeighborCoord(c, d) == Some(n) && b' == b[n := s]
    ensures CaptureLine(b', n, d, s, k - 1)
  {
    SquareAtAfterUpdate(b, b', c, d, s, n, k - 1);
    forall i | 1 <= i < k - 1 ensures IsOpponent(SquareAt(b', n, d, i), s) {
      SquareAtAfterUpdate(b, b', c, d, s, n, i);
      assert IsOpponent(SquareAt(b, c, d, i + 1), s);
    }
  }

  /** After the only opposing disc of a line is flipped, no line runs from it. */
  lemma NoLineAfterLastFlip(b: Board, b': Board, c: Coord, d: Direction, s: Status, n: Coord)
    requires CaptureLine(b, c, d, s, 2)
    requires NeighborCoord(c, d) == Some(n) && b' == b[n := s]
    ensures forall j :: !CaptureLine(b', n, d, s, j)
  {
    SquareAtAfterUpdate(b, b', c, d, s, n, 1);
    forall j ensures !CaptureLine(b', n, d, s, j) {
      if j >= 2 { assert !IsOpponent(SquareAt(b', n, d, 1), s); }
    }
  }

  /** Square `p` is one of the steps 1 .. k-1 from `c` along `d`. */
  ghost predicate OnSegment(c: Coord, d: Direction, k: int, p: Coord) {
    exists i :: 1 <= i < k && p == Offset(c, d, i)
  }

  /** The segment from the neighbour is the segment from `c` without its first square. */
  lemma SegmentShift(c: Coord, d: Direction, k: int, n: Coord, p: Coord)
    requires n == Offset(c, d, 1)
    ensures OnSegment(n, d, k - 1, p) <==> OnSegment(c, d, k, p) && p != n
  {
    if OnSegment(n, d, k - 1, p) {
      var i :| 1 <= i < k - 1 && p == Offset(n, d, i);
      assert p == Offset(c, d, i + 1);
    }
    if OnSegment(c, d, k, p) && p != n {
      var i :| 1 <= i < k && p == Offset(c, d, i);
      assert p == Offset(n, d, i - 1);
    }
  }

  /** Within a long line, step `i + 1` from `c` is step `i` from its neighbour. */
  lemma FlipsStepLong(b: Board, b': Board, c: Coord, d: Direction, s: Status, k: int, n: Coord, p: Coord)
    requires CaptureLine(b, c, d, s, k) && k >= 3
    requires NeighborCoord(c, d) == Some(n) && b' == b[n := s]
    ensures Flips(b', n, d, s, p) <==> Flips(b, c, d, s, p) && p != n
  {
    AnchorAfterUpdate(b, b', c, d, s, k, n);
    FlipsIff(b, c, d, s, k, p);
    FlipsIff(b', n, d, s, k - 1, p);
    SegmentShift(c, d, k, n, p);
  }

  /**
   * After flipping the neighbour `n` of `c`, the capture line from `n` covers
   * what remains of the line from `c`.
   */
  lemma FlipsStep(b: Board, b': Board, c: Coord, d: Direction, s: Status, k: int, n: Coord, p: Coord)
    requires CaptureLine(b, c, d, s, k)
    requires NeighborCoord(c, d) == Some(n) && b' == b[n := s]
    ensures Flips(b, c, d, s, n)
    ensures Flips(b', n, d, s, p) <==> Flips(b, c, d, s, p) && p != n
  {
    assert n == Offset(c, d, 1);
    FlipsIff(b, c, d, s, k, n);
    if k == 2 {
      NoLineAfterLastFlip(b, b', c, d, s, n);
      NoLineNoFlips(b', n, d, s);
      FlipsIff(b, c, d, s, k, p);
    } else {
      FlipsStepLong(b, b', c, d, s, k, n, p);
    }
  }

  /**
   * `changeNeighborStatus` from a square of colour `s` succeeds and flips to
   * `s` exactly the squares inside the capture line along `d`; every other
   * square, beyond the closing disc included, keeps its status.
   */
  lemma {:induction false} ChangeNeighborStatusFlipsLine(b: Board, c: Coord, d: Direction, s: Status)
    requires GetStatus(b, c) == Some(s)
    ensures ChangeNeighborStatus(b, c, d, s).Ok?
    ensures forall p :: p in b ==>
      ChangeNeighborStatus(b, c, d, s).value[p] == if Flips(b, c, d, s, p) then s else b[p]
    decreases Room(c, d)
  {
    CanChangeNeighborStatusIff(b, c, d, s);
    if !CanChangeNeighborStatus(b, c, d, s) {
      NoLineNoFlips(b, c, d, s);
    } else {
      var n := NeighborCoord(c, d).value;
      var k :| CaptureLine(b, c, d, s, k);
      var b' := b[n := s];
      ChangeNeighborStatusFlipsLine(b', n, d, s);
      forall p | p in b ensures (if Flips(b', n, d, s, p) then s else b'[p]) ==
                                (if Flips(b, c, d, s, p) then s else b[p]) {
        FlipsStep(b, b', c, d, s, k, n, p);
      }
    }
  }

  /** `changeNeighborStatus` fails exactly when its start square does not hold `s`. */
  lemma ChangeNeighborStatusFails(b: Board, c: Coord, d: Direction, s: Status)
    ensures ChangeNeighborStatus(b, c, d, s) == Err(InvalidStatus) <==> GetStatus(b, c) != Some(s)
  {
  }

  /** With no capture line along `d`, `changeNeighborStatus` returns the board unchanged. */
  lemma ChangeNeighborStatusNoLine(b: Board, c: Coord, d: Direction, s: Status)
    requires GetStatus(b, c) == Some(s)
    requires !CanChangeNeighborStatus(b, c, d, s)
    ensures ChangeNeighborStatus(b, c, d, s) == Ok(b)
  {
  }

  /** Square `p` was captured from `c` in a direction that the fold has already visited. */
  ghost predicate Done(b0: Board, c: Coord, s: Status, ds: seq<Direction>, p: Coord) {
    exists d :: d !in ds && Flips(b0, c, d, s, p)
  }

  /** The fold of `placeDisc` flips the capture lines of all directions, each against the original board. */
  lemma {:induction false} ChangeAllFlipsLines(b0: Board, b: Board, c: Coord, ds: seq<Direction>, s: Status)
    requires s != Vacant && c in b0
    requires GetStatus(b, c) == Some(s) && b.Keys == b0.Keys
    requires forall i, j :: 0 <= i < j < |ds| ==> ds[i] != ds[j]
    requires forall p :: p in b0 && p != c ==> b[p] == if Done(b0, c, s, ds, p) then s else b0[p]
    ensures forall p :: p in b0 && p != c ==>
      ChangeAll(b, c, ds, s)[p] == if Captured(b0, c, s, p) then s else b0[p]
    decreases |ds|
  {
    if ds == [] {
      forall p | p in b0 && p != c ensures Done(b0, c, s, ds, p) == Captured(b0, c, s, p) {}
    } else {
      var d := ds[0];
      var next := ChangeNeighborStatus(b, c, d, s).value;
      ChangeNeighborStatusFlipsLine(b, c, d, s);
      // Along `d` the board still agrees with the original.
      forall i | i >= 1 ensures SquareAt(b, c, d, i) == SquareAt(b0, c, d, i) {
        var q := Offset(c, d, i);
        if InRange(q) && q in b0 {
          forall d' | d' !in ds ensures !Flips(b0, c, d', s, q) {
            if Flips(b0, c, d', s, q) {
              var k', i' :| CaptureLine(b0, c, d', s, k') && 1 <= i' < k' && q == Offset(c, d', i');
              RaysDisjoint(c, d, d', i, i');
            }
          }
          assert q != c;
        }
      }
      forall p | p in b0 && p != c
        ensures next[p] == if Done(b0, c, s, ds[1..], p) then s else b0[p]
      {
        FlipsSameRay(b, b0, c, d, s, p);
        assert d !in ds[1..] by {
          forall j | 0 <= j < |ds[1..]| ensures ds[1..][j] != d { assert ds[j + 1] != ds[0]; }
        }
        if Done(b0, c, s, ds[1..], p) && !Flips(b0, c, d, s, p) {
          var d' :| d' !in ds[1..] && Flips(b0, c, d', s, p);
          assert d' !in ds;
        }
        if Done(b0, c, s, ds, p) {
          var d' :| d' !in ds && Flips(b0, c, d', s, p);
          assert d' !in ds[1..];
        }
      }
      assert forall i, j :: 0 <= i < j < |ds[1..]| ==> ds[1..][i] != ds[1..][j] by {
        forall i, j | 0 <= i < j < |ds[1..]| ensures ds[1..][i] != ds[1..][j] {
          assert ds[i + 1] != ds[j + 1];
        }
      }
      ChangeAllFlipsLines(b0, next, c, ds[1..], s);
    }
  }

  /**
   * A legal `placeDisc` gives the target the mover's colour, flips every
   * square inside a capture line from the target, and leaves every other
   * square as it was.
   */
  lemma PlaceDiscSpec(b: Board, c: Coord, side: Side)
    requires CanPlaceDisc(b, c, side)
    ensures c in PlaceDisc(b, c, side) && PlaceDisc(b, c, side)[c] == PossibleStatus(side)
    ensures forall p :: p in b && p != c ==>
      PlaceDisc(b, c, side)[p] == if Captured(b, c, PossibleStatus(side), p) then PossibleStatus(side) else b[p]
  {
    var s := PossibleStatus(side);
    DirectionsComplete();
    forall p | p in b && p != c ensures b[c := s][p] == if Done(b, c, s, Directions, p) then s else b[p] {}
    ChangeAllFlipsLines(b, b[c := s], c, Directions, s);
  }

  /** A legal `placeDisc` gives the target square the mover's colour. */
  lemma PlaceDiscTarget(b: Board, c: Coord, side: Side)
    requires CanPlaceDisc(b, c, side)
    ensures c in PlaceDisc(b, c, side) && PlaceDisc(b, c, side)[c] == PossibleStatus(side)
  {
  }

  /** `PlaceDiscSpec` at a single square. */
  lemma PlaceDiscAt(b: Board, c: Coord, side: Side, p: Coord)
    requires CanPlaceDisc(b, c, side) && p in b && p != c
    ensures PlaceDisc(b, c, side)[p] == if Captured(b, c, PossibleStatus(side), p) then PossibleStatus(side) else b[p]
  {
    PlaceDiscSpec(b, c, side);
  }

  /** Every flipped square held an opposing disc before the move. */
  lemma CapturedWasOpponent(b: Board, c: Coord, s: Status, p: Coord)
    requires Captured(b, c, s, p)
    ensures p in b && p != c && IsOpponent(Some(b[p]), s)
  {
    var d :| Flips(b, c, d, s, p);
    var k, i :| CaptureLine(b, c, d, s, k) && 1 <= i < k && p == Offset(c, d, i);
    assert IsOpponent(SquareAt(b, c, d, i), s);
  }

  /**
   * `placeDisc` only ever turns opposing discs into the mover's colour, apart
   * from the target square; in particular vacant squares stay vacant.
   */
  lemma PlaceDiscOnlyFlipsOpponents(b: Board, c: Coord, side: Side, p: Coord)
    requires p in b && p != c
    requires PlaceDisc(b, c, side)[p] != b[p]
    ensures CanPlaceDisc(b, c, side)
    ensures IsOpponent(Some(b[p]), PossibleStatus(side)) && PlaceDisc(b, c, side)[p] == PossibleStatus(side)
  {
    PlaceDiscSpec(b, c, side);
    if Captured(b, c, PossibleStatus(side), p) {
      CapturedWasOpponent(b, c, PossibleStatus(side), p);
    }
  }

  /** A legal `placeDisc` flips at least one opposing disc. */
  lemma PlaceDiscFlipsSome(b: Board, c: Coord, side: Side)
    requires CanPlaceDisc(b, c, side)
    ensures exists p :: (p in b && p != c && IsOpponent(Some(b[p]), PossibleStatus(side)) &&
      PlaceDisc(b, c, side)[p] == PossibleStatus(side))
  {
    var s := PossibleStatus(side);
    CanPlaceDiscIff(b, c, side);
    var d, k :| CaptureLine(b, c, d, s, k);
    var p := Offset(c, d, 1);
    FlipsInside(b, c, d, s, k, 1);
    CapturedWasOpponent(b, c, s, p);
    PlaceDiscSpec(b, c, side);
  }
}
