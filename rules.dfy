/**
 * The rules engine of utils/move-calculator.ts and utils/game-logic.ts, and of
 * their copies in server.js, as functions on board values: the cross-shaped
 * board, the pseudo-legal generators (in the order the source pushes their
 * moves), castling, the attack oracle, the king lookup and the legal-move
 * filter. The imperative versions in module MoveCalculator are proved equal
 * to these functions.
 */
module MoveRules {
  import opened ChessTypes

  /** Which copy of the legal-move filter is in use. */
  datatype Engine =
    | Utils     // utils/move-calculator.ts: castling offered, a move that loses the king is discarded
    | ServerJs  // server.js: no castling, a move after which no king is found is kept

  // ---------------------------------------------------------------- geometry

  /**
   * The playable cross: the 14x14 grid without its four 3x3 corners (the
   * lemma PlayableSquareForm restates this as the source's three bands).
   */
  predicate IsValidPosition(p: Pos)
  {
    InGrid(p) && (3 <= p.row <= 10 || 3 <= p.col <= 10)
  }

  /** isValidPosition as written: in the grid, then a top arm, a full middle band or a bottom arm. */
  lemma PlayableSquareForm(p: Pos)
    ensures IsValidPosition(p) <==>
      if p.row < 0 || p.row >= 14 || p.col < 0 || p.col >= 14 then false
      else
        (0 <= p.row <= 2 && 3 <= p.col <= 10)
        || (3 <= p.row <= 10 && 0 <= p.col <= 13)
        || (11 <= p.row <= 13 && 3 <= p.col <= 10)
  {
  }

  predicate IsDirection(d: Dir)
  {
    -1 <= d.dr <= 1 && -1 <= d.dc <= 1 && d != Dir(0, 0)
  }

  const ROOK_DIRS: seq<Dir> := [Dir(-1, 0), Dir(1, 0), Dir(0, -1), Dir(0, 1)]
  const BISHOP_DIRS: seq<Dir> := [Dir(-1, -1), Dir(-1, 1), Dir(1, -1), Dir(1, 1)]
  const KNIGHT_OFFSETS: seq<Dir> :=
    [Dir(-2, -1), Dir(-2, 1), Dir(-1, -2), Dir(-1, 2), Dir(1, -2), Dir(1, 2), Dir(2, -1), Dir(2, 1)]
  const KING_OFFSETS: seq<Dir> :=
    [Dir(-1, -1), Dir(-1, 0), Dir(-1, 1), Dir(0, -1), Dir(0, 1), Dir(1, -1), Dir(1, 0), Dir(1, 1)]

  // ------------------------------------------------------------------- pawns

  /** Yellow advances down the rows, red up, blue right along the columns, green left. */
  function PawnDir(color: Color): Dir
  {
    match color
    case Yellow => Dir(1, 0)
    case Red => Dir(-1, 0)
    case Blue => Dir(0, 1)
    case Green => Dir(0, -1)
  }

  /** The home rank or file from which a two-square advance is allowed. */
  predicate OnPawnHome(p: Pos, color: Color)
  {
    match color
    case Yellow => p.row == 1
    case Red => p.row == 12
    case Blue => p.col == 1
    case Green => p.col == 12
  }

  /** The two capture steps, diagonal relative to the colour's advance. */
  function PawnCaptureDirs(color: Color): seq<Dir>
  {
    var d := PawnDir(color);
    if color == Yellow || color == Red then [Dir(d.dr, -1), Dir(d.dr, 1)]
    else [Dir(-1, d.dc), Dir(1, d.dc)]
  }

  function PawnPushes(b: Board, p: Pos, color: Color): (r: seq<Pos>)
  {
    var d := PawnDir(color);
    var one := Shift(p, d);
    var two := Pos(p.row + 2 * d.dr, p.col + 2 * d.dc);
    if IsValidPosition(one) && At(b, one).None? then
      [one] + (if OnPawnHome(p, color) && IsValidPosition(two) && At(b, two).None? then [two] else [])
    else []
  }

  /** A diagonal pawn target: kept only when it holds a piece of another colour. */
  function CaptureAt(b: Board, q: Pos, color: Color): (r: seq<Pos>)
  {
    if IsValidPosition(q) && At(b, q).Some? && At(b, q).value.color != color then [q] else []
  }

  function PawnCaptures(b: Board, p: Pos, color: Color, dirs: seq<Dir>): (r: seq<Pos>)
  {
    if dirs == [] then []
    else PawnCaptures(b, p, color, dirs[..|dirs| - 1]) + CaptureAt(b, Shift(p, dirs[|dirs| - 1]), color)
  }

  function PawnMoves(b: Board, p: Pos, color: Color): (r: seq<Pos>)
  {
    PawnPushes(b, p, color) + PawnCaptures(b, p, color, PawnCaptureDirs(color))
  }

  // -------------------------------------------------------- sliding pieces

  /** Bounds the walk: how many more steps along `d` can stay inside the grid. */
  function RayBudget(p: Pos, d: Dir): nat
  {
    var n :=
      if d.dr > 0 then 14 - p.row
      else if d.dr < 0 then p.row + 1
      else if d.dc > 0 then 14 - p.col
      else p.col + 1;
    if n < 0 then 0 else n
  }

  /**
   * The squares a slider reaches from `cur` on, walking along `d`: empty
   * squares are taken, the first occupied square ends the walk and is taken
   * only when it holds a piece of another colour.
   */
  function Ray(b: Board, cur: Pos, d: Dir, color: Color): (r: seq<Pos>)
    requires IsDirection(d)
    decreases RayBudget(cur, d)
  {
    if !IsValidPosition(cur) then []
    else match At(b, cur)
      case None => [cur] + Ray(b, Shift(cur, d), d, color)
      case Some(q) => if q.color != color then [cur] else []
  }

  predicate AllDirections(dirs: seq<Dir>)
  {
    forall i :: 0 <= i < |dirs| ==> IsDirection(dirs[i])
  }

  function Rays(b: Board, p: Pos, color: Color, dirs: seq<Dir>): (r: seq<Pos>)
    requires AllDirections(dirs)
  {
    if dirs == [] then []
    else
      var d := dirs[|dirs| - 1];
      Rays(b, p, color, dirs[..|dirs| - 1]) + Ray(b, Shift(p, d), d, color)
  }

  // ------------------------------------------------------ knights and kings

  /** A knight or king target: kept when valid and not holding a piece of the mover's colour. */
  function LeapTo(b: Board, q: Pos, color: Color): (r: seq<Pos>)
  {
    if IsValidPosition(q) && (At(b, q).None? || At(b, q).value.color != color) then [q] else []
  }

  function Leaps(b: Board, p: Pos, color: Color, offsets: seq<Dir>): (r: seq<Pos>)
  {
    if offsets == [] then []
    else Leaps(b, p, color, offsets[..|offsets| - 1]) + LeapTo(b, Shift(p, offsets[|offsets| - 1]), color)
  }

  // ------------------------------------- generators, castling, attack oracle

  /**
   * getAvailableMovesWithoutCheckValidation: the pseudo-legal moves of the
   * piece on `p`, castling included only when `castling` is set.
   */
  function Generate(b: Board, p: Pos, castling: bool): (r: seq<Pos>)
    requires InGrid(p)
    decreases if castling then 1 else 0, 3
  {
    match At(b, p)
    case None => []
    case Some(piece) =>
      match piece.kind
      case Pawn => PawnMoves(b, p, piece.color)
      case Rook => Rays(b, p, piece.color, ROOK_DIRS)
      case Knight => Leaps(b, p, piece.color, KNIGHT_OFFSETS)
      case Bishop => Rays(b, p, piece.color, BISHOP_DIRS)
      case Queen => Rays(b, p, piece.color, ROOK_DIRS) + Rays(b, p, piece.color, BISHOP_DIRS)
      case King => KingMoves(b, p, piece.color, castling)
  }

  function KingMoves(b: Board, p: Pos, color: Color, castling: bool): (r: seq<Pos>)
    requires InGrid(p)
    decreases if castling then 1 else 0, 2
  {
    Leaps(b, p, color, KING_OFFSETS)
    + (if castling && At(b, p).Some? && !At(b, p).value.hasMoved then CastlingMoves(b, p, color) else [])
  }

  /** Castling is never offered from a square that is attacked. */
  function CastlingMoves(b: Board, p: Pos, color: Color): (r: seq<Pos>)
    requires InGrid(p)
    decreases 1, 1
  {
    if UnderAttack(b, p, color) then []
    else KingSideCastle(b, p, color) + QueenSideCastle(b, p, color)
  }

  predicate IsCastlingRook(s: Square, color: Color)
  {
    s.Some? && s.value.kind == Rook && s.value.color == color && !s.value.hasMoved
  }

  /** Every column in [lo, hi) of `row` is empty. */
  predicate RowEmpty(b: Board, row: int, lo: int, hi: int)
    requires 0 <= row < 14 && 0 <= lo && hi <= 14
  {
    forall c :: lo <= c < hi ==> b[row][c].None?
  }

  /** No column in [lo, hi] of `row` is attacked. */
  predicate NoneAttacked(b: Board, row: int, lo: int, hi: int, color: Color)
    decreases 0, 7
  {
    forall c :: lo <= c <= hi ==> !UnderAttack(b, Pos(row, c), color)
  }

  /** The rook is searched three columns to the right, for every colour. */
  function KingSideCastle(b: Board, p: Pos, color: Color): (r: seq<Pos>)
    requires InGrid(p)
    decreases 1, 0
  {
    var rookCol := p.col + 3;
    if IsValidPosition(Pos(p.row, rookCol))
       && IsCastlingRook(At(b, Pos(p.row, rookCol)), color)
       && RowEmpty(b, p.row, p.col + 1, rookCol)
       && NoneAttacked(b, p.row, p.col, p.col + 2, color)
    then [Pos(p.row, p.col + 2)]
    else []
  }

  /** The rook is searched four columns to the left, for every colour. */
  function QueenSideCastle(b: Board, p: Pos, color: Color): (r: seq<Pos>)
    requires InGrid(p)
    decreases 1, 0
  {
    var rookCol := p.col - 4;
    if IsValidPosition(Pos(p.row, rookCol))
       && IsCastlingRook(At(b, Pos(p.row, rookCol)), color)
       && RowEmpty(b, p.row, rookCol + 1, p.col)
       && NoneAttacked(b, p.row, p.col - 2, p.col, color)
    then [Pos(p.row, p.col - 2)]
    else []
  }

  /** The piece on `q` belongs to another colour and has `target` among its pseudo-legal moves. */
  predicate AttacksFrom(b: Board, q: Pos, target: Pos, color: Color)
    requires InGrid(q)
    decreases 0, 5
  {
    At(b, q).Some? && At(b, q).value.color != color && target in Generate(b, q, false)
  }

  /** isPositionUnderAttack: some piece of another colour can move to `target`. */
  predicate UnderAttack(b: Board, target: Pos, color: Color)
    decreases 0, 6
  {
    exists r, c | 0 <= r < 14 && 0 <= c < 14 :: AttacksFrom(b, Pos(r, c), target, color)
  }

  // ------------------------------------------------------------ king lookup

  predicate RowMajorBefore(a: Pos, b: Pos)
  {
    a.row < b.row || (a.row == b.row && a.col < b.col)
  }

  /** Scans the grid in row-major order from (r, c) for a king of `color`. */
  function FindKingFrom(b: Board, color: Color, r: nat, c: nat): (k: Option<Pos>)
    requires r <= 14 && c <= 14
    ensures k.None? ==> forall q :: InGrid(q) && (RowMajorBefore(Pos(r, c), q) || q == Pos(r, c)) ==> !IsKingOf(At(b, q), color)
    ensures k.Some? ==>
      && InGrid(k.value) && IsKingOf(At(b, k.value), color)
      && (RowMajorBefore(Pos(r, c), k.value) || k.value == Pos(r, c))
      && forall q :: InGrid(q) && (RowMajorBefore(Pos(r, c), q) || q == Pos(r, c)) && RowMajorBefore(q, k.value) ==> !IsKingOf(At(b, q), color)
    decreases 14 - r, 14 - c
  {
    if r == 14 then None
    else if c == 14 then FindKingFrom(b, color, r + 1, 0)
    else if IsKingOf(At(b, Pos(r, c)), color) then Some(Pos(r, c))
    else FindKingFrom(b, color, r, c + 1)
  }

  /** findKingPosition: the first king of `color` in row-major order, if any. */
  function FindKing(b: Board, color: Color): (k: Option<Pos>)
    ensures k.None? <==> forall q :: InGrid(q) ==> !IsKingOf(At(b, q), color)
    ensures k.Some? ==>
      && InGrid(k.value) && IsKingOf(At(b, k.value), color)
      && forall q :: InGrid(q) && RowMajorBefore(q, k.value) ==> !IsKingOf(At(b, q), color)
  {
    FindKingFrom(b, color, 0, 0)
  }

  // ------------------------------------------------------ legal-move filter

  /**
   * The scratch board of the filter: the piece moved to `to` and `from`
   * emptied; with castling simulation on, a king move of two columns also
   * moves the rook from col+3 to col+1 or from col-4 to col-1. (A generated
   * castling move always has its rook columns inside the grid; the guard
   * only keeps this function total.)
   */
  function Simulate(b: Board, from: Pos, to: Pos, piece: Piece, castling: bool): Board
    requires InGrid(from) && InGrid(to)
  {
    var moved := Put(Put(b, to, Some(piece)), from, None);
    if castling && piece.kind == King && Abs(to.col - from.col) == 2 then
      var kingSide := to.col > from.col;
      var rookCol := if kingSide then from.col + 3 else from.col - 4;
      var rookNewCol := if kingSide then from.col + 1 else from.col - 1;
      if 0 <= rookCol < 14 && 0 <= rookNewCol < 14 then
        var withRook := Put(moved, Pos(from.row, rookNewCol), At(moved, Pos(from.row, rookCol)));
        Put(withRook, Pos(from.row, rookCol), None)
      else moved
    else moved
  }

  /** The filter's test: after the simulated move the mover's king is not attacked. */
  predicate Safe(e: Engine, b: Board, from: Pos, piece: Piece, to: Pos)
    requires InGrid(from) && InGrid(to)
  {
    var nb := Simulate(b, from, to, piece, e == Utils);
    match FindKing(nb, piece.color)
    case None => e == ServerJs
    case Some(k) => !UnderAttack(nb, k, piece.color)
  }

  function FilterSafe(e: Engine, b: Board, from: Pos, piece: Piece, ms: seq<Pos>): (r: seq<Pos>)
    requires InGrid(from) && forall m | m in ms :: InGrid(m)
  {
    if ms == [] then []
    else
      var m := ms[|ms| - 1];
      FilterSafe(e, b, from, piece, ms[..|ms| - 1]) + (if Safe(e, b, from, piece, m) then [m] else [])
  }

  /** getAvailableMoves: the pseudo-legal moves (with castling in the Utils engine) that pass Safe. */
  function Legal(e: Engine, b: Board, p: Pos): seq<Pos>
    requires InGrid(p)
  {
    match At(b, p)
    case None => []
    case Some(piece) =>
      GeneratedInGrid(b, p, e == Utils);
      FilterSafe(e, b, p, piece, Generate(b, p, e == Utils))
  }

  // ------------------------------------------- generated squares are in grid

  lemma {:induction false} RayInGrid(b: Board, cur: Pos, d: Dir, color: Color)
    requires IsDirection(d)
    ensures forall m | m in Ray(b, cur, d, color) :: IsValidPosition(m)
    decreases RayBudget(cur, d)
  {
    if IsValidPosition(cur) && At(b, cur).None? {
      RayInGrid(b, Shift(cur, d), d, color);
    }
  }

  lemma {:induction false} RaysInGrid(b: Board, p: Pos, color: Color, dirs: seq<Dir>)
    requires AllDirections(dirs)
    ensures forall m | m in Rays(b, p, color, dirs) :: IsValidPosition(m)
  {
    if dirs != [] {
      var d := dirs[|dirs| - 1];
      RaysInGrid(b, p, color, dirs[..|dirs| - 1]);
      RayInGrid(b, Shift(p, d), d, color);
    }
  }

  lemma {:induction false} LeapsInGrid(b: Board, p: Pos, color: Color, offsets: seq<Dir>)
    ensures forall m | m in Leaps(b, p, color, offsets) :: IsValidPosition(m)
  {
    if offsets != [] {
      LeapsInGrid(b, p, color, offsets[..|offsets| - 1]);
    }
  }

  lemma {:induction false} PawnCapturesInGrid(b: Board, p: Pos, color: Color, dirs: seq<Dir>)
    ensures forall m | m in PawnCaptures(b, p, color, dirs) :: IsValidPosition(m)
  {
    if dirs != [] {
      PawnCapturesInGrid(b, p, color, dirs[..|dirs| - 1]);
    }
  }

  /** Every generated destination lies inside the 14x14 grid. */
  lemma GeneratedInGrid(b: Board, p: Pos, castling: bool)
    requires InGrid(p)
    ensures forall m | m in Generate(b, p, castling) :: InGrid(m)
  {
    match At(b, p)
    case None =>
    case Some(piece) =>
      var color := piece.color;
      match piece.kind
      case Pawn => PawnCapturesInGrid(b, p, color, PawnCaptureDirs(color));
      case Rook => RaysInGrid(b, p, color, ROOK_DIRS);
      case Knight => LeapsInGrid(b, p, color, KNIGHT_OFFSETS);
      case Bishop => RaysInGrid(b, p, color, BISHOP_DIRS);
      case Queen =>
        RaysInGrid(b, p, color, ROOK_DIRS);
        RaysInGrid(b, p, color, BISHOP_DIRS);
      case King =>
        LeapsInGrid(b, p, color, KING_OFFSETS);
        assert forall m | m in CastlingMoves(b, p, color) :: InGrid(m);
  }
}
