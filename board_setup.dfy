/**
 * The starting position of utils/board-setup.ts (server.js builds the same
 * one): every colour gets its back rank rook, knight, bishop, queen, king,
 * bishop, knight, rook and eight pawns on its own arm of the cross.
 */
module BoardSetup {
  import opened ChessTypes
  import opened MoveRules
  import opened MoveRulesLemmas

  const BACK_PIECES: seq<Kind> := [Rook, Knight, Bishop, Queen, King, Bishop, Knight, Rook]

  /** Square of the i-th back-rank piece: yellow row 0, blue col 0, red row 13, green col 13. */
  function BackSquare(color: Color, i: int): Pos
  {
    match color
    case Yellow => Pos(0, 3 + i)
    case Blue => Pos(3 + i, 0)
    case Red => Pos(13, 3 + i)
    case Green => Pos(3 + i, 13)
  }

  /** Square of the i-th pawn: yellow row 1, blue col 1, red row 12, green col 12. */
  function PawnSquare(color: Color, i: int): Pos
  {
    match color
    case Yellow => Pos(1, 3 + i)
    case Blue => Pos(3 + i, 1)
    case Red => Pos(12, 3 + i)
    case Green => Pos(3 + i, 12)
  }

  /** The two lines of eight squares a colour starts on. */
  predicate IsHomeSquare(color: Color, q: Pos)
  {
    match color
    case Yellow => (q.row == 0 || q.row == 1) && 3 <= q.col <= 10
    case Blue => (q.col == 0 || q.col == 1) && 3 <= q.row <= 10
    case Red => (q.row == 13 || q.row == 12) && 3 <= q.col <= 10
    case Green => (q.col == 13 || q.col == 12) && 3 <= q.row <= 10
  }

  /** The starting content of each square, spelled out arm by arm. */
  function InitialSquare(q: Pos): Square
  {
    if 3 <= q.col <= 10 && q.row == 0 then Some(Piece(BACK_PIECES[q.col - 3], Yellow, false))
    else if 3 <= q.col <= 10 && q.row == 1 then Some(Piece(Pawn, Yellow, false))
    else if 3 <= q.row <= 10 && q.col == 0 then Some(Piece(BACK_PIECES[q.row - 3], Blue, false))
    else if 3 <= q.row <= 10 && q.col == 1 then Some(Piece(Pawn, Blue, false))
    else if 3 <= q.col <= 10 && q.row == 13 then Some(Piece(BACK_PIECES[q.col - 3], Red, false))
    else if 3 <= q.col <= 10 && q.row == 12 then Some(Piece(Pawn, Red, false))
    else if 3 <= q.row <= 10 && q.col == 13 then Some(Piece(BACK_PIECES[q.row - 3], Green, false))
    else if 3 <= q.row <= 10 && q.col == 12 then Some(Piece(Pawn, Green, false))
    else None
  }

  function InitialBoard(): Board
  {
    seq(14, r => seq(14, c => InitialSquare(Pos(r, c))))
  }

  /**
   * setupYellowPieces, setupBluePieces, setupRedPieces and setupGreenPieces:
   * the back rank in order, then the pawns; nothing outside the colour's two
   * home lines is touched.
   */
  method SetupPieces(b: Board, color: Color) returns (r: Board)
    ensures forall i | 0 <= i < 8 ::
      At(r, BackSquare(color, i)) == Some(Piece(BACK_PIECES[i], color, false))
      && At(r, PawnSquare(color, i)) == Some(Piece(Pawn, color, false))
    ensures forall q | InGrid(q) && !IsHomeSquare(color, q) :: At(r, q) == At(b, q)
  {
    r := b;
    for i := 0 to 8
      invariant forall j | 0 <= j < i :: At(r, BackSquare(color, j)) == Some(Piece(BACK_PIECES[j], color, false))
      invariant forall q | InGrid(q) && !IsHomeSquare(color, q) :: At(r, q) == At(b, q)
    {
      r := Put(r, BackSquare(color, i), Some(Piece(BACK_PIECES[i], color, false)));
    }
    for i := 0 to 8
      invariant forall j | 0 <= j < 8 :: At(r, BackSquare(color, j)) == Some(Piece(BACK_PIECES[j], color, false))
      invariant forall j | 0 <= j < i :: At(r, PawnSquare(color, j)) == Some(Piece(Pawn, color, false))
      invariant forall q | InGrid(q) && !IsHomeSquare(color, q) :: At(r, q) == At(b, q)
    {
      r := Put(r, PawnSquare(color, i), Some(Piece(Pawn, color, false)));
    }
  }

  /** initializeBoard: an empty 14x14 grid, then yellow, blue, red and green set up in turn. */
  method InitializeBoard() returns (b: Board)
    ensures b == InitialBoard()
  {
    b := EmptyBoard();
    var yellow := SetupPieces(b, Yellow);
    var blue := SetupPieces(yellow, Blue);
    var red := SetupPieces(blue, Red);
    var green := SetupPieces(red, Green);
    b := green;
    forall q | InGrid(q)
      ensures At(b, q) == InitialSquare(q)
    {
      SquareSetUp(yellow, blue, red, green, q);
    }
    BoardExt(b, InitialBoard());
  }

  lemma SquareSetUp(yellow: Board, blue: Board, red: Board, green: Board, q: Pos)
    requires InGrid(q)
    requires forall q | InGrid(q) && !IsHomeSquare(Yellow, q) :: At(yellow, q) == None
    requires forall i | 0 <= i < 8 ::
      At(yellow, BackSquare(Yellow, i)) == Some(Piece(BACK_PIECES[i], Yellow, false))
      && At(yellow, PawnSquare(Yellow, i)) == Some(Piece(Pawn, Yellow, false))
    requires forall i | 0 <= i < 8 ::
      At(blue, BackSquare(Blue, i)) == Some(Piece(BACK_PIECES[i], Blue, false))
      && At(blue, PawnSquare(Blue, i)) == Some(Piece(Pawn, Blue, false))
    requires forall q | InGrid(q) && !IsHomeSquare(Blue, q) :: At(blue, q) == At(yellow, q)
    requires forall i | 0 <= i < 8 ::
      At(red, BackSquare(Red, i)) == Some(Piece(BACK_PIECES[i], Red, false))
      && At(red, PawnSquare(Red, i)) == Some(Piece(Pawn, Red, false))
    requires forall q | InGrid(q) && !IsHomeSquare(Red, q) :: At(red, q) == At(blue, q)
    requires forall i | 0 <= i < 8 ::
      At(green, BackSquare(Green, i)) == Some(Piece(BACK_PIECES[i], Green, false))
      && At(green, PawnSquare(Green, i)) == Some(Piece(Pawn, Green, false))
    requires forall q | InGrid(q) && !IsHomeSquare(Green, q) :: At(green, q) == At(red, q)
    ensures At(green, q) == InitialSquare(q)
  {
    if IsHomeSquare(Yellow, q) {
      var i := q.col - 3;
      assert q == BackSquare(Yellow, i) || q == PawnSquare(Yellow, i);
    } else if IsHomeSquare(Blue, q) {
      var i := q.row - 3;
      assert q == BackSquare(Blue, i) || q == PawnSquare(Blue, i);
    } else if IsHomeSquare(Red, q) {
      var i := q.col - 3;
      assert q == BackSquare(Red, i) || q == PawnSquare(Red, i);
    } else if IsHomeSquare(Green, q) {
      var i := q.row - 3;
      assert q == BackSquare(Green, i) || q == PawnSquare(Green, i);
    }
  }

  /** Two boards that agree on every square are equal. */
  lemma BoardExt(a: Board, b: Board)
    requires forall q | InGrid(q) :: At(a, q) == At(b, q)
    ensures a == b
  {
    forall r | 0 <= r < 14
      ensures a[r] == b[r]
    {
      assert forall c | 0 <= c < 14 :: a[r][c] == At(a, Pos(r, c));
    }
  }

  // --------------------------------------------------- the starting position

  function KingSquare(color: Color): Pos
  {
    match color
    case Yellow => Pos(0, 7)
    case Blue => Pos(7, 0)
    case Red => Pos(13, 7)
    case Green => Pos(7, 13)
  }

  /** Every colour has exactly one king, on its fixed square, and findKingPosition finds it. */
  lemma OneKingEach(color: Color)
    ensures forall q | InGrid(q) :: IsKingOf(At(InitialBoard(), q), color) <==> q == KingSquare(color)
    ensures FindKing(InitialBoard(), color) == Some(KingSquare(color))
  {
    var b := InitialBoard();
    forall q | InGrid(q)
      ensures IsKingOf(At(b, q), color) <==> q == KingSquare(color)
    {
      assert At(b, q) == InitialSquare(q);
    }
    assert IsKingOf(At(b, KingSquare(color)), color);
  }

  /** Pieces stand only on the cross, none has moved, and pawns start on the lines that allow the double step. */
  lemma StartingSquaresSound()
    ensures CrossOnly(InitialBoard())
    ensures forall q | InGrid(q) && At(InitialBoard(), q).Some? :: !At(InitialBoard(), q).value.hasMoved
    ensures forall q | InGrid(q) && At(InitialBoard(), q).Some? && At(InitialBoard(), q).value.kind == Pawn ::
      OnPawnHome(q, At(InitialBoard(), q).value.color)
  {
    var b := InitialBoard();
    forall q | InGrid(q)
      ensures At(b, q) == InitialSquare(q)
    {
    }
  }

  /** The sixteen home squares of a colour: the back rank in order, then the pawns. */
  function HomeSquares(color: Color): (s: seq<Pos>)
    ensures |s| == 16
  {
    seq(8, i => BackSquare(color, i)) + seq(8, i => PawnSquare(color, i))
  }

  /** The squares holding a piece of `color`. */
  function PiecesOf(b: Board, color: Color): set<Pos>
  {
    set r, c | 0 <= r < 14 && 0 <= c < 14 && IsPieceOf(b[r][c], color) :: Pos(r, c)
  }

  /** Each colour starts with exactly sixteen pieces, on its home squares. */
  lemma SixteenPiecesEach(color: Color)
    ensures PiecesOf(InitialBoard(), color) == set q | q in HomeSquares(color)
    ensures |PiecesOf(InitialBoard(), color)| == 16
  {
    HomeSquaresOccupied(color);
    OnlyHomeSquaresOccupied(color);
    var home := HomeSquares(color);
    assert forall i, j | 0 <= i < j < 16 :: home[i] != home[j];
    DistinctCard(home);
  }

  lemma HomeSquaresOccupied(color: Color)
    ensures forall q | q in HomeSquares(color) :: q in PiecesOf(InitialBoard(), color)
  {
    var b := InitialBoard();
    var home := HomeSquares(color);
    forall q | q in home
      ensures q in PiecesOf(b, color)
    {
      var i :| 0 <= i < 16 && home[i] == q;
      assert q == (if i < 8 then BackSquare(color, i) else PawnSquare(color, i - 8));
      assert InGrid(q) && b[q.row][q.col] == InitialSquare(q);
    }
  }

  lemma OnlyHomeSquaresOccupied(color: Color)
    ensures forall q | q in PiecesOf(InitialBoard(), color) :: q in HomeSquares(color)
  {
    var b := InitialBoard();
    var home := HomeSquares(color);
    forall q | q in PiecesOf(b, color)
      ensures q in home
    {
      assert b[q.row][q.col] == InitialSquare(q);
      var i := if color == Yellow || color == Red then q.col - 3 else q.row - 3;
      if q == BackSquare(color, i) {
        assert home[i] == q;
      } else {
        assert q == PawnSquare(color, i) && home[8 + i] == q;
      }
    }
  }

  lemma {:induction false} DistinctCard(s: seq<Pos>)
    requires forall i, j | 0 <= i < j < |s| :: s[i] != s[j]
    ensures |set x | x in s| == |s|
  {
    if s != [] {
      var t := s[..|s| - 1];
      DistinctCard(t);
      assert (set x | x in s) == (set x | x in t) + {s[|s| - 1]};
    }
  }
}
