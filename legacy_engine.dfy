/**
 * The loops of components/chess-board.tsx: the generators push into the
 * move list they are given, the sliders walk with a while loop, the attack
 * scan and the king scan run over the 8x8 board in row-major order, the
 * legal filter builds a scratch board per candidate, and the status effect
 * looks for a legal move with early exits. Each method is proved to compute
 * the matching function of LegacyRules.
 */
module LegacyEngine {
  import opened ChessTypes
  import opened LegacyRules
  import MoveRules

  lemma RaysStep(b: Board8, p: Pos, side: Side, dirs: seq<Dir>, i: int)
    requires MoveRules.AllDirections(dirs) && 0 <= i < |dirs|
    ensures MoveRules.AllDirections(dirs[..i + 1])
    ensures Rays(b, p, side, dirs[..i + 1]) == Rays(b, p, side, dirs[..i]) + Ray(b, Shift(p, dirs[i]), dirs[i], side)
  {
    assert dirs[..i + 1][..i] == dirs[..i];
  }

  lemma LeapsStep(b: Board8, p: Pos, side: Side, offsets: seq<Dir>, i: int)
    requires 0 <= i < |offsets|
    ensures Leaps(b, p, side, offsets[..i + 1]) == Leaps(b, p, side, offsets[..i]) + LeapTo(b, Shift(p, offsets[i]), side)
  {
    assert offsets[..i + 1][..i] == offsets[..i];
  }

  lemma FilterStep(b: Board8, from: Pos, piece: LegacyPiece, ms: seq<Pos>, i: int)
    requires OnBoard(from) && (forall m | m in ms :: OnBoard(m)) && 0 <= i < |ms|
    ensures FilterSafe(b, from, piece, ms[..i + 1])
      == FilterSafe(b, from, piece, ms[..i]) + (if Safe(b, from, piece, ms[i]) then [ms[i]] else [])
  {
    assert ms[..i + 1][..i] == ms[..i];
  }

  /** getPawnMoves: one step, two from the start row, then the two diagonal captures. */
  method AddPawnMoves(b: Board8, p: Pos, side: Side, moves: seq<Pos>) returns (out: seq<Pos>)
    requires OnBoard(p)
    ensures out == moves + PawnMoves(b, p, side)
  {
    var direction := if side == White then -1 else 1;
    out := AddPawnPushes(b, p, side, moves);
    // the forEach over the two capture squares, left then right
    var pushed := out;
    var left := Pos(p.row + direction, p.col - 1);
    var right := Pos(p.row + direction, p.col + 1);
    out := AddCapture(b, left, side, out);
    out := AddCapture(b, right, side, out);
    AppendAssoc(pushed, CaptureAt(b, left, side), CaptureAt(b, right, side));
    AppendAssoc(moves, PawnPushes(b, p, side), CaptureAt(b, left, side) + CaptureAt(b, right, side));
    AppendAssoc(PawnPushes(b, p, side), CaptureAt(b, left, side), CaptureAt(b, right, side));
  }

  /** The forward part of getPawnMoves. */
  method AddPawnPushes(b: Board8, p: Pos, side: Side, moves: seq<Pos>) returns (out: seq<Pos>)
    requires OnBoard(p)
    ensures out == moves + PawnPushes(b, p, side)
  {
    var row, col := p.row, p.col;
    var direction := if side == White then -1 else 1;
    var startRow := if side == White then 6 else 1;
    out := moves;
    if row + direction >= 0 && row + direction < 8 && b[row + direction][col].None? {
      out := out + [Pos(row + direction, col)];
      if row == startRow && b[row + 2 * direction][col].None? {
        out := out + [Pos(row + 2 * direction, col)];
      }
    }
  }

  /** One capture square of getPawnMoves: pushed when on the board and holding a piece of the other side. */
  method AddCapture(b: Board8, pos: Pos, side: Side, moves: seq<Pos>) returns (out: seq<Pos>)
    ensures out == moves + CaptureAt(b, pos, side)
  {
    out := moves;
    if pos.row >= 0 && pos.row < 8 && pos.col >= 0 && pos.col < 8 {
      var targetPiece := b[pos.row][pos.col];
      if targetPiece.Some? && targetPiece.value.side != side {
        out := out + [pos];
      }
    }
  }

  /** The while loop of getRookMoves and getBishopMoves for one direction. */
  method WalkDirection(b: Board8, p: Pos, d: Dir, side: Side, moves: seq<Pos>) returns (out: seq<Pos>)
    requires MoveRules.IsDirection(d)
    ensures out == moves + Ray(b, Shift(p, d), d, side)
  {
    out := moves;
    var r, c := p.row + d.dr, p.col + d.dc;
    while r >= 0 && r < 8 && c >= 0 && c < 8
      invariant out + Ray(b, Pos(r, c), d, side) == moves + Ray(b, Shift(p, d), d, side)
      decreases RayBudget(Pos(r, c), d)
    {
      var targetPiece := b[r][c];
      if targetPiece.None? {
        AppendAssoc(out, [Pos(r, c)], Ray(b, Pos(r + d.dr, c + d.dc), d, side));
        out := out + [Pos(r, c)];
      } else {
        if targetPiece.value.side != side {
          out := out + [Pos(r, c)];
        }
        break;
      }
      r, c := r + d.dr, c + d.dc;
    }
  }

  /** getRookMoves / getBishopMoves: one walk per direction, in the order given. */
  method AddRays(b: Board8, p: Pos, side: Side, dirs: seq<Dir>, moves: seq<Pos>) returns (out: seq<Pos>)
    requires MoveRules.AllDirections(dirs)
    ensures out == moves + Rays(b, p, side, dirs)
  {
    out := moves;
    for i := 0 to |dirs|
      invariant MoveRules.AllDirections(dirs[..i])
      invariant out == moves + Rays(b, p, side, dirs[..i])
    {
      var d := dirs[i];
      RaysStep(b, p, side, dirs, i);
      AppendAssoc(moves, Rays(b, p, side, dirs[..i]), Ray(b, Shift(p, d), d, side));
      out := WalkDirection(b, p, d, side, out);
    }
    assert dirs[..|dirs|] == dirs;
  }

  /** getKnightMoves and getKingMoves: fixed offsets, kept when on the board and not own-occupied. */
  method AddLeaps(b: Board8, p: Pos, side: Side, offsets: seq<Dir>, moves: seq<Pos>) returns (out: seq<Pos>)
    ensures out == moves + Leaps(b, p, side, offsets)
  {
    out := moves;
    for i := 0 to |offsets|
      invariant out == moves + Leaps(b, p, side, offsets[..i])
    {
      var newPos := Shift(p, offsets[i]);
      LeapsStep(b, p, side, offsets, i);
      AppendAssoc(moves, Leaps(b, p, side, offsets[..i]), LeapTo(b, newPos, side));
      out := AddLeapTarget(b, newPos, side, out);
    }
    assert offsets[..|offsets|] == offsets;
  }

  /** One offset of getKnightMoves / getKingMoves: the square is kept when on the board and not own-occupied. */
  method AddLeapTarget(b: Board8, q: Pos, side: Side, moves: seq<Pos>) returns (out: seq<Pos>)
    ensures out == moves + LeapTo(b, q, side)
  {
    out := moves;
    if q.row >= 0 && q.row < 8 && q.col >= 0 && q.col < 8 {
      var targetPiece := b[q.row][q.col];
      if targetPiece.None? || targetPiece.value.side != side {
        out := out + [q];
      }
    }
  }

  /** getAvailableMovesWithoutCheckValidation: dispatch on the piece type; an empty square gives no moves. */
  method GetMovesWithoutCheckValidation(b: Board8, p: Pos) returns (moves: seq<Pos>)
    requires OnBoard(p)
    ensures moves == Generate(b, p)
  {
    var piece := b[p.row][p.col];
    if piece.None? {
      return [];
    }
    assert Get(b, p) == piece;
    moves := AddKindMoves(b, p, piece.value.kind, piece.value.side);
  }

  /** The switch on the piece type inside getAvailableMovesWithoutCheckValidation. */
  method AddKindMoves(b: Board8, p: Pos, kind: Kind, side: Side) returns (moves: seq<Pos>)
    requires OnBoard(p)
    ensures moves == KindMoves(b, p, kind, side)
  {
    match kind
    case Pawn =>
      moves := AddPawnMoves(b, p, side, []);
      assert moves == PawnMoves(b, p, side);
    case Rook =>
      moves := AddRays(b, p, side, MoveRules.ROOK_DIRS, []);
      assert moves == Rays(b, p, side, MoveRules.ROOK_DIRS);
    case Knight =>
      moves := AddLeaps(b, p, side, MoveRules.KNIGHT_OFFSETS, []);
      assert moves == Leaps(b, p, side, MoveRules.KNIGHT_OFFSETS);
    case Bishop =>
      moves := AddRays(b, p, side, MoveRules.BISHOP_DIRS, []);
      assert moves == Rays(b, p, side, MoveRules.BISHOP_DIRS);
    case Queen =>
      var straight := AddRays(b, p, side, MoveRules.ROOK_DIRS, []);
      assert straight == Rays(b, p, side, MoveRules.ROOK_DIRS);
      moves := AddRays(b, p, side, MoveRules.BISHOP_DIRS, straight);
    case King =>
      moves := AddLeaps(b, p, side, MoveRules.KING_OFFSETS, []);
      assert moves == Leaps(b, p, side, MoveRules.KING_OFFSETS);
  }

  /** isPositionUnderAttack: scan the board for an opponent piece with `target` among its moves. */
  method IsPositionUnderAttack(b: Board8, target: Pos, side: Side) returns (attacked: bool)
    ensures attacked == UnderAttack(b, target, side)
  {
    for row := 0 to 8
      invariant NoAttackerBefore(b, target, side, row, 0)
    {
      for col := 0 to 8
        invariant NoAttackerBefore(b, target, side, row, col)
      {
        var attacks := OpponentReaches(b, Pos(row, col), target, side);
        if attacks {
          return true;
        }
        NoAttackerStep(b, target, side, row, col);
      }
      NoAttackerNextRow(b, target, side, row);
    }
    return false;
  }

  /** No square before (row, col) in row-major order holds an attacker of `target`. */
  predicate NoAttackerBefore(b: Board8, target: Pos, side: Side, row: int, col: int)
  {
    forall r, c | 0 <= r < 8 && 0 <= c < 8 && (r < row || (r == row && c < col)) :: !AttacksFrom(b, Pos(r, c), target, side)
  }

  lemma NoAttackerStep(b: Board8, target: Pos, side: Side, row: int, col: int)
    requires 0 <= row < 8 && 0 <= col < 8
    requires NoAttackerBefore(b, target, side, row, col) && !AttacksFrom(b, Pos(row, col), target, side)
    ensures NoAttackerBefore(b, target, side, row, col + 1)
  {
  }

  lemma NoAttackerNextRow(b: Board8, target: Pos, side: Side, row: int)
    requires NoAttackerBefore(b, target, side, row, 8)
    ensures NoAttackerBefore(b, target, side, row + 1, 0)
  {
  }

  /** The body of the attack scan: the square holds an opponent piece whose moves include `target`. */
  method OpponentReaches(b: Board8, q: Pos, target: Pos, side: Side) returns (attacks: bool)
    requires OnBoard(q)
    ensures attacks == AttacksFrom(b, q, target, side)
  {
    var opponentColor := if side == White then Black else White;
    var piece := b[q.row][q.col];
    if piece.Some? && piece.value.side == opponentColor {
      var moves := GetMovesWithoutCheckValidation(b, q);
      return target in moves;
    }
    return false;
  }

  /** The king scan of the component: the first king of `side` in row-major order, or none. */
  method FindKingPosition(b: Board8, side: Side) returns (kingPosition: Option<Pos>)
    ensures kingPosition == FindKing(b, side)
  {
    for row := 0 to 8
      invariant forall q | OnBoard(q) && q.row < row :: !IsKing(Get(b, q), side)
    {
      for col := 0 to 8
        invariant forall q | OnBoard(q) && q.row < row :: !IsKing(Get(b, q), side)
        invariant forall c | 0 <= c < col :: !IsKing(Get(b, Pos(row, c)), side)
      {
        var piece := b[row][col];
        if piece.Some? && piece.value.kind == King && piece.value.side == side {
          FirstKingUnique(b, side, Pos(row, col));
          return Some(Pos(row, col));
        }
      }
    }
    return None;
  }

  /** Two kings that both come first in row-major order are the same square. */
  lemma FirstKingUnique(b: Board8, side: Side, p: Pos)
    requires OnBoard(p) && IsKing(Get(b, p), side)
    requires forall q | OnBoard(q) && MoveRules.RowMajorBefore(q, p) :: !IsKing(Get(b, q), side)
    ensures FindKing(b, side) == Some(p)
  {
    var k := FindKing(b, side);
    if MoveRules.RowMajorBefore(k.value, p) || MoveRules.RowMajorBefore(p, k.value) {
      assert false;
    }
  }

  /**
   * getAvailableMoves: the pseudo-legal moves kept by the filter that plays
   * each one on a copy of the board, looks for the mover's king and keeps
   * the move when no king is found or the king is not attacked.
   */
  method GetAvailableMoves(b: Board8, p: Pos) returns (legal: seq<Pos>)
    requires OnBoard(p)
    ensures legal == Legal(b, p)
  {
    var moves := GetMovesWithoutCheckValidation(b, p);
    GeneratedOnBoard(b, p);
    var piece := b[p.row][p.col];
    if piece.None? {
      return [];
    }
    legal := [];
    for i := 0 to |moves|
      invariant legal == FilterSafe(b, p, piece.value, moves[..i])
    {
      var move := moves[i];
      FilterStep(b, p, piece.value, moves, i);
      var newBoard := Set(Set(b, move, piece), p, None);
      var kingPosition := FindKingPosition(newBoard, piece.value.side);
      var keep := true;
      if kingPosition.Some? {
        var attacked := IsPositionUnderAttack(newBoard, kingPosition.value, piece.value.side);
        keep := !attacked;
      }
      if keep {
        legal := legal + [move];
      }
    }
    assert moves[..|moves|] == moves;
  }

  /**
   * The status effect's computation: no result without a king of the side
   * to move; otherwise whether the king is attacked and whether any own
   * piece has a legal move, giving check, checkmate and stalemate.
   */
  method CheckStatus(b: Board8, side: Side) returns (status: Option<Status>)
    ensures status == Classify(b, side)
  {
    var kingPosition := FindKingPosition(b, side);
    if kingPosition.None? {
      return None;
    }
    var isInCheck := IsPositionUnderAttack(b, kingPosition.value, side);
    var hasLegalMoves := HasLegalMoves(b, side);
    return Some(Status(isInCheck, isInCheck && !hasLegalMoves, !isInCheck && !hasLegalMoves));
  }

  /** The legal-move search of the status effect, leaving both loops at the first own piece that can move. */
  method HasLegalMoves(b: Board8, side: Side) returns (hasLegalMoves: bool)
    ensures hasLegalMoves == HasLegalMove(b, side)
  {
    hasLegalMoves := false;
    for row := 0 to 8
      invariant !hasLegalMoves ==> NoMoverBefore(b, side, row, 0)
      invariant hasLegalMoves ==> HasLegalMove(b, side)
    {
      for col := 0 to 8
        invariant !hasLegalMoves ==> NoMoverBefore(b, side, row, col)
        invariant hasLegalMoves ==> HasLegalMove(b, side)
      {
        var movable := OwnPieceCanMove(b, Pos(row, col), side);
        if movable {
          hasLegalMoves := true;
          break;
        }
        NoMoverStep(b, side, row, col);
      }
      if hasLegalMoves {
        break;
      }
      NoMoverNextRow(b, side, row);
    }
    if !hasLegalMoves {
      NoMoverAtAll(b, side);
    }
  }

  /** No square before (row, col) in row-major order holds an own piece with a legal move. */
  predicate NoMoverBefore(b: Board8, side: Side, row: int, col: int)
  {
    forall r, c | 0 <= r < 8 && 0 <= c < 8 && (r < row || (r == row && c < col)) :: !CanMove(b, Pos(r, c), side)
  }

  lemma NoMoverStep(b: Board8, side: Side, row: int, col: int)
    requires 0 <= row < 8 && 0 <= col < 8
    requires NoMoverBefore(b, side, row, col) && !CanMove(b, Pos(row, col), side)
    ensures NoMoverBefore(b, side, row, col + 1)
  {
  }

  lemma NoMoverNextRow(b: Board8, side: Side, row: int)
    requires NoMoverBefore(b, side, row, 8)
    ensures NoMoverBefore(b, side, row + 1, 0)
  {
  }

  lemma NoMoverAtAll(b: Board8, side: Side)
    requires NoMoverBefore(b, side, 8, 0)
    ensures !HasLegalMove(b, side)
  {
  }

  /** The body of the legal-move search: an own piece stands on `q` and has a legal move. */
  method OwnPieceCanMove(b: Board8, q: Pos, side: Side) returns (movable: bool)
    requires OnBoard(q)
    ensures movable == CanMove(b, q, side)
  {
    var piece := b[q.row][q.col];
    if piece.Some? && piece.value.side == side {
      var moves := GetAvailableMoves(b, q);
      return |moves| > 0;
    }
    return false;
  }

  /** initializeBoard: an empty 8x8 board, the pawn rows, then the back ranks piece by piece. */
  method InitializeBoard() returns (board: Board8)
    ensures board == InitialBoard()
  {
    board := seq(8, _ => seq(8, _ => None));
    for col := 0 to 8
      invariant forall r, c | 0 <= r < 8 && 0 <= c < 8 ::
        board[r][c] == if (r == 1 || r == 6) && c < col then StartCell(r, c) else None
    {
      board := Set(board, Pos(1, col), Some(LegacyPiece(Pawn, Black, false)));
      board := Set(board, Pos(6, col), Some(LegacyPiece(Pawn, White, false)));
    }
    var pawns := board;
    var withBlack := SetBackRank(pawns, 0, Black);
    board := SetBackRank(withBlack, 7, White);
    forall r | 0 <= r < 8
      ensures board[r] == InitialBoard()[r]
    {
      forall c | 0 <= c < 8
        ensures board[r][c] == InitialBoard()[r][c]
      {
        assert InitialBoard()[r][c] == StartCell(r, c);
      }
    }
  }

  /** The rook, knight, bishop, queen and king assignments of one side's back rank. */
  method SetBackRank(b: Board8, row: int, side: Side) returns (board: Board8)
    requires row == 0 || row == 7
    ensures forall c | 0 <= c < 8 :: board[row][c] == Some(LegacyPiece(BACK_RANK[c], side, false))
    ensures forall r, c | 0 <= r < 8 && r != row && 0 <= c < 8 :: board[r][c] == b[r][c]
  {
    board := b;
    board := Set(board, Pos(row, 0), Some(LegacyPiece(Rook, side, false)));
    board := Set(board, Pos(row, 7), Some(LegacyPiece(Rook, side, false)));
    board := Set(board, Pos(row, 1), Some(LegacyPiece(Knight, side, false)));
    board := Set(board, Pos(row, 6), Some(LegacyPiece(Knight, side, false)));
    board := Set(board, Pos(row, 2), Some(LegacyPiece(Bishop, side, false)));
    board := Set(board, Pos(row, 5), Some(LegacyPiece(Bishop, side, false)));
    board := Set(board, Pos(row, 3), Some(LegacyPiece(Queen, side, false)));
    board := Set(board, Pos(row, 4), Some(LegacyPiece(King, side, false)));
  }
}
