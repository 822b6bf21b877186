/**
 * The generators of utils/move-calculator.ts and the oracles of
 * utils/game-logic.ts as the loops they are: each method appends to the
 * move list it is given (the `moves` array the source pushes into) and is
 * proved to produce exactly the list the matching function of MoveRules
 * describes, so every property proved about MoveRules holds of these loops.
 * server.js runs the same loops with castling switched off.
 */
module MoveCalculator {
  import opened ChessTypes
  import opened MoveRules

  /** addMovesInDirection: walk from the square after `p` until the cross ends or a piece blocks. */
  method AddMovesInDirection(b: Board, p: Pos, d: Dir, color: Color, moves: seq<Pos>) returns (out: seq<Pos>)
    requires IsDirection(d)
    ensures out == moves + Ray(b, Shift(p, d), d, color)
  {
    out := moves;
    var r, c := p.row + d.dr, p.col + d.dc;
    while IsValidPosition(Pos(r, c))
      invariant out + Ray(b, Pos(r, c), d, color) == moves + Ray(b, Shift(p, d), d, color)
      decreases RayBudget(Pos(r, c), d)
    {
      var target := b[r][c];
      if target.None? {
        AppendAssoc(out, [Pos(r, c)], Ray(b, Pos(r + d.dr, c + d.dc), d, color));
        out := out + [Pos(r, c)];
      } else {
        if target.value.color != color {
          out := out + [Pos(r, c)];
        }
        break;
      }
      r, c := r + d.dr, c + d.dc;
    }
  }

  /** getRookMoves / getBishopMoves: one walk per direction, in the order given. */
  method AddRays(b: Board, p: Pos, color: Color, dirs: seq<Dir>, moves: seq<Pos>) returns (out: seq<Pos>)
    requires AllDirections(dirs)
    ensures out == moves + Rays(b, p, color, dirs)
  {
    out := moves;
    for i := 0 to |dirs|
      invariant AllDirections(dirs[..i])
      invariant out == moves + Rays(b, p, color, dirs[..i])
    {
      var d := dirs[i];
      RaysStep(b, p, color, dirs, i);
      AppendAssoc(moves, Rays(b, p, color, dirs[..i]), Ray(b, Shift(p, d), d, color));
      out := AddMovesInDirection(b, p, d, color, out);
    }
    assert dirs[..|dirs|] == dirs;
  }

  lemma LeapsStep(b: Board, p: Pos, color: Color, offsets: seq<Dir>, i: int)
    requires 0 <= i < |offsets|
    ensures Leaps(b, p, color, offsets[..i + 1]) == Leaps(b, p, color, offsets[..i]) + LeapTo(b, Shift(p, offsets[i]), color)
  {
    assert offsets[..i + 1][..i] == offsets[..i];
  }

  lemma CapturesStep(b: Board, p: Pos, color: Color, dirs: seq<Dir>, i: int)
    requires 0 <= i < |dirs|
    ensures PawnCaptures(b, p, color, dirs[..i + 1])
      == PawnCaptures(b, p, color, dirs[..i]) + CaptureAt(b, Shift(p, dirs[i]), color)
  {
    assert dirs[..i + 1][..i] == dirs[..i];
  }

  lemma FilterStep(e: Engine, b: Board, from: Pos, piece: Piece, ms: seq<Pos>, i: int)
    requires InGrid(from) && (forall m | m in ms :: InGrid(m)) && 0 <= i < |ms|
    ensures FilterSafe(e, b, from, piece, ms[..i + 1])
      == FilterSafe(e, b, from, piece, ms[..i]) + (if Safe(e, b, from, piece, ms[i]) then [ms[i]] else [])
  {
    assert ms[..i + 1][..i] == ms[..i];
  }

  lemma RaysStep(b: Board, p: Pos, color: Color, dirs: seq<Dir>, i: int)
    requires AllDirections(dirs) && 0 <= i < |dirs|
    ensures AllDirections(dirs[..i + 1])
    ensures Rays(b, p, color, dirs[..i + 1]) == Rays(b, p, color, dirs[..i]) + Ray(b, Shift(p, dirs[i]), dirs[i], color)
  {
    assert dirs[..i + 1][..i] == dirs[..i];
  }

  /** getKnightMoves and the plain part of getKingMoves: fixed offsets, kept unless own-occupied or off the cross. */
  method AddLeaps(b: Board, p: Pos, color: Color, offsets: seq<Dir>, moves: seq<Pos>) returns (out: seq<Pos>)
    ensures out == moves + Leaps(b, p, color, offsets)
  {
    out := moves;
    for i := 0 to |offsets|
      invariant out == moves + Leaps(b, p, color, offsets[..i])
    {
      var q := Shift(p, offsets[i]);
      LeapsStep(b, p, color, offsets, i);
      AppendAssoc(moves, Leaps(b, p, color, offsets[..i]), LeapTo(b, q, color));
      if IsValidPosition(q) {
        var target := b[q.row][q.col];
        if target.None? || target.value.color != color {
          out := out + [q];
        }
      }
    }
    assert offsets[..|offsets|] == offsets;
  }

  /** getPawnMoves: one step, two from home, then the two diagonal captures. */
  method AddPawnMoves(b: Board, p: Pos, color: Color, moves: seq<Pos>) returns (out: seq<Pos>)
    ensures out == moves + PawnMoves(b, p, color)
  {
    var pushed := AddPawnPushes(b, p, color, moves);
    out := AddPawnCaptures(b, p, color, pushed);
    AppendAssoc(moves, PawnPushes(b, p, color), PawnCaptures(b, p, color, PawnCaptureDirs(color)));
  }

  /** The advance block of getPawnMoves: one step onto an empty square, then two from home. */
  method AddPawnPushes(b: Board, p: Pos, color: Color, moves: seq<Pos>) returns (out: seq<Pos>)
    ensures out == moves + PawnPushes(b, p, color)
  {
    var d := PawnDir(color);
    var startPosition := OnPawnHome(p, color);
    out := moves;
    var oneStep := Pos(p.row + d.dr, p.col + d.dc);
    if IsValidPosition(oneStep) && b[oneStep.row][oneStep.col].None? {
      out := out + [oneStep];
      if startPosition {
        var twoSteps := Pos(p.row + 2 * d.dr, p.col + 2 * d.dc);
        if IsValidPosition(twoSteps) && b[twoSteps.row][twoSteps.col].None? {
          AppendAssoc(moves, [oneStep], [twoSteps]);
          out := out + [twoSteps];
        }
      }
    }
  }

  /** The capture forEach of getPawnMoves: each diagonal square that holds a piece of another colour. */
  method AddPawnCaptures(b: Board, p: Pos, color: Color, moves: seq<Pos>) returns (out: seq<Pos>)
    ensures out == moves + PawnCaptures(b, p, color, PawnCaptureDirs(color))
  {
    out := moves;
    var captureDirs := PawnCaptureDirs(color);
    for i := 0 to |captureDirs|
      invariant out == moves + PawnCaptures(b, p, color, captureDirs[..i])
    {
      var capturePos := Shift(p, captureDirs[i]);
      CapturesStep(b, p, color, captureDirs, i);
      AppendAssoc(moves, PawnCaptures(b, p, color, captureDirs[..i]), CaptureAt(b, capturePos, color));
      if IsValidPosition(capturePos) {
        var targetPiece := b[capturePos.row][capturePos.col];
        if targetPiece.Some? && targetPiece.value.color != color {
          out := out + [capturePos];
        }
      }
    }
    assert captureDirs[..|captureDirs|] == captureDirs;
  }

  /**
   * getAvailableMovesWithoutCheckValidation: dispatch on the piece type; an
   * empty square gives no moves.
   */
  method GenerateMoves(b: Board, p: Pos, castling: bool) returns (moves: seq<Pos>)
    requires InGrid(p)
    ensures moves == Generate(b, p, castling)
    decreases if castling then 1 else 0, 3
  {
    var piece := b[p.row][p.col];
    if piece.None? {
      return [];
    }
    var color := piece.value.color;
    match piece.value.kind
    case Pawn => moves := AddPawnMoves(b, p, color, []);
    case Rook => moves := AddRays(b, p, color, ROOK_DIRS, []);
    case Knight => moves := AddLeaps(b, p, color, KNIGHT_OFFSETS, []);
    case Bishop => moves := AddRays(b, p, color, BISHOP_DIRS, []);
    case Queen =>
      moves := AddRays(b, p, color, ROOK_DIRS, []);
      moves := AddRays(b, p, color, BISHOP_DIRS, moves);
    case King => moves := AddKingMoves(b, p, color, [], castling);
  }

  /** getKingMoves: the eight neighbours, then castling when requested and the king has not moved. */
  method AddKingMoves(b: Board, p: Pos, color: Color, moves: seq<Pos>, castling: bool) returns (out: seq<Pos>)
    requires InGrid(p)
    ensures out == moves + KingMoves(b, p, color, castling)
    decreases if castling then 1 else 0, 2
  {
    out := AddLeaps(b, p, color, KING_OFFSETS, moves);
    var piece := b[p.row][p.col];
    if castling && piece.Some? && !piece.value.hasMoved {
      out := AddCastlingMoves(b, p, color, out);
    }
  }

  /**
   * addCastlingMoves: nothing when the king is attacked; otherwise the
   * king-side destination col+2 and then the queen-side destination col-2,
   * each when its side passes the tests below.
   */
  method AddCastlingMoves(b: Board, p: Pos, color: Color, moves: seq<Pos>) returns (out: seq<Pos>)
    requires InGrid(p)
    ensures out == moves + CastlingMoves(b, p, color)
    decreases 1, 1
  {
    out := moves;
    var inCheck := IsPositionUnderAttack(b, p, color);
    if inCheck {
      return;
    }
    var kingSide := CanCastleKingSide(b, p, color);
    if kingSide {
      out := out + [Pos(p.row, p.col + 2)];
    }
    var queenSide := CanCastleQueenSide(b, p, color);
    if queenSide {
      out := out + [Pos(p.row, p.col - 2)];
    }
    AppendAssoc(moves, KingSideCastle(b, p, color), QueenSideCastle(b, p, color));
  }

  /**
   * The king-side block of addCastlingMoves: the rook three columns right is
   * an unmoved own rook, the squares between are empty, and none of columns
   * col..col+2 is attacked.
   */
  method CanCastleKingSide(b: Board, p: Pos, color: Color) returns (canCastle: bool)
    requires InGrid(p)
    ensures canCastle <==> KingSideCastle(b, p, color) != []
    decreases 1, 0
  {
    var row, col := p.row, p.col;
    var rookCol := col + 3;
    if !(IsValidPosition(Pos(row, rookCol)) && IsCastlingRook(b[row][rookCol], color)) {
      return false;
    }
    canCastle := true;
    for c := col + 1 to rookCol
      invariant canCastle && RowEmpty(b, row, col + 1, c)
    {
      if b[row][c].Some? {
        canCastle := false;
        break;
      }
    }
    if canCastle {
      var k := 0;
      while k < 3
        invariant 0 <= k <= 3
        invariant canCastle && NoneAttacked(b, row, col, col + k - 1, color)
      {
        var attacked := IsPositionUnderAttack(b, Pos(row, col + k), color);
        if attacked {
          canCastle := false;
          break;
        }
        k := k + 1;
      }
    }
  }

  /**
   * The queen-side block of addCastlingMoves: the rook four columns left is
   * an unmoved own rook, the squares between are empty, and none of columns
   * col, col-1, col-2 (checked in that order) is attacked.
   */
  method CanCastleQueenSide(b: Board, p: Pos, color: Color) returns (canCastle: bool)
    requires InGrid(p)
    ensures canCastle <==> QueenSideCastle(b, p, color) != []
    decreases 1, 0
  {
    var row, col := p.row, p.col;
    var rookCol := col - 4;
    if !(IsValidPosition(Pos(row, rookCol)) && IsCastlingRook(b[row][rookCol], color)) {
      return false;
    }
    canCastle := true;
    for c := rookCol + 1 to col
      invariant canCastle && RowEmpty(b, row, rookCol + 1, c)
    {
      if b[row][c].Some? {
        canCastle := false;
        break;
      }
    }
    if canCastle {
      var k := 0;
      while k < 3
        invariant 0 <= k <= 3
        invariant canCastle && NoneAttacked(b, row, col - k + 1, col, color)
      {
        var attacked := IsPositionUnderAttack(b, Pos(row, col - k), color);
        if attacked {
          canCastle := false;
          break;
        }
        k := k + 1;
      }
    }
  }

  /**
   * isPositionUnderAttack: scan the grid in row-major order and report
   * whether some piece of another colour has `target` among its moves
   * (castling excluded).
   */
  method IsPositionUnderAttack(b: Board, target: Pos, color: Color) returns (attacked: bool)
    ensures attacked == UnderAttack(b, target, color)
    decreases 0, 6
  {
    for row := 0 to 14
      invariant NoAttackerBefore(b, target, color, row, 0)
    {
      for col := 0 to 14
        invariant NoAttackerBefore(b, target, color, row, col)
      {
        var reaches := OpponentReaches(b, Pos(row, col), target, color);
        if reaches {
          return true;
        }
        NoAttackerStep(b, target, color, row, col);
      }
      NoAttackerNextRow(b, target, color, row);
    }
    return false;
  }

  /** One square of the scan: a piece of another colour with `target` among its moves. */
  method OpponentReaches(b: Board, q: Pos, target: Pos, color: Color) returns (reaches: bool)
    requires InGrid(q)
    ensures reaches == AttacksFrom(b, q, target, color)
    decreases 0, 5
  {
    var piece := b[q.row][q.col];
    if piece.None? || piece.value.color == color {
      return false;
    }
    var moves := GenerateMoves(b, q, false);
    return target in moves;
  }

  /** No square before (row, col) in row-major order holds an attacker of `target`. */
  predicate NoAttackerBefore(b: Board, target: Pos, color: Color, row: int, col: int)
  {
    forall r, c | 0 <= r < 14 && 0 <= c < 14 && (r < row || (r == row && c < col)) :: !AttacksFrom(b, Pos(r, c), target, color)
  }

  lemma NoAttackerStep(b: Board, target: Pos, color: Color, row: int, col: int)
    requires 0 <= row < 14 && 0 <= col < 14
    requires NoAttackerBefore(b, target, color, row, col) && !AttacksFrom(b, Pos(row, col), target, color)
    ensures NoAttackerBefore(b, target, color, row, col + 1)
  {
  }

  lemma NoAttackerNextRow(b: Board, target: Pos, color: Color, row: int)
    requires NoAttackerBefore(b, target, color, row, 14)
    ensures NoAttackerBefore(b, target, color, row + 1, 0)
  {
  }

  /** findKingPosition: the first king of `color` in row-major order, or none. */
  method FindKingPosition(b: Board, color: Color) returns (k: Option<Pos>)
    ensures k == FindKing(b, color)
  {
    for row := 0 to 14
      invariant forall q | InGrid(q) && q.row < row :: !IsKingOf(At(b, q), color)
    {
      for col := 0 to 14
        invariant forall q | InGrid(q) && q.row < row :: !IsKingOf(At(b, q), color)
        invariant forall c | 0 <= c < col :: !IsKingOf(At(b, Pos(row, c)), color)
      {
        var piece := b[row][col];
        if piece.Some? && piece.value.kind == King && piece.value.color == color {
          k := Some(Pos(row, col));
          FirstKingUnique(b, color, Pos(row, col));
          return;
        }
      }
    }
    return None;
  }

  /** Two kings that both come first in row-major order are the same square. */
  lemma FirstKingUnique(b: Board, color: Color, p: Pos)
    requires InGrid(p) && IsKingOf(At(b, p), color)
    requires forall q | InGrid(q) && RowMajorBefore(q, p) :: !IsKingOf(At(b, q), color)
    ensures FindKing(b, color) == Some(p)
  {
    var k := FindKing(b, color);
    if RowMajorBefore(k.value, p) || RowMajorBefore(p, k.value) {
      assert false;
    }
  }

  /**
   * getAvailableMoves: the pseudo-legal moves (with castling in the Utils
   * engine) kept by the filter that simulates each move on a copy of the
   * board and tests the mover's king.
   */
  method GetAvailableMoves(e: Engine, b: Board, p: Pos) returns (legal: seq<Pos>)
    requires InGrid(p)
    ensures legal == Legal(e, b, p)
  {
    var moves := GenerateMoves(b, p, e == Utils);
    GeneratedInGrid(b, p, e == Utils);
    var piece := b[p.row][p.col];
    if piece.None? {
      return [];
    }
    legal := [];
    for i := 0 to |moves|
      invariant legal == FilterSafe(e, b, p, piece.value, moves[..i])
    {
      var move := moves[i];
      FilterStep(e, b, p, piece.value, moves, i);
      var newBoard := Simulate(b, p, move, piece.value, e == Utils);
      var kingPosition := FindKingPosition(newBoard, piece.value.color);
      var keep: bool;
      if kingPosition.None? {
        keep := e == ServerJs;
      } else {
        var attacked := IsPositionUnderAttack(newBoard, kingPosition.value, piece.value.color);
        keep := !attacked;
      }
      if keep {
        legal := legal + [move];
      }
    }
    assert moves[..|moves|] == moves;
  }
}
