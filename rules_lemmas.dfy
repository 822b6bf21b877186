/**
 * What the move rules promise: generated squares are on the cross and never
 * hold the mover's own piece, sliders stop at the first occupied square,
 * pawns advance and capture along their colour's axis, a two-column king move
 * is always a castling whose conditions all hold, and the legal moves are
 * exactly the pseudo-legal moves whose simulation leaves the king safe.
 */
module MoveRulesLemmas {
  import opened ChessTypes
  import opened MoveRules

  /** `q` ends a slide of the mover's colour: off the cross or holding an own piece. */
  predicate Blocks(b: Board, q: Pos, color: Color)
  {
    !IsValidPosition(q) || IsPieceOf(At(b, q), color)
  }

  /**
   * `r` is the walk from `s` along `d`: consecutive valid squares, all empty
   * except possibly the last, a last occupied square holding another colour,
   * and a walk that ends on an empty square (or is empty) ends because the
   * next square blocks it.
   */
  predicate RayWalk(b: Board, s: Pos, d: Dir, color: Color, r: seq<Pos>)
  {
    && (forall i :: 0 <= i < |r| ==> IsValidPosition(r[i]))
    && (|r| > 0 ==> r[0] == s)
    && (forall i :: 0 <= i < |r| - 1 ==> r[i + 1] == Shift(r[i], d) && At(b, r[i]).None?)
    && (|r| > 0 && At(b, r[|r| - 1]).Some? ==> At(b, r[|r| - 1]).value.color != color)
    && (|r| == 0 || At(b, r[|r| - 1]).None? ==> Blocks(b, if |r| == 0 then s else Shift(r[|r| - 1], d), color))
  }

  lemma {:induction false} RayShape(b: Board, s: Pos, d: Dir, color: Color)
    requires IsDirection(d)
    ensures RayWalk(b, s, d, color, Ray(b, s, d, color))
    decreases RayBudget(s, d)
  {
    if IsValidPosition(s) && At(b, s).None? {
      RayShape(b, Shift(s, d), d, color);
      var rest := Ray(b, Shift(s, d), d, color);
      var r := Ray(b, s, d, color);
      assert r == [s] + rest;
      forall i | 0 <= i < |r| - 1
        ensures r[i + 1] == Shift(r[i], d) && At(b, r[i]).None?
      {
        if i > 0 {
          assert r[i] == rest[i - 1] && r[i + 1] == rest[i];
        }
      }
    }
  }

  lemma RayNeverOwn(b: Board, s: Pos, d: Dir, color: Color, m: Pos)
    requires IsDirection(d)
    requires m in Ray(b, s, d, color)
    ensures IsValidPosition(m) && !IsPieceOf(At(b, m), color)
  {
    RayShape(b, s, d, color);
    var r := Ray(b, s, d, color);
    var i :| 0 <= i < |r| && r[i] == m;
    if i < |r| - 1 {
      assert At(b, r[i]).None?;
    }
  }

  lemma {:induction false} RaysIff(b: Board, p: Pos, color: Color, dirs: seq<Dir>, m: Pos)
    requires AllDirections(dirs)
    ensures m in Rays(b, p, color, dirs)
      <==> exists i :: 0 <= i < |dirs| && m in Ray(b, Shift(p, dirs[i]), dirs[i], color)
  {
    if dirs != [] {
      var n := |dirs| - 1;
      RaysIff(b, p, color, dirs[..n], m);
      if m in Rays(b, p, color, dirs) && m !in Ray(b, Shift(p, dirs[n]), dirs[n], color) {
        var i :| 0 <= i < n && m in Ray(b, Shift(p, dirs[..n][i]), dirs[..n][i], color);
        assert dirs[..n][i] == dirs[i];
      }
      if exists i :: 0 <= i < |dirs| && m in Ray(b, Shift(p, dirs[i]), dirs[i], color) {
        var i :| 0 <= i < |dirs| && m in Ray(b, Shift(p, dirs[i]), dirs[i], color);
        if i < n {
          assert dirs[..n][i] == dirs[i];
        }
      }
    }
  }

  lemma {:induction false} LeapsIff(b: Board, p: Pos, color: Color, offsets: seq<Dir>, m: Pos)
    ensures m in Leaps(b, p, color, offsets)
      <==> (exists i :: 0 <= i < |offsets| && m == Shift(p, offsets[i]))
           && IsValidPosition(m) && !IsPieceOf(At(b, m), color)
  {
    if offsets != [] {
      var n := |offsets| - 1;
      LeapsIff(b, p, color, offsets[..n], m);
      ReachStep(p, offsets, m);
    }
  }

  /** The pawn rule of the cross board, stated square by square. */
  lemma PawnMovesExactly(b: Board, p: Pos, color: Color, m: Pos)
    ensures m in PawnMoves(b, p, color) <==> PawnPushTo(b, p, color, m) || PawnCaptureTo(b, p, color, m)
  {
    PawnPushesIff(b, p, color, m);
    PawnCapturesIff(b, p, color, m);
  }

  /** One square along the colour's axis onto an empty square, or two from home over an empty square. */
  predicate PawnPushTo(b: Board, p: Pos, color: Color, m: Pos)
  {
    var one := Shift(p, PawnDir(color));
    var two := Shift(one, PawnDir(color));
    || (m == one && IsValidPosition(one) && At(b, one).None?)
    || (m == two && OnPawnHome(p, color) && IsValidPosition(one) && At(b, one).None?
        && IsValidPosition(two) && At(b, two).None?)
  }

  /** One of the two squares diagonally ahead, holding a piece of another colour. */
  predicate PawnCaptureTo(b: Board, p: Pos, color: Color, m: Pos)
  {
    var d := PawnDir(color);
    var diagonal :=
      if color == Yellow || color == Red then m.row == p.row + d.dr && Abs(m.col - p.col) == 1
      else m.col == p.col + d.dc && Abs(m.row - p.row) == 1;
    diagonal && IsValidPosition(m) && At(b, m).Some? && At(b, m).value.color != color
  }

  lemma PawnPushesIff(b: Board, p: Pos, color: Color, m: Pos)
    ensures m in PawnPushes(b, p, color) <==> PawnPushTo(b, p, color, m)
  {
  }

  lemma PawnCapturesIff(b: Board, p: Pos, color: Color, m: Pos)
    ensures m in PawnCaptures(b, p, color, PawnCaptureDirs(color)) <==> PawnCaptureTo(b, p, color, m)
  {
    PawnCapturesTwo(b, p, color);
    var dirs := PawnCaptureDirs(color);
    assert PawnCaptureTo(b, p, color, m) <==>
      (m == Shift(p, dirs[0]) || m == Shift(p, dirs[1])) && IsValidPosition(m) && At(b, m).Some? && At(b, m).value.color != color;
  }

  lemma PawnCapturesTwo(b: Board, p: Pos, color: Color)
    ensures
      var dirs := PawnCaptureDirs(color);
      PawnCaptures(b, p, color, dirs)
        == CaptureAt(b, Shift(p, dirs[0]), color) + CaptureAt(b, Shift(p, dirs[1]), color)
  {
    var dirs := PawnCaptureDirs(color);
    assert dirs[..1][..0] == [] && dirs[..1][0] == dirs[0];
    assert PawnCaptures(b, p, color, dirs[..1]) == CaptureAt(b, Shift(p, dirs[0]), color);
  }

  /** Knights reach the eight (2,1)-shaped squares that are on the cross and not own-occupied. */
  lemma KnightMovesExactly(b: Board, p: Pos, castling: bool, m: Pos)
    requires InGrid(p) && At(b, p).Some? && At(b, p).value.kind == Knight
    ensures m in Generate(b, p, castling) <==>
      var dr, dc := Abs(m.row - p.row), Abs(m.col - p.col);
      ((dr == 1 && dc == 2) || (dr == 2 && dc == 1))
      && IsValidPosition(m) && !IsPieceOf(At(b, m), At(b, p).value.color)
  {
    var color := At(b, p).value.color;
    LeapsIff(b, p, color, KNIGHT_OFFSETS, m);
    var dr, dc := m.row - p.row, m.col - p.col;
    if (Abs(dr) == 1 && Abs(dc) == 2) || (Abs(dr) == 2 && Abs(dc) == 1) {
      var i :=
        if dr == -2 && dc == -1 then 0 else if dr == -2 && dc == 1 then 1
        else if dr == -1 && dc == -2 then 2 else if dr == -1 && dc == 2 then 3
        else if dr == 1 && dc == -2 then 4 else if dr == 1 && dc == 2 then 5
        else if dr == 2 && dc == -1 then 6 else 7;
      assert m == Shift(p, KNIGHT_OFFSETS[i]);
    }
  }

  /**
   * Without castling a king reaches exactly its eight neighbours that are on
   * the cross and not own-occupied; this is also the whole king generator of
   * server.js.
   */
  lemma KingMovesWithoutCastling(b: Board, p: Pos, m: Pos)
    requires InGrid(p) && At(b, p).Some? && At(b, p).value.kind == King
    ensures m in Generate(b, p, false) <==>
      m != p && Abs(m.row - p.row) <= 1 && Abs(m.col - p.col) <= 1
      && IsValidPosition(m) && !IsPieceOf(At(b, m), At(b, p).value.color)
  {
    var color := At(b, p).value.color;
    LeapsIff(b, p, color, KING_OFFSETS, m);
    var dr, dc := m.row - p.row, m.col - p.col;
    if m != p && Abs(dr) <= 1 && Abs(dc) <= 1 {
      var i :=
        if dr == -1 then (if dc == -1 then 0 else if dc == 0 then 1 else 2)
        else if dr == 0 then (if dc == -1 then 3 else 4)
        else (if dc == -1 then 5 else if dc == 0 then 6 else 7);
      assert m == Shift(p, KING_OFFSETS[i]);
    }
  }

  /** The king-side conditions: unmoved own rook three columns right, empty between, no attacked step. */
  predicate KingSideReady(b: Board, p: Pos, color: Color)
    requires InGrid(p)
  {
    var rook := Pos(p.row, p.col + 3);
    && IsValidPosition(rook) && IsCastlingRook(At(b, rook), color)
    && At(b, Pos(p.row, p.col + 1)).None? && At(b, Pos(p.row, p.col + 2)).None?
    && !UnderAttack(b, p, color)
    && !UnderAttack(b, Pos(p.row, p.col + 1), color)
    && !UnderAttack(b, Pos(p.row, p.col + 2), color)
  }

  /** The queen-side conditions: unmoved own rook four columns left, empty between, no attacked step. */
  predicate QueenSideReady(b: Board, p: Pos, color: Color)
    requires InGrid(p)
  {
    var rook := Pos(p.row, p.col - 4);
    && IsValidPosition(rook) && IsCastlingRook(At(b, rook), color)
    && At(b, Pos(p.row, p.col - 1)).None? && At(b, Pos(p.row, p.col - 2)).None?
    && At(b, Pos(p.row, p.col - 3)).None?
    && !UnderAttack(b, p, color)
    && !UnderAttack(b, Pos(p.row, p.col - 1), color)
    && !UnderAttack(b, Pos(p.row, p.col - 2), color)
  }

  lemma KingSideIff(b: Board, p: Pos, color: Color)
    requires InGrid(p)
    ensures KingSideCastle(b, p, color) != [] <==> KingSideReady(b, p, color)
  {
    var rc := p.col + 3;
    if IsValidPosition(Pos(p.row, rc)) {
      assert RowEmpty(b, p.row, p.col + 1, rc)
        <==> At(b, Pos(p.row, p.col + 1)).None? && At(b, Pos(p.row, p.col + 2)).None?;
      assert NoneAttacked(b, p.row, p.col, p.col + 2, color)
        <==> !UnderAttack(b, Pos(p.row, p.col), color) && !UnderAttack(b, Pos(p.row, p.col + 1), color)
             && !UnderAttack(b, Pos(p.row, p.col + 2), color);
    }
  }

  lemma QueenSideIff(b: Board, p: Pos, color: Color)
    requires InGrid(p)
    ensures QueenSideCastle(b, p, color) != [] <==> QueenSideReady(b, p, color)
  {
    var rc := p.col - 4;
    if IsValidPosition(Pos(p.row, rc)) {
      assert RowEmpty(b, p.row, rc + 1, p.col)
        <==> At(b, Pos(p.row, p.col - 1)).None? && At(b, Pos(p.row, p.col - 2)).None?
             && At(b, Pos(p.row, p.col - 3)).None?;
      assert NoneAttacked(b, p.row, p.col - 2, p.col, color)
        <==> !UnderAttack(b, Pos(p.row, p.col), color) && !UnderAttack(b, Pos(p.row, p.col - 1), color)
             && !UnderAttack(b, Pos(p.row, p.col - 2), color);
    }
  }

  /**
   * A king move of two columns is never a plain king step: it is offered only
   * with castling enabled, by an unmoved king that is not attacked, along its
   * own row, toward a ready rook on that side.
   */
  lemma TwoColumnKingMoveIsCastling(b: Board, p: Pos, castling: bool, m: Pos)
    requires InGrid(p) && At(b, p).Some? && At(b, p).value.kind == King
    requires m in Generate(b, p, castling) && Abs(m.col - p.col) == 2
    ensures castling && !At(b, p).value.hasMoved && m.row == p.row
    ensures m.col == p.col + 2 ==> KingSideReady(b, p, At(b, p).value.color)
    ensures m.col == p.col - 2 ==> QueenSideReady(b, p, At(b, p).value.color)
  {
    var color := At(b, p).value.color;
    LeapsIff(b, p, color, KING_OFFSETS, m);
    assert forall i | 0 <= i < |KING_OFFSETS| :: Abs(KING_OFFSETS[i].dc) <= 1;
    assert m !in Leaps(b, p, color, KING_OFFSETS);
    assert castling && !At(b, p).value.hasMoved && m in CastlingMoves(b, p, color);
    assert m in KingSideCastle(b, p, color) || m in QueenSideCastle(b, p, color);
    KingSideIff(b, p, color);
    QueenSideIff(b, p, color);
  }

  /** Conversely, a ready side yields its castling destination for an unmoved king. */
  lemma CastlingOffered(b: Board, p: Pos)
    requires InGrid(p) && At(b, p).Some? && At(b, p).value.kind == King && !At(b, p).value.hasMoved
    ensures KingSideReady(b, p, At(b, p).value.color) ==> Pos(p.row, p.col + 2) in Generate(b, p, true)
    ensures QueenSideReady(b, p, At(b, p).value.color) ==> Pos(p.row, p.col - 2) in Generate(b, p, true)
  {
    var color := At(b, p).value.color;
    KingSideIff(b, p, color);
    QueenSideIff(b, p, color);
    assert Generate(b, p, true) == Leaps(b, p, color, KING_OFFSETS) + CastlingMoves(b, p, color);
  }

  /** Castling destinations stay on the cross when the king does, and are empty. */
  lemma CastlingSound(b: Board, p: Pos, color: Color, m: Pos)
    requires IsValidPosition(p)
    requires m in CastlingMoves(b, p, color)
    ensures IsValidPosition(m) && At(b, m).None?
  {
  }

  /**
   * Every pseudo-legal destination is on the cross and does not hold a piece
   * of the mover's colour (with castling, for a piece standing on the cross).
   */
  lemma GenerateSound(b: Board, p: Pos, castling: bool, m: Pos)
    requires InGrid(p) && At(b, p).Some?
    requires castling ==> IsValidPosition(p)
    requires m in Generate(b, p, castling)
    ensures IsValidPosition(m) && !IsPieceOf(At(b, m), At(b, p).value.color)
  {
    var piece := At(b, p).value;
    var color := piece.color;
    match piece.kind
    case Pawn => PawnMovesExactly(b, p, color, m);
    case Knight => LeapsIff(b, p, color, KNIGHT_OFFSETS, m);
    case Rook => RaysNeverOwn(b, p, color, ROOK_DIRS, m);
    case Bishop => RaysNeverOwn(b, p, color, BISHOP_DIRS, m);
    case Queen =>
      if m in Rays(b, p, color, ROOK_DIRS) {
        RaysNeverOwn(b, p, color, ROOK_DIRS, m);
      } else {
        RaysNeverOwn(b, p, color, BISHOP_DIRS, m);
      }
    case King =>
      LeapsIff(b, p, color, KING_OFFSETS, m);
      if m !in Leaps(b, p, color, KING_OFFSETS) {
        CastlingSound(b, p, color, m);
      }
  }

  lemma RaysNeverOwn(b: Board, p: Pos, color: Color, dirs: seq<Dir>, m: Pos)
    requires AllDirections(dirs)
    requires m in Rays(b, p, color, dirs)
    ensures IsValidPosition(m) && !IsPieceOf(At(b, m), color)
  {
    RaysIff(b, p, color, dirs, m);
    var i :| 0 <= i < |dirs| && m in Ray(b, Shift(p, dirs[i]), dirs[i], color);
    RayNeverOwn(b, Shift(p, dirs[i]), dirs[i], color, m);
  }

  /** An empty origin square yields no moves at all. */
  lemma EmptyOriginNoMoves(e: Engine, b: Board, p: Pos, castling: bool)
    requires InGrid(p) && At(b, p).None?
    ensures Generate(b, p, castling) == [] && Legal(e, b, p) == []
  {
  }

  /**
   * The attack oracle uses pseudo-legal moves, so a pawn of another colour
   * "attacks" the empty square in front of it.
   */
  lemma PawnPushCountsAsAttack(b: Board, q: Pos, color: Color)
    requires InGrid(q) && At(b, q).Some? && At(b, q).value.kind == Pawn && At(b, q).value.color != color
    requires IsValidPosition(Shift(q, PawnDir(At(b, q).value.color)))
    requires At(b, Shift(q, PawnDir(At(b, q).value.color))).None?
    ensures UnderAttack(b, Shift(q, PawnDir(At(b, q).value.color)), color)
  {
    var t := Shift(q, PawnDir(At(b, q).value.color));
    PawnMovesExactly(b, q, At(b, q).value.color, t);
    assert AttacksFrom(b, Pos(q.row, q.col), t, color);
  }

  lemma {:induction false} FilterSafeIff(e: Engine, b: Board, from: Pos, piece: Piece, ms: seq<Pos>, m: Pos)
    requires InGrid(from) && forall x | x in ms :: InGrid(x)
    ensures m in FilterSafe(e, b, from, piece, ms) <==> m in ms && Safe(e, b, from, piece, m)
  {
    if ms != [] {
      var n := |ms| - 1;
      FilterSafeIff(e, b, from, piece, ms[..n], m);
      assert ms == ms[..n] + [ms[n]];
    }
  }

  /**
   * getAvailableMoves keeps exactly the pseudo-legal moves (castling included
   * in the Utils engine) whose simulation passes the king test.
   */
  lemma LegalIff(e: Engine, b: Board, p: Pos, m: Pos)
    requires InGrid(p)
    ensures m in Legal(e, b, p) <==>
      At(b, p).Some? && m in Generate(b, p, e == Utils) && InGrid(m) && Safe(e, b, p, At(b, p).value, m)
  {
    if At(b, p).Some? {
      GeneratedInGrid(b, p, e == Utils);
      FilterSafeIff(e, b, p, At(b, p).value, Generate(b, p, e == Utils), m);
    }
  }

  /**
   * In the Utils engine a legal move leaves the mover's king on the board
   * and not attacked; in the server.js engine a move after which no king is
   * found is kept.
   */
  lemma LegalKeepsKingSafe(e: Engine, b: Board, p: Pos, piece: Piece, m: Pos)
    requires InGrid(p) && At(b, p) == Some(piece) && m in Legal(e, b, p)
    ensures InGrid(m)
    ensures
      var nb := Simulate(b, p, m, piece, e == Utils);
      match FindKing(nb, piece.color)
      case None => e == ServerJs
      case Some(k) => !UnderAttack(nb, k, piece.color)
  {
    LegalIff(e, b, p, m);
  }

  /** A king-free result is kept by server.js and dropped by the Utils engine. */
  lemma KingLossPolicy(e: Engine, b: Board, p: Pos, piece: Piece, m: Pos)
    requires InGrid(p) && At(b, p) == Some(piece) && m in Generate(b, p, e == Utils) && InGrid(m)
    requires FindKing(Simulate(b, p, m, piece, e == Utils), piece.color).None?
    ensures m in Legal(e, b, p) <==> e == ServerJs
  {
    LegalIff(e, b, p, m);
  }

  /** The only squares ever populated are those of the cross. */
  ghost predicate CrossOnly(b: Board)
  {
    forall q :: InGrid(q) && !IsValidPosition(q) ==> At(b, q).None?
  }

  /** On a cross-only board every legal destination is a valid, non-own square. */
  lemma LegalSound(e: Engine, b: Board, p: Pos, m: Pos)
    requires CrossOnly(b) && InGrid(p) && m in Legal(e, b, p)
    ensures At(b, p).Some? && IsValidPosition(p)
    ensures IsValidPosition(m) && !IsPieceOf(At(b, m), At(b, p).value.color)
  {
    LegalIff(e, b, p, m);
    GenerateSound(b, p, e == Utils, m);
  }
}
