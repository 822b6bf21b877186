/**
 * What a validated move does to the game state, as executeMove in
 * lib/socket-server.ts and server.js and the move branch of the client
 * hook's handleSquareClick write it: the captured piece goes to the mover's
 * list, the moving piece is marked as moved, a two-column king move also
 * moves its rook, a pawn reaching its promotion line becomes a queen, and
 * the status evaluation runs on the new board.
 */
module MoveExecution {
  import opened ChessTypes
  import opened MoveRules
  import opened MoveRulesLemmas
  import opened GameStatus

  /** capturedPieces: one list per colour, at the colour's index in turn order. */
  type Captures = s: seq<seq<Piece>> | |s| == 4 witness [[], [], [], []]

  const NO_CAPTURES: Captures := [[], [], [], []]

  function CapturedBy(captured: Captures, c: Color): seq<Piece>
  {
    captured[IndexOf(c)]
  }

  /** The GameState record of types/chess.ts. */
  datatype GameState = GameState(
    board: Board,
    currentPlayer: Color,
    selected: Option<Pos>,
    available: seq<Pos>,
    captured: Captures,
    inCheck: seq<Color>,
    eliminated: seq<Color>,
    winner: Option<Color>)

  /** The state a new or reset game starts from, on the given starting board. */
  function NewGame(board: Board): (s: GameState)
    ensures s.currentPlayer == Red && s.selected.None? && s.available == []
    ensures forall c :: CapturedBy(s.captured, c) == []
    ensures s.inCheck == [] && s.eliminated == [] && s.winner.None?
  {
    GameState(board, Red, None, [], NO_CAPTURES, [], [], None)
  }

  // ----------------------------------------------------- applying a move

  /** The promotion lines, chosen by the colour whose turn it is. */
  predicate IsPromotion(player: Color, to: Pos)
  {
    || (player == Yellow && to.row == 7)
    || (player == Red && to.row == 6)
    || (player == Blue && to.col == 7)
    || (player == Green && to.col == 6)
  }

  predicate IsCastlingMove(piece: Piece, from: Pos, to: Pos)
  {
    piece.kind == King && Abs(to.col - from.col) == 2
  }

  /** Column the rook is taken from: three to the right or four to the left, for every colour. */
  function RookFrom(from: Pos, to: Pos): int
  {
    if to.col > from.col then from.col + 3 else from.col - 4
  }

  /** Column the rook is put on: next to the king's starting square, on the side it moves to. */
  function RookTo(from: Pos, to: Pos): int
  {
    if to.col > from.col then from.col + 1 else from.col - 1
  }

  /** The moving piece as it lands: marked as moved, and a queen when a pawn reaches its line. */
  function Landed(piece: Piece, player: Color, to: Pos): Piece
  {
    var moved := piece.(hasMoved := true);
    if moved.kind == Pawn && IsPromotion(player, to) then moved.(kind := Queen) else moved
  }

  /**
   * The board after the move: rook relocation first (when the king moves two
   * columns), then the moving piece on `to`, then `from` emptied. An empty
   * rook square stays empty; a validated move never has one
   * (LegalCastlingHasRook).
   */
  function ApplyMove(b: Board, from: Pos, to: Pos, player: Color): Board
    requires InGrid(from) && InGrid(to) && At(b, from).Some?
  {
    var piece := At(b, from).value;
    var withRook :=
      if IsCastlingMove(piece, from, to) && 0 <= RookFrom(from, to) < 14 && 0 <= RookTo(from, to) < 14 then
        var rookSq := Pos(from.row, RookFrom(from, to));
        var rook := match At(b, rookSq) case Some(r) => Some(r.(hasMoved := true)) case None => None;
        Put(Put(b, Pos(from.row, RookTo(from, to)), rook), rookSq, None)
      else b;
    Put(Put(withRook, to, Some(Landed(piece, player, to))), from, None)
  }

  /** The piece lands on `to`, marked as moved, and `from` is empty. */
  lemma MovedPieceLands(b: Board, from: Pos, to: Pos, player: Color)
    requires InGrid(from) && InGrid(to) && At(b, from).Some? && from != to
    ensures At(ApplyMove(b, from, to, player), to) == Some(Landed(At(b, from).value, player, to))
    ensures At(ApplyMove(b, from, to, player), from) == None
    ensures At(ApplyMove(b, from, to, player), to).value.hasMoved
    ensures At(ApplyMove(b, from, to, player), to).value.color == At(b, from).value.color
  {
  }

  /** A piece becomes a queen exactly when it is a pawn arriving on the mover's promotion line. */
  lemma PromotionIff(piece: Piece, player: Color, to: Pos)
    ensures Landed(piece, player, to).kind == Queen <==> piece.kind == Queen || (piece.kind == Pawn && IsPromotion(player, to))
    ensures Landed(piece, player, to).kind != piece.kind <==> piece.kind == Pawn && IsPromotion(player, to)
  {
  }

  /** Apart from `from`, `to` and, for a two-column king move, the two rook squares, nothing changes. */
  lemma OtherSquaresUnchanged(b: Board, from: Pos, to: Pos, player: Color, q: Pos)
    requires InGrid(from) && InGrid(to) && At(b, from).Some? && InGrid(q)
    requires q != from && q != to
    requires IsCastlingMove(At(b, from).value, from, to) ==>
      q != Pos(from.row, RookFrom(from, to)) && q != Pos(from.row, RookTo(from, to))
    ensures At(ApplyMove(b, from, to, player), q) == At(b, q)
  {
  }

  /** A two-column king move takes the rook off its square and puts it, marked as moved, beside the king's start. */
  lemma CastlingMovesRook(b: Board, from: Pos, to: Pos, player: Color)
    requires InGrid(from) && InGrid(to) && At(b, from).Some? && IsCastlingMove(At(b, from).value, from, to)
    requires to.row == from.row
    requires 0 <= RookFrom(from, to) < 14 && At(b, Pos(from.row, RookFrom(from, to))).Some?
    ensures var r := ApplyMove(b, from, to, player);
      && At(r, Pos(from.row, RookFrom(from, to))) == None
      && At(r, Pos(from.row, RookTo(from, to))) == Some(At(b, Pos(from.row, RookFrom(from, to))).value.(hasMoved := true))
  {
  }

  /** A legal destination is never the square the piece stands on. */
  lemma LegalMoveLeavesSquare(e: Engine, b: Board, p: Pos, m: Pos)
    requires InGrid(p) && m in Legal(e, b, p)
    ensures m != p && InGrid(m) && At(b, p).Some?
  {
    LegalIff(e, b, p, m);
    GeneratedLeavesSquare(b, p, e == Utils, m);
  }

  lemma GeneratedLeavesSquare(b: Board, p: Pos, castling: bool, m: Pos)
    requires InGrid(p) && At(b, p).Some? && m in Generate(b, p, castling)
    ensures m != p
  {
    var piece := At(b, p).value;
    if piece.kind != King {
      assert Generate(b, p, castling) == Generate(b, p, false);
      GenerateSound(b, p, false, m);
    } else if m in Leaps(b, p, piece.color, KING_OFFSETS) {
      assert m in Generate(b, p, false);
      KingMovesWithoutCastling(b, p, m);
    } else {
      assert m in CastlingMoves(b, p, piece.color);
      assert m in KingSideCastle(b, p, piece.color) || m in QueenSideCastle(b, p, piece.color);
    }
  }

  /**
   * A legal two-column king move is a castling move of the Utils engine, and
   * its rook is an unmoved rook of the mover on the cross.
   */
  lemma LegalCastlingHasRook(e: Engine, b: Board, p: Pos, m: Pos)
    requires InGrid(p) && m in Legal(e, b, p) && At(b, p).Some? && IsCastlingMove(At(b, p).value, p, m)
    ensures e == Utils && m.row == p.row
    ensures 0 <= RookFrom(p, m) < 14 && 0 <= RookTo(p, m) < 14
    ensures IsCastlingRook(At(b, Pos(p.row, RookFrom(p, m))), At(b, p).value.color)
  {
    LegalIff(e, b, p, m);
    TwoColumnKingMoveIsCastling(b, p, e == Utils, m);
  }

  /**
   * The board update of executeMove and of the hook's move branch: the
   * castling rook first, then the moving piece (marked as moved, promoted on
   * its line) on `to`, then `from` emptied.
   */
  method MovePiece(b: Board, from: Pos, to: Pos, player: Color) returns (newBoard: Board)
    requires InGrid(from) && InGrid(to) && At(b, from).Some?
    requires IsCastlingMove(At(b, from).value, from, to) ==>
      0 <= RookFrom(from, to) < 14 && 0 <= RookTo(from, to) < 14 && At(b, Pos(from.row, RookFrom(from, to))).Some?
    ensures newBoard == ApplyMove(b, from, to, player)
  {
    newBoard := b;
    var movingPiece := b[from.row][from.col].value;
    movingPiece := movingPiece.(hasMoved := true);
    if movingPiece.kind == King && Abs(to.col - from.col) == 2 {
      var isKingSide := to.col > from.col;
      var rookCol := if isKingSide then from.col + 3 else from.col - 4;
      var rookNewCol := if isKingSide then from.col + 1 else from.col - 1;
      var rook := newBoard[from.row][rookCol].value.(hasMoved := true);
      newBoard := Put(newBoard, Pos(from.row, rookNewCol), Some(rook));
      newBoard := Put(newBoard, Pos(from.row, rookCol), None);
    }
    if movingPiece.kind == Pawn && IsPromotion(player, to) {
      movingPiece := movingPiece.(kind := Queen);
    }
    newBoard := Put(newBoard, to, Some(movingPiece));
    newBoard := Put(newBoard, from, None);
  }

  // ----------------------------------------------------- the whole move

  /** executeMove's acceptance test: a piece of the colour to move on `from`, and `to` among its legal moves. */
  predicate CanExecute(e: Engine, s: GameState, from: Pos, to: Pos)
  {
    InGrid(from) && IsPieceOf(At(s.board, from), s.currentPlayer) && to in Legal(e, s.board, from)
  }

  /** The capture recorded for the mover, when `to` holds a piece. */
  function RecordCapture(captured: Captures, player: Color, target: Square): Captures
  {
    match target
    case None => captured
    case Some(p) => captured[IndexOf(player) := CapturedBy(captured, player) + [p]]
  }

  /** The captured piece is appended to the mover's list and no other list changes. */
  lemma RecordCaptureEffect(captured: Captures, player: Color, target: Square)
    ensures CapturedBy(RecordCapture(captured, player, target), player) ==
      CapturedBy(captured, player) + (if target.Some? then [target.value] else [])
    ensures forall c | c != player :: CapturedBy(RecordCapture(captured, player, target), c) == CapturedBy(captured, c)
  {
  }

  /**
   * The turn after the status evaluation: it stays when there is a winner
   * (and, where the source would loop forever, when no colour is left),
   * otherwise it passes to the next colour not eliminated.
   */
  function NextTurn(current: Color, eliminated: seq<Color>, winner: Option<Color>): Color
  {
    if winner.Some? || |Active(eliminated)| == 0 then current
    else NextPlayer(current, eliminated)
  }

  /** updateGameStatus on a state whose board has just been moved on. */
  function StatusUpdated(e: Engine, s: GameState): GameState
  {
    var st := Evaluate(e, s.board, s.eliminated);
    var winner := Winner(st.eliminated);
    s.(board := st.board, inCheck := st.inCheck, eliminated := st.eliminated, winner := winner,
       currentPlayer := NextTurn(s.currentPlayer, st.eliminated, winner))
  }

  /** The state executeMove hands to updateGameStatus: capture recorded, pieces moved, selection cleared. */
  function MovedState(e: Engine, s: GameState, from: Pos, to: Pos): GameState
    requires CanExecute(e, s, from, to)
  {
    LegalMoveLeavesSquare(e, s.board, from, to);
    s.(captured := RecordCapture(s.captured, s.currentPlayer, At(s.board, to)),
       board := ApplyMove(s.board, from, to, s.currentPlayer),
       selected := None,
       available := [])
  }

  /** The state after executeMove has accepted the move from `from` to `to`. */
  function AfterMove(e: Engine, s: GameState, from: Pos, to: Pos): GameState
    requires CanExecute(e, s, from, to)
  {
    StatusUpdated(e, MovedState(e, s, from, to))
  }

  /**
   * After an accepted move: the selection is cleared, the eliminations only
   * grow, the winner is the single colour left (if one), and otherwise the
   * turn goes to a colour that is still playing.
   */
  lemma AfterMoveState(e: Engine, s: GameState, from: Pos, to: Pos)
    requires CanExecute(e, s, from, to)
    ensures var t := AfterMove(e, s, from, to);
      && t.selected.None? && t.available == []
      && |s.eliminated| <= |t.eliminated| && t.eliminated[..|s.eliminated|] == s.eliminated
      && (forall w :: t.winner == Some(w) <==> w !in t.eliminated && forall c | c != w :: c in t.eliminated)
      && (t.winner.Some? ==> t.currentPlayer == s.currentPlayer)
      && (t.winner.None? && (exists c :: c !in t.eliminated) ==> t.currentPlayer !in t.eliminated)
  {
    LegalMoveLeavesSquare(e, s.board, from, to);
    var b := ApplyMove(s.board, from, to, s.currentPlayer);
    EliminationMonotone(e, b, s.eliminated);
    var t := AfterMove(e, s, from, to);
    forall w
      ensures t.winner == Some(w) <==> w !in t.eliminated && forall c | c != w :: c in t.eliminated
    {
      WinnerIff(t.eliminated, w);
    }
    ActiveIff(t.eliminated);
    if t.winner.None? && exists c :: c !in t.eliminated {
      var c :| c !in t.eliminated;
      assert c in Active(t.eliminated);
      NextPlayerActive(s.currentPlayer, t.eliminated);
    }
  }

  /** NextPlayer lands on a colour that is not eliminated, when there is one. */
  lemma NextPlayerActive(current: Color, eliminated: seq<Color>)
    requires exists c :: c !in eliminated
    ensures NextPlayer(current, eliminated) !in eliminated
  {
    var w :| w !in eliminated;
    var i := IndexOf(current);
    assert w == current || w == ORDER[(i + 1) % 4] || w == ORDER[(i + 2) % 4] || w == ORDER[(i + 3) % 4];
  }
}
