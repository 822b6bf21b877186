/**
 * The state of the two-player board of components/chess-board.tsx and the
 * handlers that replace it: the click handler that selects, deselects,
 * reselects and plays a move (capture recorded for the mover, piece marked
 * as moved, pawn promoted to a queen on row 0 or 7, turn passed to the
 * other side), the status effect that recomputes check, checkmate and
 * stalemate, and the reset.
 */
module LegacyGame {
  import opened ChessTypes
  import opened LegacyRules
  import LegacyEngine

  /** capturedPieces: the pieces each side has taken. */
  datatype Captured = Captured(white: seq<LegacyPiece>, black: seq<LegacyPiece>)

  function TakenBy(c: Captured, side: Side): seq<LegacyPiece>
  {
    if side == White then c.white else c.black
  }

  datatype LegacyState = LegacyState(
    board: Board8,
    currentPlayer: Side,
    selectedPiece: Option<Pos>,
    availableMoves: seq<Pos>,
    capturedPieces: Captured,
    isCheck: bool,
    isCheckmate: bool,
    isStalemate: bool)

  /** The component's initial and reset state: the starting position, white to move, nothing taken, no status. */
  function NewState(): LegacyState
  {
    LegacyState(InitialBoard(), White, None, [], Captured([], []), false, false, false)
  }

  /**
   * The selection the component keeps: a selected square holds a piece of
   * the side to move and the available moves are its legal moves; with
   * nothing selected there are none.
   */
  predicate Selection(s: LegacyState)
  {
    match s.selectedPiece
    case None => s.availableMoves == []
    case Some(sel) => OnBoard(sel) && IsOwn(Get(s.board, sel), s.currentPlayer) && s.availableMoves == Legal(s.board, sel)
  }

  // ------------------------------------------------------------ playing a move

  /** The moving piece as it lands: marked as moved, and a queen when a pawn reaches row 0 or row 7. */
  function Landed(piece: LegacyPiece, to: Pos): LegacyPiece
  {
    var moved := piece.(hasMoved := true);
    if moved.kind == Pawn && (to.row == 0 || to.row == 7) then moved.(kind := Queen) else moved
  }

  /** The move branch of handleSquareClick, from the selected square `from` to `to`. */
  function PlayMove(s: LegacyState, from: Pos, to: Pos): LegacyState
    requires OnBoard(from) && OnBoard(to) && Get(s.board, from).Some?
  {
    var piece := Get(s.board, from).value;
    var taken := Get(s.board, to);
    var captured :=
      if taken.None? then s.capturedPieces
      else if s.currentPlayer == White then s.capturedPieces.(white := s.capturedPieces.white + [taken.value])
      else s.capturedPieces.(black := s.capturedPieces.black + [taken.value]);
    s.(board := Set(Set(s.board, to, Some(Landed(piece, to))), from, None),
       currentPlayer := Opponent(s.currentPlayer),
       selectedPiece := None,
       availableMoves := [],
       capturedPieces := captured)
  }

  /**
   * What a move does: the piece lands on `to` marked as moved (a pawn
   * reaching row 0 or 7 as a queen), `from` is emptied, every other square
   * keeps its piece, a captured piece is appended to the mover's list and
   * to no other, the turn passes to the other side, the selection is
   * cleared and the status flags are left to the status effect.
   */
  lemma MoveEffects(s: LegacyState, from: Pos, to: Pos)
    requires OnBoard(from) && OnBoard(to) && from != to && Get(s.board, from).Some?
    ensures var t := PlayMove(s, from, to);
      var piece := Get(s.board, from).value;
      var taken := Get(s.board, to);
      && Get(t.board, to).Some? && Get(t.board, to).value.side == piece.side && Get(t.board, to).value.hasMoved
      && Get(t.board, to).value.kind == (if piece.kind == Pawn && (to.row == 0 || to.row == 7) then Queen else piece.kind)
      && Get(t.board, from).None?
      && (forall q | OnBoard(q) && q != from && q != to :: Get(t.board, q) == Get(s.board, q))
      && TakenBy(t.capturedPieces, s.currentPlayer) == TakenBy(s.capturedPieces, s.currentPlayer) + (if taken.Some? then [taken.value] else [])
      && TakenBy(t.capturedPieces, Opponent(s.currentPlayer)) == TakenBy(s.capturedPieces, Opponent(s.currentPlayer))
      && t.currentPlayer != s.currentPlayer && Opponent(t.currentPlayer) == s.currentPlayer
      && t.selectedPiece.None? && t.availableMoves == [] && Selection(t)
      && t.isCheck == s.isCheck && t.isCheckmate == s.isCheckmate && t.isStalemate == s.isStalemate
  {
  }

  // -------------------------------------------------------- counting pieces

  function CountCells(row: seq<Cell>): nat
  {
    if row == [] then 0 else CountCells(row[..|row| - 1]) + (if row[|row| - 1].Some? then 1 else 0)
  }

  function CountRows(rows: seq<seq<Cell>>): nat
  {
    if rows == [] then 0 else CountRows(rows[..|rows| - 1]) + CountCells(rows[|rows| - 1])
  }

  /** The number of pieces on the board. */
  function PieceCount(b: Board8): nat
  {
    CountRows(b)
  }

  function Occupied(s: Cell): nat
  {
    if s.Some? then 1 else 0
  }

  lemma {:induction false} CountCellsUpdate(row: seq<Cell>, c: int, s: Cell)
    requires 0 <= c < |row|
    ensures CountCells(row[c := s]) + Occupied(row[c]) == CountCells(row) + Occupied(s)
  {
    var n := |row| - 1;
    if c == n {
      assert row[c := s][..n] == row[..n];
    } else {
      assert row[c := s][..n] == row[..n][c := s];
      CountCellsUpdate(row[..n], c, s);
    }
  }

  lemma {:induction false} CountRowsUpdate(rows: seq<seq<Cell>>, r: int, newRow: seq<Cell>)
    requires 0 <= r < |rows|
    ensures CountRows(rows[r := newRow]) + CountCells(rows[r]) == CountRows(rows) + CountCells(newRow)
  {
    var n := |rows| - 1;
    if r == n {
      assert rows[r := newRow][..n] == rows[..n];
    } else {
      assert rows[r := newRow][..n] == rows[..n][r := newRow];
      CountRowsUpdate(rows[..n], r, newRow);
    }
  }

  /** Writing a square changes the piece count by what was removed and what was put. */
  lemma SetCount(b: Board8, p: Pos, s: Cell)
    requires OnBoard(p)
    ensures PieceCount(Set(b, p, s)) + Occupied(Get(b, p)) == PieceCount(b) + Occupied(s)
  {
    CountCellsUpdate(b[p.row], p.col, s);
    CountRowsUpdate(b, p.row, b[p.row][p.col := s]);
  }

  /** A move neither creates nor loses a piece: the pieces on the board plus the captured ones stay the same number. */
  lemma MoveConservesPieces(s: LegacyState, from: Pos, to: Pos)
    requires OnBoard(from) && OnBoard(to) && from != to && Get(s.board, from).Some?
    ensures var t := PlayMove(s, from, to);
      PieceCount(t.board) + |t.capturedPieces.white| + |t.capturedPieces.black|
        == PieceCount(s.board) + |s.capturedPieces.white| + |s.capturedPieces.black|
  {
    var piece := Get(s.board, from).value;
    var b1 := Set(s.board, to, Some(Landed(piece, to)));
    SetCount(s.board, to, Some(Landed(piece, to)));
    SetCount(b1, from, None);
  }

  // ------------------------------------------------------------------- clicks

  /**
   * handleSquareClick: select an own piece when nothing is selected;
   * deselect on the selected square; switch to another own piece; play the
   * selected piece to a square among its available moves; otherwise nothing.
   */
  function Click(s: LegacyState, row: int, col: int): LegacyState
    requires 0 <= row < 8 && 0 <= col < 8 && Selection(s)
  {
    var target := Pos(row, col);
    var piece := Get(s.board, target);
    if s.selectedPiece.None? then
      if IsOwn(piece, s.currentPlayer) then s.(selectedPiece := Some(target), availableMoves := Legal(s.board, target))
      else s
    else if s.selectedPiece.value == target then s.(selectedPiece := None, availableMoves := [])
    else if IsOwn(piece, s.currentPlayer) then s.(selectedPiece := Some(target), availableMoves := Legal(s.board, target))
    else if target in s.availableMoves then PlayMove(s, s.selectedPiece.value, target)
    else s
  }

  /**
   * What a click can do: the selection stays consistent; a click on the
   * selected square deselects it; the status flags never change; the board,
   * the turn and the captures change only when a piece is selected and the
   * clicked square is one of its legal moves, and then by that move.
   */
  lemma ClickEffects(s: LegacyState, row: int, col: int)
    requires 0 <= row < 8 && 0 <= col < 8 && Selection(s)
    ensures var t := Click(s, row, col);
      && Selection(t)
      && (s.selectedPiece == Some(Pos(row, col)) ==> t == s.(selectedPiece := None, availableMoves := []))
      && t.isCheck == s.isCheck && t.isCheckmate == s.isCheckmate && t.isStalemate == s.isStalemate
      && (t.board != s.board || t.currentPlayer != s.currentPlayer || t.capturedPieces != s.capturedPieces ==>
            && s.selectedPiece.Some? && Pos(row, col) in Legal(s.board, s.selectedPiece.value)
            && t == PlayMove(s, s.selectedPiece.value, Pos(row, col)))
  {
    var target := Pos(row, col);
    if s.selectedPiece.Some? && s.selectedPiece.value != target && !IsOwn(Get(s.board, target), s.currentPlayer) {
      var from := s.selectedPiece.value;
      if target in s.availableMoves {
        assert Get(s.board, from).Some?;
        assert Selection(PlayMove(s, from, target));
      }
    }
  }

  /** A move click plays a pseudo-legal move of the selected piece after which the mover's first king, if any, is not attacked. */
  lemma MoveClickIsLegal(s: LegacyState, row: int, col: int)
    requires 0 <= row < 8 && 0 <= col < 8 && Selection(s)
    requires Click(s, row, col).board != s.board
    ensures var from := s.selectedPiece.value;
      var piece := Get(s.board, from).value;
      var nb := Simulate(s.board, from, Pos(row, col), piece);
      && Pos(row, col) in Generate(s.board, from) && Pos(row, col) != from
      && (FindKing(nb, piece.side).Some? ==> !UnderAttack(nb, FindKing(nb, piece.side).value, piece.side))
  {
    ClickEffects(s, row, col);
    var from := s.selectedPiece.value;
    LegalIff(s.board, from, Pos(row, col));
    GenerateNeverOwn(s.board, from, Pos(row, col));
  }

  // ---------------------------------------------------------- status effect

  /**
   * The status effect: when the side to move has a king, the three flags
   * become the classification of the board; without a king nothing changes.
   */
  function StatusEffect(s: LegacyState): LegacyState
  {
    match Classify(s.board, s.currentPlayer)
    case None => s
    case Some(st) => s.(isCheck := st.isCheck, isCheckmate := st.isCheckmate, isStalemate := st.isStalemate)
  }

  /**
   * The effect changes only the flags and keeps the selection consistent;
   * with a king on the board checkmate is check with no legal move,
   * stalemate is no check with no legal move, and never both.
   */
  lemma StatusEffectMeaning(s: LegacyState)
    requires Selection(s)
    ensures var t := StatusEffect(s);
      && Selection(t) && t.board == s.board && t.currentPlayer == s.currentPlayer
      && t.selectedPiece == s.selectedPiece && t.capturedPieces == s.capturedPieces
      && (FindKing(s.board, s.currentPlayer).None? ==> t == s)
      && (FindKing(s.board, s.currentPlayer).Some? ==>
            var stuck := forall q | OnBoard(q) && IsOwn(Get(s.board, q), s.currentPlayer) :: Legal(s.board, q) == [];
            && (t.isCheckmate <==> t.isCheck && stuck)
            && (t.isStalemate <==> !t.isCheck && stuck)
            && !(t.isCheckmate && t.isStalemate))
  {
    ClassifyMeaning(s.board, s.currentPlayer);
  }

  // ---------------------------------------------------------- the component

  /** The component's state and the handlers that replace it. */
  class LegacyChessBoard {
    var gameState: LegacyState

    predicate Valid()
      reads this
    {
      Selection(gameState)
    }

    /** The initial state: the starting position, white to move. */
    constructor ()
      ensures gameState == NewState() && Valid()
    {
      var board := LegacyEngine.InitializeBoard();
      gameState := LegacyState(board, White, None, [], Captured([], []), false, false, false);
    }

    /** handleSquareClick on (row, col). */
    method HandleSquareClick(row: int, col: int)
      requires 0 <= row < 8 && 0 <= col < 8 && Valid()
      modifies this
      ensures gameState == Click(old(gameState), row, col) && Valid()
    {
      ClickEffects(gameState, row, col);
      var board := gameState.board;
      var currentPlayer := gameState.currentPlayer;
      var selectedPiece := gameState.selectedPiece;
      var piece := board[row][col];
      if selectedPiece.None? && piece.Some? && piece.value.side == currentPlayer {
        var availableMoves := LegacyEngine.GetAvailableMoves(board, Pos(row, col));
        gameState := gameState.(selectedPiece := Some(Pos(row, col)), availableMoves := availableMoves);
        return;
      }
      if selectedPiece.Some? {
        var sel := selectedPiece.value;
        if sel.row == row && sel.col == col {
          gameState := gameState.(selectedPiece := None, availableMoves := []);
          return;
        }
        if piece.Some? && piece.value.side == currentPlayer {
          var availableMoves := LegacyEngine.GetAvailableMoves(board, Pos(row, col));
          gameState := gameState.(selectedPiece := Some(Pos(row, col)), availableMoves := availableMoves);
          return;
        }
        var isValidMove := Pos(row, col) in gameState.availableMoves;
        if isValidMove {
          var movingPiece := board[sel.row][sel.col].value;
          var capturedPiece := board[row][col];
          var newCapturedPieces := gameState.capturedPieces;
          if capturedPiece.Some? {
            if currentPlayer == White {
              newCapturedPieces := newCapturedPieces.(white := newCapturedPieces.white + [capturedPiece.value]);
            } else {
              newCapturedPieces := newCapturedPieces.(black := newCapturedPieces.black + [capturedPiece.value]);
            }
          }
          movingPiece := movingPiece.(hasMoved := true);
          if movingPiece.kind == Pawn && (row == 0 || row == 7) {
            movingPiece := movingPiece.(kind := Queen);
          }
          var newBoard := Set(board, Pos(row, col), Some(movingPiece));
          newBoard := Set(newBoard, sel, None);
          gameState := gameState.(board := newBoard, currentPlayer := if currentPlayer == White then Black else White,
            selectedPiece := None, availableMoves := [], capturedPieces := newCapturedPieces);
        }
      }
    }

    /** The effect that runs after the board or the side to move changed. */
    method RefreshStatus()
      requires Valid()
      modifies this
      ensures gameState == StatusEffect(old(gameState)) && Valid()
    {
      StatusEffectMeaning(gameState);
      var status := LegacyEngine.CheckStatus(gameState.board, gameState.currentPlayer);
      if status.Some? {
        var st := status.value;
        if gameState.isCheck != st.isCheck || gameState.isCheckmate != st.isCheckmate || gameState.isStalemate != st.isStalemate {
          gameState := gameState.(isCheck := st.isCheck, isCheckmate := st.isCheckmate, isStalemate := st.isStalemate);
        }
      }
    }

    /** resetGame: back to the starting position, white to move, nothing taken and no status. */
    method ResetGame()
      modifies this
      ensures gameState == NewState() && Valid()
    {
      var board := LegacyEngine.InitializeBoard();
      gameState := LegacyState(board, White, None, [], Captured([], []), false, false, false);
    }
  }
}
