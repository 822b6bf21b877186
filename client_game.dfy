/**
 * The single-screen game of hooks/use-four-player-chess.ts: the game state
 * held by the hook, the click handler that selects, deselects, reselects
 * and moves, and the reset. The hook evaluates moves with the utils engine.
 */
module ClientGame {
  import opened ChessTypes
  import opened MoveRules
  import opened MoveRulesLemmas
  import opened GameStatus
  import opened MoveExecution
  import MoveCalculator
  import BoardSetup

  /**
   * The selection the hook keeps: a selected square holds a piece of the
   * colour to move and the available moves are that piece's legal moves;
   * with nothing selected there are none.
   */
  predicate Selection(s: GameState)
  {
    match s.selected
    case None => s.available == []
    case Some(sel) => InGrid(sel) && IsPieceOf(At(s.board, sel), s.currentPlayer) && s.available == Legal(Utils, s.board, sel)
  }

  /** The state after a click on (row, col). */
  function Click(s: GameState, row: int, col: int): GameState
    requires 0 <= row < 14 && 0 <= col < 14 && Selection(s)
  {
    var target := Pos(row, col);
    var piece := s.board[row][col];
    if s.currentPlayer in s.eliminated then s
    else if s.selected.None? then
      if IsPieceOf(piece, s.currentPlayer) then s.(selected := Some(target), available := Legal(Utils, s.board, target))
      else s
    else if s.selected.value == target then s.(selected := None, available := [])
    else if IsPieceOf(piece, s.currentPlayer) then s.(selected := Some(target), available := Legal(Utils, s.board, target))
    else if target in s.available then AfterMove(Utils, s, s.selected.value, target)
    else s
  }

  /**
   * What a click can do: nothing while the colour to move is eliminated;
   * a click on the selected square deselects it; the board, the turn, the
   * captures and the status lists change only when a piece is selected and
   * the clicked square is one of its available moves, and then the result
   * is the move from the selected square; the selection stays consistent.
   */
  lemma ClickEffects(s: GameState, row: int, col: int)
    requires 0 <= row < 14 && 0 <= col < 14 && Selection(s)
    ensures var t := Click(s, row, col);
      && Selection(t)
      && (s.currentPlayer in s.eliminated ==> t == s)
      && (s.currentPlayer !in s.eliminated && s.selected == Some(Pos(row, col)) ==>
            t == s.(selected := None, available := []))
      && (t.board != s.board || t.currentPlayer != s.currentPlayer || t.captured != s.captured || t.eliminated != s.eliminated ==>
            && s.currentPlayer !in s.eliminated && s.selected.Some? && Pos(row, col) in s.available
            && CanExecute(Utils, s, s.selected.value, Pos(row, col))
            && t == AfterMove(Utils, s, s.selected.value, Pos(row, col)))
  {
    var t := Click(s, row, col);
    if t.board != s.board || t.currentPlayer != s.currentPlayer || t.captured != s.captured || t.eliminated != s.eliminated {
      assert s.selected.Some? && Pos(row, col) in s.available;
    }
  }

  /**
   * A move click leaves nothing selected, only adds eliminations, names the
   * last colour standing as winner and keeps the turn with the mover when
   * there is one; otherwise the turn passes to a colour still playing.
   */
  lemma MoveClickOutcome(s: GameState, row: int, col: int)
    requires 0 <= row < 14 && 0 <= col < 14 && Selection(s)
    requires s.currentPlayer !in s.eliminated && s.selected.Some? && s.selected.value != Pos(row, col)
    requires !IsPieceOf(s.board[row][col], s.currentPlayer) && Pos(row, col) in s.available
    ensures var t := Click(s, row, col);
      && t.selected.None? && t.available == []
      && |s.eliminated| <= |t.eliminated| && t.eliminated[..|s.eliminated|] == s.eliminated
      && (forall w :: t.winner == Some(w) <==> w !in t.eliminated && forall c | c != w :: c in t.eliminated)
      && (t.winner.Some? ==> t.currentPlayer == s.currentPlayer)
      && (t.winner.None? && (exists c :: c !in t.eliminated) ==> t.currentPlayer !in t.eliminated)
  {
    AfterMoveState(Utils, s, s.selected.value, Pos(row, col));
  }

  /** The hook's state and the handlers that replace it. */
  class FourPlayerGame {
    var gameState: GameState

    predicate Valid()
      reads this
    {
      Selection(gameState)
    }

    /** The hook's initial state: the starting position, red to move. */
    constructor ()
      ensures gameState == NewGame(BoardSetup.InitialBoard()) && Valid()
    {
      var board := BoardSetup.InitializeBoard();
      gameState := NewGame(board);
    }

    /**
     * handleSquareClick: ignored while the colour to move is eliminated;
     * select an own piece, deselect on the selected square, switch to
     * another own piece, or play the selected piece to a square among its
     * available moves and evaluate the new board.
     */
    method HandleSquareClick(row: int, col: int)
      requires 0 <= row < 14 && 0 <= col < 14 && Valid()
      modifies this
      ensures gameState == Click(old(gameState), row, col) && Valid()
    {
      ClickEffects(gameState, row, col);
      var board := gameState.board;
      var currentPlayer := gameState.currentPlayer;
      var selectedPiece := gameState.selected;
      if currentPlayer in gameState.eliminated {
        return;
      }
      var piece := board[row][col];
      if selectedPiece.None? && piece.Some? && piece.value.color == currentPlayer {
        var availableMoves := MoveCalculator.GetAvailableMoves(Utils, board, Pos(row, col));
        gameState := gameState.(selected := Some(Pos(row, col)), available := availableMoves);
        return;
      }
      if selectedPiece.Some? {
        var sel := selectedPiece.value;
        if sel.row == row && sel.col == col {
          gameState := gameState.(selected := None, available := []);
          return;
        }
        if piece.Some? && piece.value.color == currentPlayer {
          var availableMoves := MoveCalculator.GetAvailableMoves(Utils, board, Pos(row, col));
          gameState := gameState.(selected := Some(Pos(row, col)), available := availableMoves);
          return;
        }
        var isValidMove := Pos(row, col) in gameState.available;
        if isValidMove {
          var to := Pos(row, col);
          LegalMoveLeavesSquare(Utils, board, sel, to);
          if IsCastlingMove(board[sel.row][sel.col].value, sel, to) {
            LegalCastlingHasRook(Utils, board, sel, to);
          }
          var newCaptured := gameState.captured;
          if piece.Some? {
            newCaptured := newCaptured[IndexOf(currentPlayer) := CapturedBy(newCaptured, currentPlayer) + [piece.value]];
          }
          var newBoard := MovePiece(board, sel, to, currentPlayer);
          var playersInCheck, newEliminated, gameWinner, updatedBoard := CheckGameStatus(Utils, newBoard, gameState.eliminated);
          var nextPlayer := currentPlayer;
          if gameWinner.None? && |Active(newEliminated)| > 0 {
            ActiveIff(newEliminated);
            assert Active(newEliminated)[0] !in newEliminated;
            nextPlayer := GetNextPlayer(currentPlayer, newEliminated);
          }
          gameState := gameState.(board := updatedBoard, currentPlayer := nextPlayer, selected := None, available := [],
            captured := newCaptured, inCheck := playersInCheck, eliminated := newEliminated, winner := gameWinner);
        }
      }
    }

    /** resetGame: back to the starting position with red to move and empty lists. */
    method ResetGame()
      modifies this
      ensures gameState == NewGame(BoardSetup.InitialBoard()) && Valid()
    {
      var board := BoardSetup.InitializeBoard();
      gameState := NewGame(board);
    }
  }
}
