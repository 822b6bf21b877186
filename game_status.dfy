/**
 * The status evaluation that follows every move, shared by
 * lib/socket-server.ts, server.js and the client hook: colours are visited in
 * turn order; a colour without a king is eliminated and its pieces are swept
 * off the board; a colour whose king is attacked is recorded as in check and,
 * when none of its pieces has a legal move, eliminated and swept as well.
 * Afterwards the winner is the only colour left, if exactly one is left, and
 * the turn passes to the next colour that is not eliminated.
 */
module GameStatus {
  import opened ChessTypes
  import opened MoveRules
  import MoveCalculator

  /** Board, check list and elimination list as the evaluation goes along. */
  datatype Status = Status(board: Board, inCheck: seq<Color>, eliminated: seq<Color>)

  // ------------------------------------------------------------- sweeping

  /** removeAllPiecesOfColor as a value: every piece of `color` is taken off. */
  function Sweep(b: Board, color: Color): Board
  {
    seq(14, r requires 0 <= r < 14 => seq(14, c requires 0 <= c < 14 => if IsPieceOf(b[r][c], color) then None else b[r][c]))
  }

  predicate NoPiecesOf(b: Board, color: Color)
  {
    forall r, c | 0 <= r < 14 && 0 <= c < 14 :: !IsPieceOf(b[r][c], color)
  }

  /** After a sweep no piece of the colour is left and every other square is as before. */
  lemma SweepEffect(b: Board, color: Color)
    ensures NoPiecesOf(Sweep(b, color), color)
    ensures forall q | InGrid(q) && !IsPieceOf(At(b, q), color) :: At(Sweep(b, color), q) == At(b, q)
    ensures forall q | InGrid(q) && IsPieceOf(At(b, q), color) :: At(Sweep(b, color), q) == None
  {
  }

  /**
   * removeAllPiecesOfColor of the client hook: a copy of the board with the
   * colour's pieces removed, square by square in row-major order.
   */
  method RemoveAllPiecesOfColor(b: Board, color: Color) returns (nb: Board)
    ensures nb == Sweep(b, color)
  {
    nb := b;
    for row := 0 to 14
      invariant forall r, c | 0 <= r < 14 && 0 <= c < 14 :: nb[r][c] == (if r < row then Sweep(b, color)[r][c] else b[r][c])
    {
      for col := 0 to 14
        invariant forall r, c | 0 <= r < 14 && 0 <= c < 14 ::
          nb[r][c] == (if r < row || (r == row && c < col) then Sweep(b, color)[r][c] else b[r][c])
      {
        var piece := nb[row][col];
        if piece.Some? && piece.value.color == color {
          nb := Put(nb, Pos(row, col), None);
        }
      }
    }
    BoardEq(nb, Sweep(b, color));
  }

  // ------------------------------------------------------ checkmate scan

  /** The square (r, c) holds a piece of `color` that has a legal move. */
  predicate CanMoveFrom(e: Engine, b: Board, color: Color, r: int, c: int)
  {
    0 <= r < 14 && 0 <= c < 14 && IsPieceOf(b[r][c], color) && Legal(e, b, Pos(r, c)) != []
  }

  /** Some piece of `color` has at least one legal move. */
  predicate HasLegalMove(e: Engine, b: Board, color: Color)
  {
    exists r, c | 0 <= r < 14 && 0 <= c < 14 :: CanMoveFrom(e, b, color, r, c)
  }

  /**
   * The checkmate scan of updateGameStatus / checkGameStatus: walk the grid
   * in row-major order and stop at the first piece of `color` that has a
   * legal move.
   */
  method ColorHasLegalMove(e: Engine, b: Board, color: Color) returns (has: bool)
    ensures has == HasLegalMove(e, b, color)
  {
    has := false;
    var row := 0;
    while row < 14
      invariant 0 <= row <= 14 && !has
      invariant forall r, c | 0 <= r < row && 0 <= c < 14 :: !CanMoveFrom(e, b, color, r, c)
    {
      var col := 0;
      while col < 14
        invariant 0 <= col <= 14 && !has
        invariant forall c | 0 <= c < col :: !CanMoveFrom(e, b, color, row, c)
      {
        var canMove := PieceHasMoves(e, b, color, row, col);
        if canMove {
          ghost var r, c := row, col;
          assert 0 <= r < 14 && 0 <= c < 14 && CanMoveFrom(e, b, color, r, c);
          has := true;
          return;
        }
        NoMoverExtends(e, b, color, row, col);
        col := col + 1;
      }
      NoMoverRow(e, b, color, row);
      row := row + 1;
    }
    assert !HasLegalMove(e, b, color);
  }

  lemma NoMoverExtends(e: Engine, b: Board, color: Color, row: int, col: int)
    requires forall c | 0 <= c < col :: !CanMoveFrom(e, b, color, row, c)
    requires !CanMoveFrom(e, b, color, row, col)
    ensures forall c | 0 <= c < col + 1 :: !CanMoveFrom(e, b, color, row, c)
  {
  }

  lemma NoMoverRow(e: Engine, b: Board, color: Color, row: int)
    requires forall r, c | 0 <= r < row && 0 <= c < 14 :: !CanMoveFrom(e, b, color, r, c)
    requires forall c | 0 <= c < 14 :: !CanMoveFrom(e, b, color, row, c)
    ensures forall r, c | 0 <= r < row + 1 && 0 <= c < 14 :: !CanMoveFrom(e, b, color, r, c)
  {
  }

  /** One square of the scan: a piece of `color` whose getAvailableMoves is not empty. */
  method PieceHasMoves(e: Engine, b: Board, color: Color, row: int, col: int) returns (canMove: bool)
    requires 0 <= row < 14 && 0 <= col < 14
    ensures canMove == CanMoveFrom(e, b, color, row, col)
  {
    var piece := b[row][col];
    canMove := false;
    if piece.Some? && piece.value.color == color {
      var moves := MoveCalculator.GetAvailableMoves(e, b, Pos(row, col));
      canMove := |moves| > 0;
    }
  }

  // ------------------------------------------------------ the evaluation

  /** One colour's turn in the forEach over the turn order. */
  function EvaluateColor(e: Engine, s: Status, color: Color): Status
  {
    if color in s.eliminated then s
    else match FindKing(s.board, color)
      case None => Status(Sweep(s.board, color), s.inCheck, s.eliminated + [color])
      case Some(k) =>
        if !UnderAttack(s.board, k, color) then s
        else if HasLegalMove(e, s.board, color) then s.(inCheck := s.inCheck + [color])
        else Status(Sweep(s.board, color), s.inCheck + [color], s.eliminated + [color])
  }

  /** The first `n` colours of the turn order evaluated, starting from `b` and the prior eliminations. */
  function EvaluateUpTo(e: Engine, b: Board, prior: seq<Color>, n: nat): Status
    requires n <= 4
  {
    if n == 0 then Status(b, [], prior)
    else EvaluateColor(e, EvaluateUpTo(e, b, prior, n - 1), ORDER[n - 1])
  }

  /** The whole forEach over red, blue, yellow and green. */
  function Evaluate(e: Engine, b: Board, prior: seq<Color>): Status
  {
    EvaluateUpTo(e, b, prior, 4)
  }

  /** The colour's elimination test, on the board as it stands when its turn in the scan comes. */
  predicate LosesAt(e: Engine, b: Board, color: Color)
  {
    match FindKing(b, color)
    case None => true
    case Some(k) => UnderAttack(b, k, color) && !HasLegalMove(e, b, color)
  }

  /** The colour's check test: its king is on the board and attacked. */
  predicate ChecksAt(b: Board, color: Color)
  {
    FindKing(b, color).Some? && UnderAttack(b, FindKing(b, color).value, color)
  }

  /** One colour's turn, in terms of the two tests. */
  lemma EvaluateColorStep(e: Engine, s: Status, color: Color)
    ensures var t := EvaluateColor(e, s, color);
      if color in s.eliminated then t == s
      else
        && t.eliminated == s.eliminated + (if LosesAt(e, s.board, color) then [color] else [])
        && t.inCheck == s.inCheck + (if ChecksAt(s.board, color) then [color] else [])
        && t.board == (if LosesAt(e, s.board, color) then Sweep(s.board, color) else s.board)
  {
  }

  /** The board on which `color` is examined. */
  function BoardSeenBy(e: Engine, b: Board, prior: seq<Color>, color: Color): Board
  {
    EvaluateUpTo(e, b, prior, IndexOf(color)).board
  }

  /** The colours among the first `n` that this evaluation eliminates, in turn order. */
  ghost function Eliminations(e: Engine, b: Board, prior: seq<Color>, n: nat): seq<Color>
    requires n <= 4
  {
    if n == 0 then []
    else
      var color := ORDER[n - 1];
      Eliminations(e, b, prior, n - 1)
      + (if color !in prior && LosesAt(e, BoardSeenBy(e, b, prior, color), color) then [color] else [])
  }

  /** The colours among the first `n` that this evaluation reports in check, in turn order. */
  ghost function Checks(e: Engine, b: Board, prior: seq<Color>, n: nat): seq<Color>
    requires n <= 4
  {
    if n == 0 then []
    else
      var color := ORDER[n - 1];
      Checks(e, b, prior, n - 1)
      + (if color !in prior && ChecksAt(BoardSeenBy(e, b, prior, color), color) then [color] else [])
  }

  /** A colour is among the eliminations exactly when it was still playing and failed its test when examined. */
  lemma {:induction false} EliminationsIff(e: Engine, b: Board, prior: seq<Color>, n: nat, c: Color)
    requires n <= 4
    ensures c in Eliminations(e, b, prior, n) <==> IndexOf(c) < n && c !in prior && LosesAt(e, BoardSeenBy(e, b, prior, c), c)
  {
    if n > 0 {
      EliminationsIff(e, b, prior, n - 1, c);
      assert IndexOf(ORDER[n - 1]) == n - 1;
    }
  }

  lemma {:induction false} ChecksIff(e: Engine, b: Board, prior: seq<Color>, n: nat, c: Color)
    requires n <= 4
    ensures c in Checks(e, b, prior, n) <==> IndexOf(c) < n && c !in prior && ChecksAt(BoardSeenBy(e, b, prior, c), c)
  {
    if n > 0 {
      ChecksIff(e, b, prior, n - 1, c);
      assert IndexOf(ORDER[n - 1]) == n - 1;
    }
  }

  /** The evaluation keeps the prior list in front and appends the eliminations; the check list is Checks. */
  lemma {:induction false} EvaluateUpToLists(e: Engine, b: Board, prior: seq<Color>, n: nat)
    requires n <= 4
    ensures EvaluateUpTo(e, b, prior, n).eliminated == prior + Eliminations(e, b, prior, n)
    ensures EvaluateUpTo(e, b, prior, n).inCheck == Checks(e, b, prior, n)
  {
    if n > 0 {
      EvaluateUpToLists(e, b, prior, n - 1);
      var s0 := EvaluateUpTo(e, b, prior, n - 1);
      var color := ORDER[n - 1];
      EvaluateColorStep(e, s0, color);
      assert BoardSeenBy(e, b, prior, color) == s0.board by {
        assert IndexOf(color) == n - 1;
      }
      EliminationsIff(e, b, prior, n - 1, color);
      assert IndexOf(color) == n - 1;
      assert color in s0.eliminated <==> color in prior;
      AppendAssoc(prior, Eliminations(e, b, prior, n - 1),
        if color !in prior && LosesAt(e, s0.board, color) then [color] else []);
    }
  }

  /** Colours out of the game before the move stay out, in the same order, at the front of the list. */
  lemma EliminationMonotone(e: Engine, b: Board, prior: seq<Color>)
    ensures |prior| <= |Evaluate(e, b, prior).eliminated|
    ensures Evaluate(e, b, prior).eliminated[..|prior|] == prior
  {
    EvaluateUpToLists(e, b, prior, 4);
  }

  /**
   * A colour is eliminated after the evaluation exactly when it was before,
   * or when, on the board it is examined on, its king is missing or its king
   * is attacked and none of its pieces has a legal move.
   */
  lemma EliminatedIff(e: Engine, b: Board, prior: seq<Color>, c: Color)
    ensures c in Evaluate(e, b, prior).eliminated <==> c in prior || LosesAt(e, BoardSeenBy(e, b, prior, c), c)
  {
    EvaluateUpToLists(e, b, prior, 4);
    EliminationsIff(e, b, prior, 4, c);
  }

  /** A colour is reported in check exactly when it was still playing and its king is attacked when examined. */
  lemma InCheckIff(e: Engine, b: Board, prior: seq<Color>, c: Color)
    ensures c in Evaluate(e, b, prior).inCheck <==> c !in prior && ChecksAt(BoardSeenBy(e, b, prior, c), c)
  {
    EvaluateUpToLists(e, b, prior, 4);
    ChecksIff(e, b, prior, 4, c);
  }

  predicate NoDuplicates(s: seq<Color>)
  {
    forall i, j | 0 <= i < j < |s| :: s[i] != s[j]
  }

  lemma {:induction false} EliminationsDistinct(e: Engine, b: Board, prior: seq<Color>, n: nat)
    requires n <= 4
    ensures NoDuplicates(Eliminations(e, b, prior, n))
    ensures forall c | c in Eliminations(e, b, prior, n) :: c !in prior && IndexOf(c) < n
  {
    if n > 0 {
      EliminationsDistinct(e, b, prior, n - 1);
      assert IndexOf(ORDER[n - 1]) == n - 1;
    }
  }

  /** The elimination list never names a colour twice. */
  lemma NoDuplicateEliminations(e: Engine, b: Board, prior: seq<Color>)
    requires NoDuplicates(prior)
    ensures NoDuplicates(Evaluate(e, b, prior).eliminated)
  {
    EvaluateUpToLists(e, b, prior, 4);
    EliminationsDistinct(e, b, prior, 4);
    var added := Eliminations(e, b, prior, 4);
    var all := prior + added;
    forall i, j | 0 <= i < j < |all|
      ensures all[i] != all[j]
    {
      if j >= |prior| && i < |prior| {
        assert all[j] in added;
      }
    }
  }

  /**
   * The board only loses pieces, and only pieces of colours eliminated in this
   * evaluation: every other square is unchanged.
   */
  lemma {:induction false} EvaluateBoard(e: Engine, b: Board, prior: seq<Color>, n: nat)
    requires n <= 4
    ensures forall q | InGrid(q) ::
      At(EvaluateUpTo(e, b, prior, n).board, q)
      == (if At(b, q).Some? && At(b, q).value.color in Eliminations(e, b, prior, n) then None else At(b, q))
  {
    if n > 0 {
      EvaluateBoard(e, b, prior, n - 1);
      EvaluateUpToLists(e, b, prior, n - 1);
      EliminationsDistinct(e, b, prior, n - 1);
      var s0 := EvaluateUpTo(e, b, prior, n - 1);
      var color := ORDER[n - 1];
      assert IndexOf(color) == n - 1;
      assert color in s0.eliminated <==> color in prior;
      EvaluateColorStep(e, s0, color);
      SweepEffect(s0.board, color);
    }
  }

  /** If no prior eliminated colour has pieces on the board, no eliminated colour has pieces afterwards. */
  lemma EliminatedHaveNoPieces(e: Engine, b: Board, prior: seq<Color>)
    requires forall c | c in prior :: NoPiecesOf(b, c)
    ensures forall c | c in Evaluate(e, b, prior).eliminated :: NoPiecesOf(Evaluate(e, b, prior).board, c)
  {
    EvaluateBoard(e, b, prior, 4);
    EvaluateUpToLists(e, b, prior, 4);
    ClearedSquares(b, Evaluate(e, b, prior).board, prior, Eliminations(e, b, prior, 4));
  }

  /** A board that keeps every square except the pieces of `elim`, which it clears, has no pieces of `prior` or `elim`. */
  lemma ClearedSquares(b: Board, nb: Board, prior: seq<Color>, elim: seq<Color>)
    requires forall c | c in prior :: NoPiecesOf(b, c)
    requires forall q | InGrid(q) :: At(nb, q) == (if At(b, q).Some? && At(b, q).value.color in elim then None else At(b, q))
    ensures forall c | c in prior + elim :: NoPiecesOf(nb, c)
  {
    forall c, r, col | c in prior + elim && 0 <= r < 14 && 0 <= col < 14
      ensures !IsPieceOf(nb[r][col], c)
    {
      assert At(nb, Pos(r, col)) == nb[r][col];
    }
  }

  /**
   * checkGameStatus of the client hook: the same evaluation, on a copy of the
   * board, skipping the colours that were eliminated before the move.
   */
  method CheckGameStatus(e: Engine, board: Board, prior: seq<Color>)
    returns (inCheck: seq<Color>, eliminated: seq<Color>, winner: Option<Color>, newBoard: Board)
    ensures Status(newBoard, inCheck, eliminated) == Evaluate(e, board, prior)
    ensures winner == Winner(eliminated)
  {
    inCheck := [];
    eliminated := prior;
    newBoard := board;
    for i := 0 to 4
      invariant Status(newBoard, inCheck, eliminated) == EvaluateUpTo(e, board, prior, i)
    {
      EvaluateUpToLists(e, board, prior, i);
      EliminationsDistinct(e, board, prior, i);
      var player := ORDER[i];
      assert IndexOf(player) == i;
      assert player in eliminated <==> player in prior;
      if player in prior {
        continue;
      }
      var kingPosition := MoveCalculator.FindKingPosition(newBoard, player);
      if kingPosition.None? {
        if player !in eliminated {
          eliminated := eliminated + [player];
          newBoard := RemoveAllPiecesOfColor(newBoard, player);
        }
        continue;
      }
      var isInCheck := MoveCalculator.IsPositionUnderAttack(newBoard, kingPosition.value, player);
      if isInCheck {
        inCheck := inCheck + [player];
        var hasLegalMoves := ColorHasLegalMove(e, newBoard, player);
        if !hasLegalMoves && player !in eliminated {
          eliminated := eliminated + [player];
          newBoard := RemoveAllPiecesOfColor(newBoard, player);
        }
      }
    }
    winner := Winner(eliminated);
  }

  // ------------------------------------------------------ winner and turn

  /** PLAYER_ORDER.filter(p => !eliminated.includes(p)). */
  function Active(eliminated: seq<Color>): (r: seq<Color>)
  {
    (if Red in eliminated then [] else [Red])
    + (if Blue in eliminated then [] else [Blue])
    + (if Yellow in eliminated then [] else [Yellow])
    + (if Green in eliminated then [] else [Green])
  }

  /** The winner is the only active colour, when exactly one is left. */
  function Winner(eliminated: seq<Color>): Option<Color>
  {
    var active := Active(eliminated);
    if |active| == 1 then Some(active[0]) else None
  }

  /** Active lists exactly the colours not eliminated, once each, in turn order. */
  lemma ActiveIff(eliminated: seq<Color>)
    ensures forall c :: c in Active(eliminated) <==> c !in eliminated
    ensures forall i, j | 0 <= i < j < |Active(eliminated)| :: IndexOf(Active(eliminated)[i]) < IndexOf(Active(eliminated)[j])
  {
    forall c
      ensures c in Active(eliminated) <==> c !in eliminated
    {
      match c
      case Red =>
      case Blue =>
      case Yellow =>
      case Green =>
    }
  }

  /** There is a winner exactly when one colour is left, and it is that colour. */
  lemma WinnerIff(eliminated: seq<Color>, w: Color)
    ensures Winner(eliminated) == Some(w) <==> w !in eliminated && forall c | c != w :: c in eliminated
  {
    ActiveIff(eliminated);
    var active := Active(eliminated);
    if w !in eliminated && forall c | c != w :: c in eliminated {
      assert forall i | 0 <= i < |active| :: active[i] == w;
      assert w in active;
    }
    if Winner(eliminated) == Some(w) {
      assert active == [w];
    }
  }

  /** Steps forward in turn order from `from` to `to`: 1 to the next colour, 4 back to itself. */
  function Steps(from: Color, to: Color): (n: nat)
    ensures 1 <= n <= 4
  {
    if IndexOf(to) > IndexOf(from) then IndexOf(to) - IndexOf(from) else IndexOf(to) - IndexOf(from) + 4
  }

  /**
   * getNextPlayer: step forward in turn order from the current colour,
   * skipping eliminated colours. The source's loop never ends when every
   * colour is eliminated, so one active colour is required.
   */
  method GetNextPlayer(current: Color, eliminated: seq<Color>) returns (next: Color)
    requires exists c :: c !in eliminated
    ensures next !in eliminated
    ensures forall c | Steps(current, c) < Steps(current, next) :: c in eliminated
    ensures next == NextPlayer(current, eliminated)
  {
    ghost var w :| w !in eliminated;
    var nextIndex := (IndexOf(current) + 1) % 4;
    while ORDER[nextIndex] in eliminated
      invariant 0 <= nextIndex < 4
      invariant Steps(current, ORDER[nextIndex]) <= Steps(current, w)
      invariant forall c | Steps(current, c) < Steps(current, ORDER[nextIndex]) :: c in eliminated
      decreases Steps(current, w) - Steps(current, ORDER[nextIndex])
    {
      nextIndex := (nextIndex + 1) % 4;
    }
    next := ORDER[nextIndex];
    NextPlayerFirstActive(current, eliminated, next);
  }

  /** The colours one, two and three steps after `current`, then `current` itself. */
  function NextPlayer(current: Color, eliminated: seq<Color>): Color
  {
    var i := IndexOf(current);
    if ORDER[(i + 1) % 4] !in eliminated then ORDER[(i + 1) % 4]
    else if ORDER[(i + 2) % 4] !in eliminated then ORDER[(i + 2) % 4]
    else if ORDER[(i + 3) % 4] !in eliminated then ORDER[(i + 3) % 4]
    else current
  }

  /** The first colour after `current` in turn order that is not eliminated is NextPlayer. */
  lemma NextPlayerFirstActive(current: Color, eliminated: seq<Color>, next: Color)
    requires next !in eliminated
    requires forall c | Steps(current, c) < Steps(current, next) :: c in eliminated
    ensures next == NextPlayer(current, eliminated)
  {
    var i := IndexOf(current);
    assert Steps(current, ORDER[(i + 1) % 4]) == 1;
    assert Steps(current, ORDER[(i + 2) % 4]) == 2;
    assert Steps(current, ORDER[(i + 3) % 4]) == 3;
    assert Steps(current, next) == 4 ==> next == current;
  }

  /** The turn stays with the current colour exactly when every other colour is eliminated. */
  lemma NextPlayerStays(current: Color, eliminated: seq<Color>, next: Color)
    requires next !in eliminated
    requires forall c | Steps(current, c) < Steps(current, next) :: c in eliminated
    ensures next == current <==> forall c | c != current :: c in eliminated
  {
    if next == current {
      forall c | c != current
        ensures c in eliminated
      {
        assert Steps(current, c) < 4;
      }
    } else {
      assert Steps(current, next) < 4;
    }
  }
}
