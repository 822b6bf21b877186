/**
 * The per-colour view of components/multiplayer-chess-game.tsx: each
 * colour sees the board turned so that its own army is at the bottom (blue a
 * quarter turn counter-clockwise, yellow a half turn, green a quarter turn
 * clockwise), clicks arrive in display coordinates and are mapped back to
 * board coordinates, and a click sends a move request to the server only
 * under the guards of the component's click handler.
 */
module PlayerView {
  import opened ChessTypes
  import opened MoveRules
  import opened MoveExecution

  /** The viewer's colour; None when the viewer is not a seated player. */
  type Viewer = Option<Color>

  /** transformPositionToActual: from display coordinates to board coordinates. */
  function ToActual(p: Pos, viewer: Viewer): (r: Pos)
    ensures InGrid(r) <==> InGrid(p)
  {
    match viewer
    case None => p
    case Some(Red) => p
    case Some(Blue) => Pos(p.col, 13 - p.row)
    case Some(Yellow) => Pos(13 - p.row, 13 - p.col)
    case Some(Green) => Pos(13 - p.col, p.row)
  }

  /** transformPositionToView: from board coordinates to display coordinates. */
  function ToView(p: Pos, viewer: Viewer): (r: Pos)
    ensures InGrid(r) <==> InGrid(p)
  {
    match viewer
    case None => p
    case Some(Red) => p
    case Some(Blue) => Pos(13 - p.col, p.row)
    case Some(Yellow) => Pos(13 - p.row, 13 - p.col)
    case Some(Green) => Pos(p.col, 13 - p.row)
  }

  /** The two maps undo each other, in both orders, for every viewer and every position. */
  lemma RoundTrips(p: Pos, viewer: Viewer)
    ensures ToView(ToActual(p, viewer), viewer) == p
    ensures ToActual(ToView(p, viewer), viewer) == p
  {
  }

  /** Red and a viewer without a colour see the board as it is. */
  lemma RedSeesBoard(p: Pos, viewer: Viewer)
    requires viewer.None? || viewer == Some(Red)
    ensures ToView(p, viewer) == p && ToActual(p, viewer) == p
  {
  }

  /** Yellow's half turn is its own inverse, and both directions are the same map. */
  lemma YellowInvolution(p: Pos)
    ensures ToView(ToView(p, Some(Yellow)), Some(Yellow)) == p
    ensures ToView(p, Some(Yellow)) == ToActual(p, Some(Yellow))
  {
  }

  /**
   * Both maps are bijections of the 14x14 grid: they keep in-grid squares in
   * the grid (their postconditions), RoundTrips gives every square a
   * preimage, and no two squares share an image.
   */
  lemma Injective(p: Pos, q: Pos, viewer: Viewer)
    ensures ToView(p, viewer) == ToView(q, viewer) <==> p == q
    ensures ToActual(p, viewer) == ToActual(q, viewer) <==> p == q
  {
    RoundTrips(p, viewer);
    RoundTrips(q, viewer);
  }

  /** Every view keeps the playable cross on itself: a playable square is shown on a playable square. */
  lemma CrossPreserved(p: Pos, viewer: Viewer)
    ensures IsValidPosition(ToView(p, viewer)) <==> IsValidPosition(p)
    ensures IsValidPosition(ToActual(p, viewer)) <==> IsValidPosition(p)
  {
  }

  /** The board as the viewer sees it: each display square shows the board square it maps back to. */
  function ViewBoard(b: Board, viewer: Viewer): Board
  {
    seq(14, r requires 0 <= r < 14 => seq(14, c requires 0 <= c < 14 => At(b, ToActual(Pos(r, c), viewer))))
  }

  /** The view shows the piece of every board square p exactly at ToView(p). */
  lemma ViewBoardPlaces(b: Board, viewer: Viewer, p: Pos)
    requires InGrid(p)
    ensures At(ViewBoard(b, viewer), ToView(p, viewer)) == At(b, p)
  {
    RoundTrips(p, viewer);
  }

  /**
   * transformBoardForPlayer: no colour means the board itself; otherwise a
   * fresh grid in which every board square is copied to its display square.
   */
  method TransformBoardForPlayer(b: Board, viewer: Viewer) returns (t: Board)
    ensures t == ViewBoard(b, viewer)
  {
    if viewer.None? {
      BoardEq(b, ViewBoard(b, viewer));
      return b;
    }
    t := EmptyBoard();
    for row := 0 to 14
      invariant CopiedUpTo(t, b, viewer, row, 0)
    {
      for col := 0 to 14
        invariant CopiedUpTo(t, b, viewer, row, col)
      {
        var newPos := ToView(Pos(row, col), viewer);
        CopyStep(t, b, viewer, row, col);
        t := Put(t, newPos, b[row][col]);
      }
      CopiedNextRow(t, b, viewer, row);
    }
    forall r, c | 0 <= r < 14 && 0 <= c < 14
      ensures t[r][c] == ViewBoard(b, viewer)[r][c]
    {
      var a := ToActual(Pos(r, c), viewer);
      RoundTrips(Pos(r, c), viewer);
      assert Copied(t, b, viewer, a.row, a.col);
    }
    BoardEq(t, ViewBoard(b, viewer));
  }

  /** The piece of board square (r, c) is shown at its display square. */
  predicate Copied(t: Board, b: Board, viewer: Viewer, r: int, c: int)
    requires 0 <= r < 14 && 0 <= c < 14
  {
    At(t, ToView(Pos(r, c), viewer)) == b[r][c]
  }

  /** Every square before (row, col) in row-major order has been copied. */
  predicate CopiedUpTo(t: Board, b: Board, viewer: Viewer, row: int, col: int)
  {
    forall r, c | 0 <= r < 14 && 0 <= c < 14 && (r < row || (r == row && c < col)) :: Copied(t, b, viewer, r, c)
  }

  lemma CopiedNextRow(t: Board, b: Board, viewer: Viewer, row: int)
    requires CopiedUpTo(t, b, viewer, row, 14)
    ensures CopiedUpTo(t, b, viewer, row + 1, 0)
  {
  }

  /** Copying (row, col) keeps every earlier copy, since no other square has the same display square. */
  lemma CopyStep(t: Board, b: Board, viewer: Viewer, row: int, col: int)
    requires 0 <= row < 14 && 0 <= col < 14 && CopiedUpTo(t, b, viewer, row, col)
    ensures CopiedUpTo(Put(t, ToView(Pos(row, col), viewer), b[row][col]), b, viewer, row, col + 1)
  {
    var t' := Put(t, ToView(Pos(row, col), viewer), b[row][col]);
    forall r, c | 0 <= r < 14 && 0 <= c < 14 && (r < row || (r == row && c < col + 1))
      ensures Copied(t', b, viewer, r, c)
    {
      Injective(Pos(r, c), Pos(row, col), viewer);
      if (r, c) != (row, col) {
        assert Copied(t, b, viewer, r, c);
      }
    }
  }

  // ---------------------------------------------------------- the click guard

  /** The component's own selection, in display coordinates. */
  datatype ClientView = ClientView(selected: Option<Pos>, available: seq<Pos>)

  /** The makeMove request the click handler emits, in board coordinates. */
  datatype MoveRequest = MoveRequest(from: Pos, to: Pos)

  datatype ClickOutcome = ClickOutcome(view: ClientView, request: Option<MoveRequest>)

  /** A list of board squares as the viewer sees them. */
  function ViewMoves(moves: seq<Pos>, viewer: Viewer): (r: seq<Pos>)
    ensures |r| == |moves| && forall i | 0 <= i < |moves| :: r[i] == ToView(moves[i], viewer)
  {
    seq(|moves|, i requires 0 <= i < |moves| => ToView(moves[i], viewer))
  }

  /**
   * handleSquareClick of the multiplayer component: nothing without a
   * socket, before the start or without a seat; nothing when the viewer is
   * eliminated or it is not their turn; then select an own piece (its legal
   * moves shown in display coordinates), deselect on the selected square,
   * switch to another own piece, or request the move from the selected
   * square when the clicked square is among the shown moves.
   */
  function ClientClick(connected: bool, started: bool, me: Viewer, gs: GameState, view: ClientView, displayRow: int, displayCol: int): (r: ClickOutcome)
    requires 0 <= displayRow < 14 && 0 <= displayCol < 14
  {
    var same := ClickOutcome(view, None);
    var display := Pos(displayRow, displayCol);
    if !connected || !started || me.None? then same
    else
      var actual := ToActual(display, me);
      var piece := At(gs.board, actual);
      if me.value in gs.eliminated || gs.currentPlayer != me.value then same
      else if view.selected.None? then
        if IsPieceOf(piece, me.value) then ClickOutcome(ClientView(Some(display), ViewMoves(Legal(Utils, gs.board, actual), me)), None)
        else same
      else if view.selected.value == display then ClickOutcome(ClientView(None, []), None)
      else if IsPieceOf(piece, me.value) then ClickOutcome(ClientView(Some(display), ViewMoves(Legal(Utils, gs.board, actual), me)), None)
      else if display in view.available then ClickOutcome(view, Some(MoveRequest(ToActual(view.selected.value, me), actual)))
      else same
  }

  /**
   * A move request is emitted only by a seated, connected viewer in a started
   * game, on their own turn, not eliminated, with a square selected and the
   * clicked square among the shown moves; it names the selected and the
   * clicked squares in board coordinates.
   */
  lemma RequestGuards(connected: bool, started: bool, me: Viewer, gs: GameState, view: ClientView, displayRow: int, displayCol: int)
    requires 0 <= displayRow < 14 && 0 <= displayCol < 14
    ensures var out := ClientClick(connected, started, me, gs, view, displayRow, displayCol);
      out.request.Some? <==>
        && connected && started && me.Some? && gs.currentPlayer == me.value && me.value !in gs.eliminated
        && view.selected.Some? && view.selected.value != Pos(displayRow, displayCol)
        && !IsPieceOf(At(gs.board, ToActual(Pos(displayRow, displayCol), me)), me.value)
        && Pos(displayRow, displayCol) in view.available
    ensures var out := ClientClick(connected, started, me, gs, view, displayRow, displayCol);
      out.request.Some? ==>
        && out.view == view
        && out.request.value == MoveRequest(ToActual(view.selected.value, me), ToActual(Pos(displayRow, displayCol), me))
  {
  }

  /**
   * The selection the component keeps for the current game state: a selected
   * display square shows an own piece and the shown moves are that piece's
   * legal moves, in display coordinates.
   */
  predicate ViewConsistent(me: Viewer, gs: GameState, view: ClientView)
  {
    match view.selected
    case None => view.available == []
    case Some(sel) =>
      me.Some? && InGrid(sel)
      && IsPieceOf(At(gs.board, ToActual(sel, me)), me.value)
      && view.available == ViewMoves(Legal(Utils, gs.board, ToActual(sel, me)), me)
  }

  /**
   * Clicks keep the selection consistent, and a request sent from a
   * consistent selection is one the executor of lib/socket-server.ts accepts
   * on the same game state.
   */
  lemma RequestAccepted(connected: bool, started: bool, me: Viewer, gs: GameState, view: ClientView, displayRow: int, displayCol: int)
    requires 0 <= displayRow < 14 && 0 <= displayCol < 14 && ViewConsistent(me, gs, view)
    ensures var out := ClientClick(connected, started, me, gs, view, displayRow, displayCol);
      && ViewConsistent(me, gs, out.view)
      && (out.request.Some? ==> CanExecute(Utils, gs, out.request.value.from, out.request.value.to))
  {
    var out := ClientClick(connected, started, me, gs, view, displayRow, displayCol);
    var display := Pos(displayRow, displayCol);
    ClickViews(connected, started, me, gs, view, displayRow, displayCol);
    if out.view != view && out.view != ClientView(None, []) {
      SelectionConsistent(me, gs, display);
    }
    if out.request.Some? {
      var from := ToActual(view.selected.value, me);
      var legal := Legal(Utils, gs.board, from);
      var i :| 0 <= i < |view.available| && view.available[i] == display;
      RoundTrips(legal[i], me);
      assert legal[i] == ToActual(display, me);
    }
  }

  /** A click keeps the view, clears it, or selects the clicked square, which then holds one of the viewer's pieces. */
  lemma ClickViews(connected: bool, started: bool, me: Viewer, gs: GameState, view: ClientView, displayRow: int, displayCol: int)
    requires 0 <= displayRow < 14 && 0 <= displayCol < 14
    ensures var out := ClientClick(connected, started, me, gs, view, displayRow, displayCol);
      var display := Pos(displayRow, displayCol);
      || out.view == view
      || out.view == ClientView(None, [])
      || (me.Some? && IsPieceOf(At(gs.board, ToActual(display, me)), me.value)
          && out.view == ClientView(Some(display), ViewMoves(Legal(Utils, gs.board, ToActual(display, me)), me)))
  {
  }

  /** Selecting a square that holds one of the viewer's pieces, with its moves shown, is consistent. */
  lemma SelectionConsistent(me: Viewer, gs: GameState, display: Pos)
    requires InGrid(display)
    ensures me.Some? && IsPieceOf(At(gs.board, ToActual(display, me)), me.value)
      ==> ViewConsistent(me, gs, ClientView(Some(display), ViewMoves(Legal(Utils, gs.board, ToActual(display, me)), me)))
  {
  }
}
