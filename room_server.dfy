/**
 * A game room of the multiplayer servers (lib/socket-server.ts, which uses
 * the utils engine, and server.js, which uses its own copy): the room's game
 * state is updated in place by executeMove and updateGameStatus; makeMove,
 * joinRoom and resetGame guard what a connected socket may do; server.js's
 * random-move agent plays any move of the list of legal moves.
 */
module RoomServer {
  import opened ChessTypes
  import opened MoveRules
  import opened MoveRulesLemmas
  import opened GameStatus
  import opened MoveExecution
  import MoveCalculator
  import BoardSetup

  /**
   * A seated player. In lib/socket-server.ts the player id is the socket id;
   * server.js keeps a separate player id and the socket it is connected on.
   */
  datatype Player = Player(id: nat, socketId: nat, color: Color, connected: bool)

  /** The player lookup of makeMove and resetGame. */
  predicate Authorised(e: Engine, p: Player, socketId: nat, playerId: nat)
  {
    if e == Utils then p.id == socketId else p.id == playerId && p.socketId == socketId
  }

  /** Array.find: the first player the lookup accepts. */
  function FindPlayer(players: seq<Player>, e: Engine, socketId: nat, playerId: nat): (r: Option<Player>)
    ensures r.Some? ==> r.value in players && Authorised(e, r.value, socketId, playerId)
    ensures r.None? ==> forall p | p in players :: !Authorised(e, p, socketId, playerId)
  {
    if players == [] then None
    else if Authorised(e, players[0], socketId, playerId) then Some(players[0])
    else FindPlayer(players[1..], e, socketId, playerId)
  }

  function Colors(players: seq<Player>): seq<Color>
  {
    seq(|players|, i requires 0 <= i < |players| => players[i].color)
  }

  /** PLAYER_ORDER.find(color => !usedColors.includes(color)). */
  function AvailableColor(used: seq<Color>): Option<Color>
  {
    if Red !in used then Some(Red)
    else if Blue !in used then Some(Blue)
    else if Yellow !in used then Some(Yellow)
    else if Green !in used then Some(Green)
    else None
  }

  /**
   * The colour handed out is unused and every colour before it in turn order
   * is taken; there is none only when all four are taken, which fewer than
   * four players cannot do.
   */
  lemma AvailableColorIff(players: seq<Player>)
    ensures var a := AvailableColor(Colors(players));
      && (a.Some? ==> a.value !in Colors(players) && forall c | IndexOf(c) < IndexOf(a.value) :: c in Colors(players))
      && (a.None? <==> forall c :: c in Colors(players))
    ensures |players| < 4 ==> AvailableColor(Colors(players)).Some?
  {
    var used := Colors(players);
    var a := AvailableColor(used);
    forall c | a.Some? && IndexOf(c) < IndexOf(a.value)
      ensures c in used
    {
      match c
      case Red =>
      case Blue =>
      case Yellow =>
      case Green =>
    }
    if a.None? {
      forall c
        ensures c in used
      {
        match c
        case Red =>
        case Blue =>
        case Yellow =>
        case Green =>
      }
    }
    if |players| < 4 && a.None? {
      var s := set c | c in used;
      assert {Red, Blue, Yellow, Green} <= s;
      assert |{Red, Blue, Yellow, Green}| == 4;
      SetOfSeqBound(used);
      CardMono({Red, Blue, Yellow, Green}, s);
      assert false;
    }
  }

  lemma SetOfSeqBound(s: seq<Color>)
    ensures |set c | c in s| <= |s|
  {
    if s != [] {
      SetOfSeqBound(s[1..]);
      assert (set c | c in s) == (set c | c in s[1..]) + {s[0]};
    }
  }

  lemma CardMono(a: set<Color>, b: set<Color>)
    requires a <= b
    ensures |a| <= |b|
  {
    assert b == a + (b - a);
  }

  predicate DistinctColors(players: seq<Player>)
  {
    forall i, j | 0 <= i < j < |players| :: players[i].color != players[j].color
  }

  /** Seating a newcomer on the available colour keeps the seated colours distinct. */
  lemma JoinKeepsColorsDistinct(players: seq<Player>, newcomer: Player)
    requires DistinctColors(players) && AvailableColor(Colors(players)).Some?
    ensures DistinctColors(players + [newcomer.(color := AvailableColor(Colors(players)).value)])
  {
    AvailableColorIff(players);
    var c := AvailableColor(Colors(players)).value;
    var all := players + [newcomer.(color := c)];
    forall i, j | 0 <= i < j < |all|
      ensures all[i].color != all[j].color
    {
      if j == |players| {
        assert Colors(players)[i] == all[i].color;
      }
    }
  }

  datatype MoveOutcome = NotInRoom | GameNotStarted | PlayerNotFound | NotYourTurn | YouAreEliminated | InvalidMove | Moved

  datatype JoinOutcome = RoomNotFound | RoomFull | AlreadyStarted | NoSlots | Joined(color: Color)

  /** What the socket's room lookup found: no room id, an id whose room is gone, or the room. */
  datatype RoomLookup = NoRoomId | RoomGone | InRoom(room: Room)

  /** A (from, to) pair of getAllLegalMovesForPlayer. */
  datatype MovePair = MovePair(from: Pos, to: Pos)

  /** The pairs for one origin square: its legal moves in order. */
  function PairsFrom(p: Pos, ms: seq<Pos>): (r: seq<MovePair>)
    ensures |r| == |ms| && forall i | 0 <= i < |ms| :: r[i] == MovePair(p, ms[i])
  {
    seq(|ms|, i requires 0 <= i < |ms| => MovePair(p, ms[i]))
  }

  /** The pairs of one square: the legal moves of its piece when it is a piece of `color`. */
  function SquarePairs(e: Engine, b: Board, color: Color, p: Pos): seq<MovePair>
    requires InGrid(p)
  {
    if IsPieceOf(At(b, p), color) then PairsFrom(p, Legal(e, b, p)) else []
  }

  /** The pairs of the first k squares of `row`, left to right. */
  function RowPairs(e: Engine, b: Board, color: Color, row: int, k: nat): seq<MovePair>
    requires 0 <= row < 14 && k <= 14
  {
    if k == 0 then [] else RowPairs(e, b, color, row, k - 1) + SquarePairs(e, b, color, Pos(row, k - 1))
  }

  /** The pairs of the first n rows, top to bottom. */
  function RowsUpTo(e: Engine, b: Board, color: Color, n: nat): seq<MovePair>
    requires n <= 14
  {
    if n == 0 then [] else RowsUpTo(e, b, color, n - 1) + RowPairs(e, b, color, n - 1, 14)
  }

  /** What getAllLegalMovesForPlayer returns: the scan of the whole grid in row-major order. */
  function AllLegalMoves(e: Engine, b: Board, color: Color): seq<MovePair>
  {
    RowsUpTo(e, b, color, 14)
  }

  /** The pair predicate the scan collects. */
  predicate IsLegalPair(e: Engine, b: Board, color: Color, mv: MovePair)
  {
    InGrid(mv.from) && IsPieceOf(At(b, mv.from), color) && mv.to in Legal(e, b, mv.from)
  }

  lemma SquarePairsIff(e: Engine, b: Board, color: Color, p: Pos, mv: MovePair)
    requires InGrid(p)
    ensures mv in SquarePairs(e, b, color, p) <==> mv.from == p && IsLegalPair(e, b, color, mv)
  {
    if mv in SquarePairs(e, b, color, p) {
      var i :| 0 <= i < |SquarePairs(e, b, color, p)| && SquarePairs(e, b, color, p)[i] == mv;
    }
    if mv.from == p && IsLegalPair(e, b, color, mv) {
      var i :| 0 <= i < |Legal(e, b, p)| && Legal(e, b, p)[i] == mv.to;
      assert SquarePairs(e, b, color, p)[i] == mv;
    }
  }

  lemma {:induction false} RowPairsIff(e: Engine, b: Board, color: Color, row: int, k: nat, mv: MovePair)
    requires 0 <= row < 14 && k <= 14
    ensures mv in RowPairs(e, b, color, row, k) <==> mv.from.row == row && 0 <= mv.from.col < k && IsLegalPair(e, b, color, mv)
  {
    if k > 0 {
      RowPairsIff(e, b, color, row, k - 1, mv);
      SquarePairsIff(e, b, color, Pos(row, k - 1), mv);
    }
  }

  lemma {:induction false} RowsUpToIff(e: Engine, b: Board, color: Color, n: nat, mv: MovePair)
    requires n <= 14
    ensures mv in RowsUpTo(e, b, color, n) <==> 0 <= mv.from.row < n && IsLegalPair(e, b, color, mv)
  {
    if n > 0 {
      RowsUpToIff(e, b, color, n - 1, mv);
      RowPairsIff(e, b, color, n - 1, 14, mv);
    }
  }

  /**
   * getAllLegalMovesForPlayer lists exactly the pairs whose origin holds a
   * piece of `color` and whose destination is one of that piece's legal moves.
   */
  lemma AllLegalMovesIff(e: Engine, b: Board, color: Color, mv: MovePair)
    ensures mv in AllLegalMoves(e, b, color) <==>
      InGrid(mv.from) && IsPieceOf(At(b, mv.from), color) && mv.to in Legal(e, b, mv.from)
  {
    RowsUpToIff(e, b, color, 14, mv);
  }

  /** getAllLegalMovesForPlayer: scan the grid and push a pair for every legal move of every own piece. */
  method AllLegalMovesForPlayer(e: Engine, b: Board, color: Color) returns (allMoves: seq<MovePair>)
    ensures allMoves == AllLegalMoves(e, b, color)
  {
    allMoves := [];
    for row := 0 to 14
      invariant allMoves == RowsUpTo(e, b, color, row)
    {
      var rowMoves := RowMoves(e, b, color, row);
      allMoves := allMoves + rowMoves;
    }
  }

  /** One row of the scan, left to right. */
  method RowMoves(e: Engine, b: Board, color: Color, row: int) returns (r: seq<MovePair>)
    requires 0 <= row < 14
    ensures r == RowPairs(e, b, color, row, 14)
  {
    r := [];
    for col := 0 to 14
      invariant r == RowPairs(e, b, color, row, col)
    {
      var squareMoves := SquareMoves(e, b, color, row, col);
      r := r + squareMoves;
    }
  }

  /** One square of the scan: its piece's legal moves, when it is a piece of `color`. */
  method SquareMoves(e: Engine, b: Board, color: Color, row: int, col: int) returns (r: seq<MovePair>)
    requires 0 <= row < 14 && 0 <= col < 14
    ensures r == SquarePairs(e, b, color, Pos(row, col))
  {
    var piece := b[row][col];
    if piece.Some? && piece.value.color == color {
      var moves := MoveCalculator.GetAvailableMoves(e, b, Pos(row, col));
      r := PushPairs([], Pos(row, col), moves);
    } else {
      r := [];
    }
  }

  /** The inner forEach of getAllLegalMovesForPlayer: push one pair per destination, in order. */
  method PushPairs(acc: seq<MovePair>, p: Pos, moves: seq<Pos>) returns (r: seq<MovePair>)
    ensures r == acc + PairsFrom(p, moves)
  {
    r := acc;
    for k := 0 to |moves|
      invariant r == acc + PairsFrom(p, moves[..k])
    {
      assert PairsFrom(p, moves[..k + 1]) == PairsFrom(p, moves[..k]) + [MovePair(p, moves[k])];
      r := r + [MovePair(p, moves[k])];
    }
    assert moves[..|moves|] == moves;
  }

  /**
   * The tests at the start of executeMove: `from` holds a piece of the
   * colour to move and `to` is among that piece's legal moves.
   */
  method ValidateMove(e: Engine, s: GameState, from: Pos, to: Pos) returns (ok: bool)
    ensures ok == CanExecute(e, s, from, to)
  {
    if !InGrid(from) {
      return false;
    }
    var piece := s.board[from.row][from.col];
    if piece.None? || piece.value.color != s.currentPlayer {
      return false;
    }
    var availableMoves := MoveCalculator.GetAvailableMoves(e, s.board, from);
    return to in availableMoves;
  }

  /**
   * The body of executeMove before updateGameStatus: record the capture for
   * the mover, move the piece (and the castling rook), clear the selection.
   */
  method ApplyValidatedMove(e: Engine, s: GameState, from: Pos, to: Pos) returns (t: GameState)
    requires CanExecute(e, s, from, to)
    ensures t == MovedState(e, s, from, to)
  {
    var board := s.board;
    var currentPlayer := s.currentPlayer;
    LegalMoveLeavesSquare(e, board, from, to);
    var piece := board[from.row][from.col];
    if IsCastlingMove(piece.value, from, to) {
      LegalCastlingHasRook(e, board, from, to);
    }
    t := s;
    var capturedPiece := board[to.row][to.col];
    if capturedPiece.Some? {
      t := t.(captured := t.captured[IndexOf(currentPlayer) := CapturedBy(t.captured, currentPlayer) + [capturedPiece.value]]);
    }
    var newBoard := MovePiece(board, from, to, currentPlayer);
    t := t.(board := newBoard, selected := None, available := []);
  }

  class Room {
    const engine: Engine
    var players: seq<Player>
    var state: GameState
    var started: bool

    /** createRoom: the creator is seated as red, on a new game that has not started. */
    constructor (engine: Engine, creator: Player)
      ensures this.engine == engine
      ensures players == [creator.(color := Red)] && !started
      ensures state == NewGame(BoardSetup.InitialBoard())
    {
      this.engine := engine;
      var board := BoardSetup.InitializeBoard();
      players := [creator.(color := Red)];
      state := NewGame(board);
      started := false;
    }

    /** removeAllPiecesOfColor on the room's board, in place. */
    method RemoveAllPiecesOfColor(color: Color)
      modifies this
      ensures state == old(state).(board := Sweep(old(state).board, color))
      ensures players == old(players) && started == old(started)
    {
      ghost var b := state.board;
      for row := 0 to 14
        invariant players == old(players) && started == old(started)
        invariant state == old(state).(board := state.board)
        invariant forall r, c | 0 <= r < 14 && 0 <= c < 14 :: state.board[r][c] == (if r < row then Sweep(b, color)[r][c] else b[r][c])
      {
        for col := 0 to 14
          invariant players == old(players) && started == old(started)
          invariant state == old(state).(board := state.board)
          invariant forall r, c | 0 <= r < 14 && 0 <= c < 14 ::
            state.board[r][c] == (if r < row || (r == row && c < col) then Sweep(b, color)[r][c] else b[r][c])
        {
          var piece := state.board[row][col];
          if piece.Some? && piece.value.color == color {
            state := state.(board := Put(state.board, Pos(row, col), None));
          }
        }
      }
      BoardEq(state.board, Sweep(b, color));
    }

    /**
     * updateGameStatus: evaluate every colour on the room's board (sweeping
     * eliminated colours in place), then set the check and elimination lists,
     * the winner and the turn.
     */
    method UpdateGameStatus()
      modifies this
      ensures state == StatusUpdated(engine, old(state))
      ensures players == old(players) && started == old(started)
    {
      ghost var s0 := state;
      var playersInCheck: seq<Color> := [];
      var eliminatedPlayers := state.eliminated;
      for i := 0 to 4
        invariant players == old(players) && started == old(started)
        invariant state == s0.(board := state.board)
        invariant Status(state.board, playersInCheck, eliminatedPlayers) == EvaluateUpTo(engine, s0.board, s0.eliminated, i)
      {
        var player := ORDER[i];
        if player in eliminatedPlayers {
          continue;
        }
        var kingPosition := MoveCalculator.FindKingPosition(state.board, player);
        if kingPosition.None? {
          eliminatedPlayers := eliminatedPlayers + [player];
          RemoveAllPiecesOfColor(player);
          continue;
        }
        var isInCheck := MoveCalculator.IsPositionUnderAttack(state.board, kingPosition.value, player);
        if isInCheck {
          playersInCheck := playersInCheck + [player];
          var hasLegalMoves := ColorHasLegalMove(engine, state.board, player);
          if !hasLegalMoves {
            eliminatedPlayers := eliminatedPlayers + [player];
            RemoveAllPiecesOfColor(player);
          }
        }
      }
      var activePlayers := Active(eliminatedPlayers);
      var winner := if |activePlayers| == 1 then Some(activePlayers[0]) else None;
      state := state.(inCheck := playersInCheck, eliminated := eliminatedPlayers, winner := winner);
      if winner.None? && |activePlayers| > 0 {
        ActiveIff(eliminatedPlayers);
        assert activePlayers[0] !in eliminatedPlayers;
        var next := GetNextPlayer(state.currentPlayer, eliminatedPlayers);
        state := state.(currentPlayer := next);
      }
    }

    /**
     * executeMove: reject (changing nothing) unless `from` holds a piece of
     * the colour to move and `to` is one of its legal moves; otherwise record
     * the capture, move the piece (and the castling rook), promote, clear the
     * selection and run updateGameStatus.
     */
    method ExecuteMove(from: Pos, to: Pos) returns (success: bool)
      modifies this
      ensures success == CanExecute(engine, old(state), from, to)
      ensures success ==> state == AfterMove(engine, old(state), from, to)
      ensures !success ==> state == old(state)
      ensures players == old(players) && started == old(started)
    {
      success := ValidateMove(engine, state, from, to);
      if !success {
        return;
      }
      state := ApplyValidatedMove(engine, state, from, to);
      UpdateGameStatus();
    }

    /**
     * makeMove's guards after the room lookup: the game must have started,
     * the socket must be a seated player, it must be that player's turn and
     * the player must not be eliminated; then executeMove decides.
     */
    method MakeMove(socketId: nat, playerId: nat, from: Pos, to: Pos) returns (outcome: MoveOutcome)
      modifies this
      ensures var player := FindPlayer(old(players), engine, socketId, playerId);
        outcome == (
          if !old(started) then GameNotStarted
          else if player.None? then PlayerNotFound
          else if player.value.color != old(state).currentPlayer then NotYourTurn
          else if player.value.color in old(state).eliminated then YouAreEliminated
          else if !CanExecute(engine, old(state), from, to) then InvalidMove
          else Moved)
      ensures outcome == Moved ==> state == AfterMove(engine, old(state), from, to)
      ensures outcome != Moved ==> state == old(state)
      ensures players == old(players) && started == old(started)
    {
      if !started {
        return GameNotStarted;
      }
      var player := FindPlayer(players, engine, socketId, playerId);
      if player.None? {
        return PlayerNotFound;
      }
      if player.value.color != state.currentPlayer {
        return NotYourTurn;
      }
      if player.value.color in state.eliminated {
        return YouAreEliminated;
      }
      var success := ExecuteMove(from, to);
      outcome := if success then Moved else InvalidMove;
    }

    /**
     * makeRandomMove (server.js): no legal move means no change; otherwise
     * some pair of getAllLegalMovesForPlayer (the random pick is left open)
     * is played through executeMove, which accepts it.
     */
    method MakeRandomMove() returns (success: bool)
      modifies this
      ensures success <==> AllLegalMoves(engine, old(state).board, old(state).currentPlayer) != []
      ensures success ==> exists mv | mv in AllLegalMoves(engine, old(state).board, old(state).currentPlayer) ::
        CanExecute(engine, old(state), mv.from, mv.to) && state == AfterMove(engine, old(state), mv.from, mv.to)
      ensures !success ==> state == old(state)
      ensures players == old(players) && started == old(started)
    {
      var legalMoves := AllLegalMovesForPlayer(engine, state.board, state.currentPlayer);
      if |legalMoves| == 0 {
        return false;
      }
      var i :| 0 <= i < |legalMoves|;
      var randomMove := legalMoves[i];
      AllLegalMovesIff(engine, state.board, state.currentPlayer, randomMove);
      success := ExecuteMove(randomMove.from, randomMove.to);
    }

    /**
     * joinRoom's guards after the room lookup: at most four players, only
     * before the start, and the newcomer takes the first unused colour.
     */
    method Join(newcomer: Player) returns (outcome: JoinOutcome)
      modifies this
      ensures outcome == (
        if |old(players)| >= 4 then RoomFull
        else if old(started) then AlreadyStarted
        else match AvailableColor(Colors(old(players)))
          case None => NoSlots
          case Some(c) => Joined(c))
      ensures outcome.Joined? ==> players == old(players) + [newcomer.(color := outcome.color)]
      ensures !outcome.Joined? ==> players == old(players)
      ensures state == old(state) && started == old(started)
    {
      if |players| >= 4 {
        return RoomFull;
      }
      if started {
        return AlreadyStarted;
      }
      var usedColors := Colors(players);
      var availableColor := AvailableColor(usedColors);
      if availableColor.None? {
        return NoSlots;
      }
      players := players + [newcomer.(color := availableColor.value)];
      outcome := Joined(availableColor.value);
    }

    /**
     * The creator check of startGame and resetGame: the first seated player
     * is the caller (server.js also requires the caller to be a seated,
     * authorised player).
     */
    predicate IsCreator(socketId: nat, playerId: nat)
      reads this
    {
      && |players| > 0
      && players[0].id == (if engine == Utils then socketId else playerId)
      && (engine == ServerJs ==> FindPlayer(players, engine, socketId, playerId).Some?)
    }

    /**
     * startGame: only the creator may start, lib/socket-server.ts wants at
     * least two players and server.js at least one.
     */
    method StartGame(socketId: nat, playerId: nat) returns (ok: bool)
      modifies this
      ensures ok <==> old(IsCreator(socketId, playerId)) && |players| >= (if engine == Utils then 2 else 1)
      ensures started == (old(started) || ok)
      ensures state == old(state) && players == old(players)
    {
      var player := FindPlayer(players, engine, socketId, playerId);
      var creatorId := if engine == Utils then socketId else playerId;
      if |players| == 0 || players[0].id != creatorId || (engine == ServerJs && player.None?) {
        return false;
      }
      if |players| < (if engine == Utils then 2 else 1) {
        return false;
      }
      started := true;
      return true;
    }

    /**
     * resetGame: only the creator may reset; the game goes back to the
     * starting position with red to move and empty lists.
     */
    method ResetGame(socketId: nat, playerId: nat) returns (reset: bool)
      modifies this
      ensures reset == old(IsCreator(socketId, playerId))
      ensures reset ==> state == NewGame(BoardSetup.InitialBoard())
      ensures !reset ==> state == old(state)
      ensures players == old(players) && started == old(started)
    {
      var player := FindPlayer(players, engine, socketId, playerId);
      var creatorId := if engine == Utils then socketId else playerId;
      if |players| == 0 || players[0].id != creatorId || (engine == ServerJs && player.None?) {
        return false;
      }
      var board := BoardSetup.InitializeBoard();
      state := NewGame(board);
      return true;
    }
  }

  /** makeMove from a socket: the room lookup, then the room's guards. */
  method MakeMove(lookup: RoomLookup, socketId: nat, playerId: nat, from: Pos, to: Pos) returns (outcome: MoveOutcome)
    modifies if lookup.InRoom? then {lookup.room} else {}
    ensures lookup.NoRoomId? ==> outcome == NotInRoom
    ensures lookup.RoomGone? ==> outcome == GameNotStarted
    ensures lookup.InRoom? ==>
      var room := lookup.room;
      var player := FindPlayer(old(room.players), room.engine, socketId, playerId);
      outcome == (
        if !old(room.started) then GameNotStarted
        else if player.None? then PlayerNotFound
        else if player.value.color != old(room.state).currentPlayer then NotYourTurn
        else if player.value.color in old(room.state).eliminated then YouAreEliminated
        else if !CanExecute(room.engine, old(room.state), from, to) then InvalidMove
        else Moved)
    ensures outcome == Moved ==>
      && lookup.InRoom? && CanExecute(lookup.room.engine, old(lookup.room.state), from, to)
      && lookup.room.state == AfterMove(lookup.room.engine, old(lookup.room.state), from, to)
    ensures lookup.InRoom? && outcome != Moved ==> lookup.room.state == old(lookup.room.state)
    ensures lookup.InRoom? ==> lookup.room.players == old(lookup.room.players) && lookup.room.started == old(lookup.room.started)
  {
    match lookup
    case NoRoomId => outcome := NotInRoom;
    case RoomGone => outcome := GameNotStarted;
    case InRoom(room) => outcome := room.MakeMove(socketId, playerId, from, to);
  }

  /** joinRoom from a socket: the room lookup, then the room's guards. */
  method JoinRoom(room: Option<Room>, newcomer: Player) returns (outcome: JoinOutcome)
    modifies if room.Some? then {room.value} else {}
    ensures room.None? ==> outcome == RoomNotFound
    ensures room.Some? ==>
      var players := old(room.value.players);
      outcome == (
        if |players| >= 4 then RoomFull
        else if old(room.value.started) then AlreadyStarted
        else match AvailableColor(Colors(players))
          case None => NoSlots
          case Some(c) => Joined(c))
    ensures outcome.Joined? ==> room.Some? && room.value.players == old(room.value.players) + [newcomer.(color := outcome.color)]
    ensures room.Some? && !outcome.Joined? ==> room.value.players == old(room.value.players)
    ensures room.Some? ==> room.value.state == old(room.value.state) && room.value.started == old(room.value.started)
  {
    if room.None? {
      return RoomNotFound;
    }
    outcome := room.value.Join(newcomer);
  }
}
