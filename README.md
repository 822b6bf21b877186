# Four-player chess rules, modelled in Dafny

The system is a four-player chess game. Red, blue, yellow and green play on a
14x14 cross-shaped board: the 3x3 corners are not part of it. The same rules
exist in several copies:

- `utils/` holds the shared engine used by the socket server of
  `lib/socket-server.ts` and by the client hook `hooks/use-four-player-chess.ts`.
- `server.js` is a standalone server with its own copy of the engine. This copy
  has no castling, and it keeps a move after which the mover's king cannot be
  found.
- `components/chess-board.tsx` is an older two-player 8x8 game with its own
  rules.

This project models the following:

- the pseudo-legal move generators and the attack scan;
- the king lookup and the legal-move filter;
- the starting position;
- the move executor: capture bookkeeping, castling rook, promotion;
- the turn and elimination evaluation after each move, and the next-player
  rotation;
- a game room with its guards for moving, joining, starting and resetting;
- the random-move agent;
- the click handlers of the hook, the multiplayer component and the 8x8
  component;
- the per-colour board rotation of the multiplayer view;
- the move notation of the history panel.

Code that builds values (the generators, the notation, the rotations) is
modelled as functions. Code that runs loops or mutates state is modelled as
methods and classes, proved equal to those functions:

- the generators' push loops;
- the row-major scans;
- the grid copies;
- the room and the hook state, which are replaced in place.

The model keeps the engine choice as a parameter (`MoveRules.Engine`):

- `Utils` offers castling and drops a move after which no king of the mover
  is found.
- `ServerJs` has no castling and keeps such a move.

Where the rules differ from a per-colour description of castling and
promotion, the model follows the code:

- The castling rook is looked for three columns to the right (king side) or
  four columns to the left (queen side) of the king, for every colour.
- The two-column king move is along the row even for blue and green, whose
  kings sit in a column.
- Promotion lines are chosen by the colour whose turn it is: yellow row 7,
  red row 6, blue column 7, green column 6.
- A pawn's forward push to an empty square counts as an attack on that square.

## Model

| member | source | states |
|---|---|---|
| MoveRules.PlayableSquareForm | utils/move-calculator.ts:347-360 | A square is playable exactly when it is in the grid and lies in the top arm (rows 0-2, columns 3-10), the middle band (rows 3-10) or the bottom arm (rows 11-13, columns 3-10). |
| MoveRules.FindKing | utils/game-logic.ts:23-33 | None exactly when no king of the colour is on the grid; otherwise a square holding that king with no such king before it in row-major order. |
| MoveRules.GeneratedInGrid | utils/move-calculator.ts:43-77 | Every pseudo-legal destination lies inside the 14x14 grid. |
| MoveRulesLemmas.RayShape | utils/move-calculator.ts:319-345 | A slide visits consecutive squares along its direction, passes only empty squares and stops at the first square that is off the cross or holds a piece; a piece of another colour is included, one of the mover's is not. |
| MoveRulesLemmas.RaysIff | utils/move-calculator.ts:142-171 | A rook, bishop or queen destination is exactly a square reached by one of the piece's slides. |
| MoveRulesLemmas.LeapsIff | utils/move-calculator.ts:173-195 | A fixed-offset destination is exactly one of the offsets from the origin, on the cross and not holding a piece of the mover. |
| MoveRulesLemmas.PawnMovesExactly | utils/move-calculator.ts:79-140 | A pawn moves one step along its colour's axis to an empty square, two steps from its home line over an empty square to an empty square, or one diagonal step ahead onto a piece of another colour, and nowhere else. |
| MoveRulesLemmas.PawnPushesIff | utils/move-calculator.ts:105-117 | The push part of the pawn generator lists exactly the single and double advances allowed on empty squares. |
| MoveRulesLemmas.PawnCapturesIff | utils/move-calculator.ts:119-139 | The capture part lists exactly the two diagonal squares ahead that hold a piece of another colour. |
| MoveRulesLemmas.KnightMovesExactly | utils/move-calculator.ts:173-195 | A knight reaches exactly the (2,1)-shaped squares that are on the cross and not own-occupied. |
| MoveRulesLemmas.KingMovesWithoutCastling | server.js:208-231 | Without castling a king reaches exactly its eight neighbours that are on the cross and not own-occupied. |
| MoveRulesLemmas.KingSideIff | utils/move-calculator.ts:260-287 | King-side castling is offered exactly when an unmoved own rook stands three columns to the right, the squares between are empty and none of the king's three squares is attacked. |
| MoveRulesLemmas.QueenSideIff | utils/move-calculator.ts:289-316 | Queen-side castling is offered exactly when an unmoved own rook stands four columns to the left, the squares between are empty and none of the king's three squares is attacked. |
| MoveRulesLemmas.TwoColumnKingMoveIsCastling | utils/move-calculator.ts:197-233 | A king move of two columns is only generated with castling on, for an unmoved king, along its row, and only when the side it goes to is ready. |
| MoveRulesLemmas.CastlingOffered | utils/move-calculator.ts:229-317 | Conversely, an unmoved king is offered the two-column move to every side that is ready. |
| MoveRulesLemmas.CastlingSound | utils/move-calculator.ts:235-317 | A castling destination of a king on the cross is on the cross and empty. |
| MoveRulesLemmas.GenerateSound | utils/move-calculator.ts:43-77 | Every pseudo-legal destination of a piece on the cross is on the cross and never holds a piece of the mover. |
| MoveRulesLemmas.RaysNeverOwn | utils/move-calculator.ts:319-345 | A slide never ends on a piece of the mover and never leaves the cross. |
| MoveRulesLemmas.EmptyOriginNoMoves | utils/move-calculator.ts:48-51 | An empty origin has no pseudo-legal and no legal moves. |
| MoveRulesLemmas.PawnPushCountsAsAttack | utils/game-logic.ts:4-21 | The square in front of another colour's pawn counts as attacked when the pawn could push there, because the attack scan uses the move generator. |
| MoveRulesLemmas.FilterSafeIff | utils/move-calculator.ts:12-40 | The filter keeps exactly the candidates after which the mover's king is safe, in their order. |
| MoveRulesLemmas.LegalIff | utils/move-calculator.ts:4-41 | A legal move is exactly a pseudo-legal destination (castling only in the Utils engine) after whose simulation the mover's first king is found and not attacked; server.js (294-317) also keeps a move after which no king is found. |
| MoveRulesLemmas.LegalKeepsKingSafe | utils/move-calculator.ts:34-39 | After a legal move the mover's first king, when found, is not attacked; only the server.js engine can leave the mover without a king. |
| MoveRulesLemmas.KingLossPolicy | server.js:294-317 | A candidate after which no king of the mover is left is legal in server.js and not in the Utils engine. |
| MoveRulesLemmas.LegalSound | utils/move-calculator.ts:4-41 | On a board with pieces only on the cross, a legal move starts from a piece on the cross and ends on a playable square that holds no piece of the mover. |
| MoveCalculator.AddMovesInDirection | utils/move-calculator.ts:319-345 | The while loop appends exactly the slide along the direction. |
| MoveCalculator.AddRays | utils/move-calculator.ts:142-171 | Appends the slides of every direction, in order. |
| MoveCalculator.AddLeaps | utils/move-calculator.ts:173-227 | Appends the knight or king targets of every offset, in order. |
| MoveCalculator.AddPawnMoves | utils/move-calculator.ts:79-140 | Appends exactly the pawn moves (pushes, then the two captures). |
| MoveCalculator.AddKingMoves | utils/move-calculator.ts:197-233 | Appends the king's neighbours, then its castling moves when castling is on and the king has not moved. |
| MoveCalculator.AddCastlingMoves | utils/move-calculator.ts:235-317 | Appends castling moves only when the king's square is not attacked, king side first. |
| MoveCalculator.CanCastleKingSide | utils/move-calculator.ts:260-287 | True exactly when king-side castling is offered. |
| MoveCalculator.CanCastleQueenSide | utils/move-calculator.ts:289-316 | True exactly when queen-side castling is offered. |
| MoveCalculator.GenerateMoves | utils/move-calculator.ts:43-77 | The dispatcher returns exactly the pseudo-legal moves of the piece on the square. |
| MoveCalculator.IsPositionUnderAttack | utils/game-logic.ts:4-21 | The row-major scan answers true exactly when a piece of another colour has the square among its moves without castling. |
| MoveCalculator.FindKingPosition | utils/game-logic.ts:23-33 | The scan returns the first king of the colour in row-major order, or none. |
| MoveCalculator.FirstKingUnique | utils/game-logic.ts:23-33 | A king square with no king of the colour before it is the one the lookup returns. |
| MoveCalculator.GetAvailableMoves | utils/move-calculator.ts:4-41 | The filter loop returns exactly the legal moves of the engine in use. |
| BoardSetup.SetupPieces | utils/board-setup.ts:23-73 | Puts the colour's back rank in order (rook, knight, bishop, queen, king, bishop, knight, rook) and its eight pawns on its own arm, and touches no other square. |
| BoardSetup.InitializeBoard | utils/board-setup.ts:3-21 | Builds exactly the starting position: an empty grid with yellow, blue, red and green set up. |
| BoardSetup.OneKingEach | utils/board-setup.ts:23-73 | Each colour has exactly one king at the start, on its fixed square, and the king lookup finds it. |
| BoardSetup.StartingSquaresSound | utils/board-setup.ts:3-73 | At the start pieces stand only on the cross, none has moved, and every pawn is on a line from which the double step is allowed. |
| BoardSetup.SixteenPiecesEach | server.js:25-58 | Each colour starts with exactly sixteen pieces, on its sixteen home squares. |
| BoardSetup.HomeSquaresOccupied | utils/board-setup.ts:23-73 | Every home square of a colour holds a piece of that colour at the start. |
| BoardSetup.OnlyHomeSquaresOccupied | utils/board-setup.ts:23-73 | No piece of a colour starts outside its home squares. |
| GameStatus.SweepEffect | lib/socket-server.ts:377-386 | After removing a colour no piece of it is left and every other square is unchanged. |
| GameStatus.RemoveAllPiecesOfColor | hooks/use-four-player-chess.ts:88-101 | The copy loop returns the board with exactly the colour's pieces removed. |
| GameStatus.ColorHasLegalMove | lib/socket-server.ts:342-355 | The early-exit scan answers whether some piece of the colour has a legal move. |
| GameStatus.PieceHasMoves | lib/socket-server.ts:345-351 | One square of the scan: it holds a piece of the colour with a non-empty list of legal moves. |
| GameStatus.EliminationMonotone | lib/socket-server.ts:320-375 | Colours eliminated before the move stay eliminated, in the same order, at the front of the list. |
| GameStatus.EliminatedIff | lib/socket-server.ts:320-375 | A colour is eliminated after the evaluation exactly when it was before, or when, on the board it is examined on, its king is missing, or its king is attacked and none of its pieces has a legal move. |
| GameStatus.InCheckIff | lib/socket-server.ts:320-375 | A colour is reported in check exactly when it was still playing and its king is attacked when its turn in the scan comes. |
| GameStatus.NoDuplicateEliminations | lib/socket-server.ts:320-375 | The elimination list never names a colour twice. |
| GameStatus.EvaluateBoard | lib/socket-server.ts:325-362 | The evaluation only removes pieces, and only pieces of colours it eliminates; every other square is unchanged. |
| GameStatus.EliminatedHaveNoPieces | lib/socket-server.ts:320-375 | When no previously eliminated colour has pieces on the board, no eliminated colour has pieces afterwards. |
| GameStatus.CheckGameStatus | hooks/use-four-player-chess.ts:29-85 | The hook's evaluation loop computes the same board, check list and elimination list as the evaluation, and the winner is the only colour left. |
| GameStatus.ActiveIff | lib/socket-server.ts:368 | The active list holds exactly the colours not eliminated, in turn order. |
| GameStatus.WinnerIff | lib/socket-server.ts:367-369 | There is a winner exactly when one colour is left, and the winner is that colour. |
| GameStatus.GetNextPlayer | lib/socket-server.ts:388-397 | The loop returns a colour that is not eliminated, and every colour between the current one and it in turn order is eliminated. |
| GameStatus.NextPlayerFirstActive | hooks/use-four-player-chess.ts:103-113 | The first colour after the current one in turn order that is not eliminated is the next player. |
| GameStatus.NextPlayerStays | server.js:420-429 | The turn comes back to the current colour exactly when every other colour is eliminated. |
| MoveExecution.NewGame | hooks/use-four-player-chess.ts:13-27 | A new game has red to move, nothing selected, empty capture lists and no checks, eliminations or winner. |
| MoveExecution.MovedPieceLands | lib/socket-server.ts:268-308 | The moving piece lands on the destination with its colour, marked as moved, and the origin is empty. |
| MoveExecution.PromotionIff | lib/socket-server.ts:292-303 | A piece changes kind exactly when it is a pawn reaching the promotion line of the colour to move, and then it becomes a queen. |
| MoveExecution.OtherSquaresUnchanged | lib/socket-server.ts:268-308 | Apart from the origin, the destination and, for a two-column king move, the two rook squares, no square changes. |
| MoveExecution.CastlingMovesRook | lib/socket-server.ts:280-290 | A two-column king move takes the rook off its square and puts it, marked as moved, next to the king's starting square on that side. |
| MoveExecution.LegalMoveLeavesSquare | lib/socket-server.ts:260-266 | A legal destination is on the grid, differs from the origin, and the origin holds a piece. |
| MoveExecution.LegalCastlingHasRook | lib/socket-server.ts:280-290 | A legal two-column king move comes from the Utils engine, stays on its row and has an unmoved own rook on the rook square. |
| MoveExecution.MovePiece | lib/socket-server.ts:268-308 | The board update is exactly the move with its rook relocation and promotion. |
| MoveExecution.RecordCaptureEffect | lib/socket-server.ts:272-276 | A captured piece is appended to the mover's list and no other list changes. |
| MoveExecution.AfterMoveState | lib/socket-server.ts:252-318 | After an accepted move nothing is selected, earlier eliminations are kept, the winner is the last colour standing, and otherwise the turn goes to a colour still playing. |
| MoveExecution.NextPlayerActive | lib/socket-server.ts:388-397 | When some colour is still playing, the next player is not eliminated. |
| RoomServer.FindPlayer | server.js:747-751 | The lookup returns a seated player that the socket identifies, or none when no seated player matches. |
| RoomServer.AvailableColorIff | lib/socket-server.ts:77-84 | The colour handed out is unused and every colour before it in turn order is taken; fewer than four players always leave one. |
| RoomServer.JoinKeepsColorsDistinct | lib/socket-server.ts:77-93 | Seating a newcomer on the available colour keeps the seated colours distinct. |
| RoomServer.AllLegalMovesIff | server.js:318-337 | The list holds exactly the pairs whose origin holds a piece of the colour and whose destination is one of its legal moves. |
| RoomServer.AllLegalMovesForPlayer | server.js:318-337 | The grid scan returns the pairs row by row, square by square, each square's moves in order. |
| RoomServer.RowMoves | server.js:322-333 | One row of the scan, left to right. |
| RoomServer.SquareMoves | server.js:323-332 | One square of the scan: its piece's legal moves when it belongs to the colour, otherwise none. |
| RoomServer.PushPairs | server.js:326-331 | Appends one pair per destination, in order. |
| RoomServer.Room.constructor | lib/socket-server.ts:25-58 | A new room seats its creator as red on a new game at the starting position that has not started. |
| RoomServer.Room.RemoveAllPiecesOfColor | server.js:431-440 | Removes the colour's pieces from the room's board in place and changes nothing else. |
| RoomServer.Room.UpdateGameStatus | lib/socket-server.ts:320-375 | The room's state becomes the evaluation of its board: swept board, check list, elimination list, winner and turn. |
| RoomServer.Room.ExecuteMove | lib/socket-server.ts:252-318 | Accepts exactly when the origin holds a piece of the colour to move and the destination is one of its legal moves; then the state is the state after the move; otherwise nothing changes. |
| RoomServer.ValidateMove | lib/socket-server.ts:253-266 | Answers true exactly when the origin holds a piece of the colour to move and the destination is among that piece's legal moves. |
| RoomServer.ApplyValidatedMove | lib/socket-server.ts:268-312 | For an accepted move, records the captured piece for the mover, moves the piece (and the castling rook) with promotion, and clears the selection. |
| RoomServer.Room.MakeMove | server.js:734-782 | Rejects before the start, for a socket that is not seated, out of turn and for an eliminated player, in that order; otherwise the executor decides; the state changes only on a move. lib/socket-server.ts:110-146 has the same guards. |
| RoomServer.Room.MakeRandomMove | server.js:339-361 | Plays some listed legal move exactly when the list is not empty, and then the state is the state after that move; with no move nothing changes. |
| RoomServer.Room.Join | server.js:656-701 | Refuses a full room and a started game; otherwise seats the newcomer on the first unused colour in turn order. |
| RoomServer.Room.StartGame | lib/socket-server.ts:148-171 | Only the creator may start: lib/socket-server.ts needs two players, server.js (784-810) one. |
| RoomServer.Room.ResetGame | lib/socket-server.ts:173-201 | Only the creator may reset, and a reset returns to a new game at the starting position. |
| RoomServer.MakeMove | lib/socket-server.ts:110-146 | No room id means not in a room, and an id whose room is gone means the game has not started. In a room the outcome follows the guards in source order: not started, not seated, not your turn, eliminated, invalid move. A move is played only when all of them pass. A refused move leaves the room's state unchanged, and the players and the started flag never change. |
| RoomServer.JoinRoom | lib/socket-server.ts:60-101 | A missing room is reported. In a room the outcome is full, already started, no colour left, or joined on the first unused colour, in that order. A join adds exactly the newcomer with that colour, a refused join leaves the players unchanged, and the game state and the started flag never change. |
| ClientGame.ClickEffects | hooks/use-four-player-chess.ts:115-234 | The selection stays consistent; nothing happens while the colour to move is eliminated; clicking the selected square deselects it; the board, turn and captures change only when a selected piece moves to one of its available moves, and then by that move. |
| ClientGame.MoveClickOutcome | hooks/use-four-player-chess.ts:158-230 | A move click clears the selection, only adds eliminations, names the last colour standing as winner, and otherwise passes the turn to a colour still playing. |
| ClientGame.FourPlayerGame.constructor | hooks/use-four-player-chess.ts:13-27 | The hook starts from a new game at the starting position. |
| ClientGame.FourPlayerGame.HandleSquareClick | hooks/use-four-player-chess.ts:115-234 | The state becomes the click's outcome, and the selection invariant is kept. |
| ClientGame.FourPlayerGame.ResetGame | hooks/use-four-player-chess.ts:236-252 | The state goes back to a new game at the starting position. |
| PlayerView.ToActual | components/multiplayer-chess-game.tsx:131-151 | Maps a display square to a board square, in the grid exactly when the display square is. |
| PlayerView.ToView | components/multiplayer-chess-game.tsx:154-174 | Maps a board square to a display square, in the grid exactly when the board square is. |
| PlayerView.RoundTrips | components/multiplayer-chess-game.tsx:131-174 | The two maps undo each other, in both orders, for every viewer. |
| PlayerView.RedSeesBoard | components/multiplayer-chess-game.tsx:131-151 | Red and a viewer without a colour see the board unrotated. |
| PlayerView.YellowInvolution | components/multiplayer-chess-game.tsx:142-144 | Yellow's half turn is its own inverse, and both directions are the same map. |
| PlayerView.Injective | components/multiplayer-chess-game.tsx:131-174 | No two squares share an image under either map. |
| PlayerView.CrossPreserved | components/multiplayer-chess-game.tsx:85-128 | Every rotation maps playable squares to playable squares and the corners to the corners. |
| PlayerView.ViewBoardPlaces | components/multiplayer-chess-game.tsx:85-128 | The view shows each board square's piece at that square's display position. |
| PlayerView.TransformBoardForPlayer | components/multiplayer-chess-game.tsx:85-128 | The copy loop builds exactly the viewer's rotated board, or the board itself without a colour. |
| PlayerView.ViewMoves | components/multiplayer-chess-game.tsx:190-192 | The shown moves are the legal moves mapped to display squares, one for one. |
| PlayerView.RequestGuards | components/multiplayer-chess-game.tsx:176-227 | A move request is sent exactly when the viewer is connected and seated in a started game, it is their turn, they are not eliminated, a different square was selected, the clicked square holds no own piece and is a shown move; the request names both squares in board coordinates. |
| PlayerView.RequestAccepted | components/multiplayer-chess-game.tsx:176-227 | Clicks keep the shown selection consistent with the game state, and every request sent is one that the executor of lib/socket-server.ts accepts on that state. |
| MoveHistory.Decimal | components/move-history.tsx:39-43 | A rank is written as a non-empty string of digits with no leading zero. |
| MoveHistory.DecimalRoundTrip | components/move-history.tsx:39-43 | Reading the digits of a rank back gives the rank. |
| MoveHistory.PositionNotation | components/move-history.tsx:39-43 | A square's name starts with its column's file letter and has at least two characters. |
| MoveHistory.PositionRoundTrip | components/move-history.tsx:39-43 | Every square's name is a file letter a to n followed by digits and reads back as that square. |
| MoveHistory.PositionNotationInjective | components/move-history.tsx:39-43 | Two squares have the same name exactly when they are the same square. |
| MoveHistory.FormatMoveRoundTrip | components/move-history.tsx:27-52 | A move's notation reads back as its piece (a pawn when no symbol is written), its origin, whether it captured, and its destination. |
| MoveHistory.FormatMoveParts | components/move-history.tsx:45-52 | The separator is "x" exactly when a piece was captured, and a symbol is written exactly when the mover is not a pawn. |
| LegacyRules.FindKing | components/chess-board.tsx:220-231 | None exactly when the side has no king on the board; otherwise a square holding its king with none before it in row-major order. |
| LegacyRules.GeneratedOnBoard | components/chess-board.tsx:173-203 | Every pseudo-legal destination is on the 8x8 board. |
| LegacyRules.PawnMovesExactly | components/chess-board.tsx:242-271 | A pawn moves one row forward onto an empty square, two from its start row over an empty square onto an empty square, or diagonally forward onto an enemy piece, and nowhere else. |
| LegacyRules.RayShape | components/chess-board.tsx:274-303 | A slide visits consecutive squares along its direction, passes only empty squares and stops at the board edge or the first piece, including an enemy piece and excluding an own one. |
| LegacyRules.LeapsIff | components/chess-board.tsx:306-331 | A fixed-offset destination is exactly one of the offsets from the origin, on the board and not own-occupied. |
| LegacyRules.KnightMovesExactly | components/chess-board.tsx:306-331 | A knight reaches exactly the (2,1)-shaped squares on the board that are not own-occupied. |
| LegacyRules.KingMovesExactly | components/chess-board.tsx:372-397 | A king reaches exactly its neighbours on the board that are not own-occupied; there is no castling. |
| LegacyRules.RaysNeverOwn | components/chess-board.tsx:334-369 | A rook, bishop or queen slide never ends on an own piece or off the board. |
| LegacyRules.GenerateNeverOwn | components/chess-board.tsx:173-203 | Every pseudo-legal destination is on the board, not own-occupied and not the origin. |
| LegacyRules.FilterSafeIff | components/chess-board.tsx:214-238 | The filter keeps exactly the candidates after which the mover's king is safe, in their order. |
| LegacyRules.LegalIff | components/chess-board.tsx:206-239 | A legal move is exactly a pseudo-legal destination after which the mover's first king is not attacked, or after which the mover has no king. |
| LegacyRules.ClassifyMeaning | components/chess-board.tsx:56-110 | A status is computed exactly when the side to move has a king: check means an enemy piece reaches that king, checkmate means check with no own piece having a legal move, stalemate means no check and no legal move, never both. |
| LegacyRules.UnderAttackIff | components/chess-board.tsx:154-170 | A square is attacked exactly when some enemy piece on the board has it among its pseudo-legal moves. |
| LegacyRules.HasLegalMoveIff | components/chess-board.tsx:76-90 | The side has a legal move exactly when not every own piece has an empty legal list. |
| LegacyRules.InitialBoardShape | components/chess-board.tsx:113-151 | Black starts on rows 0-1, white on rows 6-7, pawns on rows 1 and 6, rows 2-5 are empty, queens on column 3, kings on column 4, and nothing has moved. |
| LegacyEngine.AddPawnMoves | components/chess-board.tsx:242-271 | Appends exactly the pawn moves: the pushes, then the captures to the left and right. |
| LegacyEngine.AddPawnPushes | components/chess-board.tsx:247-255 | Appends the single push and, from the start row, the double push. |
| LegacyEngine.AddCapture | components/chess-board.tsx:257-270 | Appends a diagonal target only when it holds an enemy piece. |
| LegacyEngine.WalkDirection | components/chess-board.tsx:283-301 | The while loop appends exactly the slide along the direction. |
| LegacyEngine.AddRays | components/chess-board.tsx:274-303 | Appends the slides of every direction, in order. |
| LegacyEngine.AddLeaps | components/chess-board.tsx:306-331 | Appends the targets of every offset, in order. |
| LegacyEngine.GetMovesWithoutCheckValidation | components/chess-board.tsx:173-203 | Returns exactly the pseudo-legal moves of the piece on the square. |
| LegacyEngine.AddKindMoves | components/chess-board.tsx:181-201 | Returns exactly the pseudo-legal moves of a piece of the given type and side on the square. |
| LegacyEngine.IsPositionUnderAttack | components/chess-board.tsx:154-170 | The scan answers true exactly when an enemy piece reaches the square. |
| LegacyEngine.OpponentReaches | components/chess-board.tsx:159-165 | One square of the scan: it holds an enemy piece with the target among its moves. |
| LegacyEngine.FindKingPosition | components/chess-board.tsx:59-70 | The scan returns the first king of the side in row-major order, or none. |
| LegacyEngine.FirstKingUnique | components/chess-board.tsx:220-231 | A king square with no king of the side before it is the one the lookup returns. |
| LegacyEngine.GetAvailableMoves | components/chess-board.tsx:206-239 | The filter loop returns exactly the legal moves. |
| LegacyEngine.CheckStatus | components/chess-board.tsx:56-110 | The effect's computation returns the classification of the board for the side to move, or none without a king. |
| LegacyEngine.HasLegalMoves | components/chess-board.tsx:76-90 | The early-exit scan answers whether some own piece has a legal move. |
| LegacyEngine.OwnPieceCanMove | components/chess-board.tsx:80-87 | One square of the scan: an own piece with a non-empty legal list. |
| LegacyEngine.NoMoverAtAll | components/chess-board.tsx:76-90 | A completed scan that found no mover means the side has no legal move. |
| LegacyEngine.InitializeBoard | components/chess-board.tsx:113-151 | Builds exactly the starting position. |
| LegacyEngine.SetBackRank | components/chess-board.tsx:124-148 | Writes the back rank in order (rook, knight, bishop, queen, king, bishop, knight, rook), unmoved, and leaves every other row as it was. |
| LegacyGame.MoveEffects | components/chess-board.tsx:443-474 | A move puts the piece, marked as moved and promoted to a queen on row 0 or 7, on the destination, empties the origin, changes no other square, adds a capture to the mover's list only, passes the turn and clears the selection. |
| LegacyGame.MoveConservesPieces | components/chess-board.tsx:443-474 | A move neither creates nor loses a piece: the pieces on the board plus the captured ones stay the same number. |
| LegacyGame.ClickEffects | components/chess-board.tsx:400-477 | The selection stays consistent; clicking the selected square deselects it; the status flags never change; the board, turn and captures change only by the move of the selected piece to one of its legal moves. |
| LegacyGame.MoveClickIsLegal | components/chess-board.tsx:400-477 | A click that moves plays a pseudo-legal move of the selected piece, to another square, after which the mover's king, if any, is not attacked. |
| LegacyGame.StatusEffectMeaning | components/chess-board.tsx:56-110 | The effect changes only the flags; with a king on the board checkmate is check with no legal move, stalemate is no check with no legal move, never both; without a king nothing changes. |
| LegacyGame.LegacyChessBoard.constructor | components/chess-board.tsx:41-53 | The component starts at the starting position with white to move and nothing selected, captured or flagged. |
| LegacyGame.LegacyChessBoard.HandleSquareClick | components/chess-board.tsx:400-477 | The state becomes the click's outcome, and the selection invariant is kept. |
| LegacyGame.LegacyChessBoard.RefreshStatus | components/chess-board.tsx:56-110 | The state becomes the status effect's outcome, using the loop computation. |
| LegacyGame.LegacyChessBoard.ResetGame | components/chess-board.tsx:480-494 | The state goes back to the starting state. |

## Left out

- Sockets, rooms as a registry, room ids, player ids and timers are not modelled. Leaving, disconnecting and reconnecting are not modelled either. Socket and player ids are natural numbers, and the room lookup is a parameter.
- Math.random in the random-move agent is not modelled: the agent plays some move of the legal list, left open.
- Move records, timestamps, move numbers and console logging are not modelled. The notation reads only the origin, destination, piece and capture of a move.
- React rendering and state scheduling are not modelled. A state update is a reassignment of the component's or hook's state field. The 8x8 status effect is the explicit method `RefreshStatus`, run by the caller after a change of board or turn.
- In-place updates of the board arrays are modelled as reassigning a board value held in a field, so aliasing between the room state and other references is not captured.
- GameStatus.GetNextPlayer: requires one colour not eliminated. When all four colours are eliminated, the source's loop (lib/socket-server.ts:388-397, and hooks/use-four-player-chess.ts:103-113) never ends. The evaluation can reach that case: removing an eliminated colour's pieces can open a line onto a colour checked later in the same scan, and a colour without a king is eliminated. The model does not hang there: `NextTurn` keeps the turn unchanged.
- RoomServer.Room.ExecuteMove: an origin outside the grid is rejected. In the source it throws (a row out of range) or is rejected (a column out of range).
- MoveExecution.MovePiece: an empty castling rook square stays empty, where the source would write a bare moved marker there. A legal castling move always has its rook (`LegalCastlingHasRook`).
- RoomServer.Room.MakeMove: in server.js rooms the shown moves are computed with castling but the server rejects them. `PlayerView.RequestAccepted` is stated for the lib/socket-server.ts engine only.
- LegacyGame.LegacyChessBoard.HandleSquareClick: the 8x8 click handler has no guard for a finished game, so clicks still move after checkmate, as in the source.
- The other components (lobby, status panels, captured-piece and square rendering), the socket hook and the page are not part of this model.
