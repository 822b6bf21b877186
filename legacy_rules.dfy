/**
 * The rules of the two-player 8x8 board of components/chess-board.tsx, as
 * functions on board values: the pseudo-legal generators in the order the
 * component pushes their moves, the attack scan, the king lookup, the
 * legal-move filter and the check / checkmate / stalemate classification.
 * The loops of module LegacyEngine are proved equal to these functions.
 * The four-player direction tables of MoveRules are reused: the component
 * walks the same directions in the same order.
 */
module LegacyRules {
  import opened ChessTypes
  import MoveRules

  datatype Side = White | Black

  datatype LegacyPiece = LegacyPiece(kind: Kind, side: Side, hasMoved: bool)

  type Cell = Option<LegacyPiece>

  predicate Is8x8(b: seq<seq<Cell>>)
  {
    |b| == 8 && forall r :: 0 <= r < 8 ==> |b[r]| == 8
  }

  type Board8 = b: seq<seq<Cell>> | Is8x8(b)
    witness seq(8, _ => seq(8, _ => None))

  predicate OnBoard(p: Pos)
  {
    0 <= p.row < 8 && 0 <= p.col < 8
  }

  function Get(b: Board8, p: Pos): Cell
    requires OnBoard(p)
  {
    b[p.row][p.col]
  }

  /** `board[p.row][p.col] = s` on a board value. */
  function Set(b: Board8, p: Pos, s: Cell): (r: Board8)
    requires OnBoard(p)
    ensures Get(r, p) == s
    ensures forall q :: OnBoard(q) && q != p ==> Get(r, q) == Get(b, q)
  {
    b[p.row := b[p.row][p.col := s]]
  }

  function Opponent(side: Side): Side
  {
    if side == White then Black else White
  }

  predicate IsOwn(s: Cell, side: Side)
  {
    s.Some? && s.value.side == side
  }

  // ------------------------------------------------------------------- pawns

  /** White pawns advance towards row 0, black pawns towards row 7. */
  function Forward(side: Side): int
  {
    if side == White then -1 else 1
  }

  /** The row a two-square advance starts from. */
  function StartRow(side: Side): int
  {
    if side == White then 6 else 1
  }

  /** One square ahead when it is on the board and empty; then two from the start row when that square is empty too. */
  function PawnPushes(b: Board8, p: Pos, side: Side): seq<Pos>
    requires OnBoard(p)
  {
    var one := Pos(p.row + Forward(side), p.col);
    if 0 <= one.row < 8 && Get(b, one).None? then
      var two := Pos(p.row + 2 * Forward(side), p.col);
      [one] + (if p.row == StartRow(side) && Get(b, two).None? then [two] else [])
    else []
  }

  /** A diagonal pawn target: kept only when it is on the board and holds a piece of the other side. */
  function CaptureAt(b: Board8, q: Pos, side: Side): seq<Pos>
  {
    if OnBoard(q) && Get(b, q).Some? && Get(b, q).value.side != side then [q] else []
  }

  /** getPawnMoves: the pushes, then the captures to the left and to the right. */
  function PawnMoves(b: Board8, p: Pos, side: Side): seq<Pos>
    requires OnBoard(p)
  {
    var row := p.row + Forward(side);
    PawnPushes(b, p, side) + CaptureAt(b, Pos(row, p.col - 1), side) + CaptureAt(b, Pos(row, p.col + 1), side)
  }

  // -------------------------------------------------------- sliding pieces

  /** Bounds the walk: how many more steps along `d` can stay on the board. */
  function RayBudget(p: Pos, d: Dir): nat
  {
    var n :=
      if d.dr > 0 then 8 - p.row
      else if d.dr < 0 then p.row + 1
      else if d.dc > 0 then 8 - p.col
      else p.col + 1;
    if n < 0 then 0 else n
  }

  /**
   * The squares a rook, bishop or queen reaches from `cur` on along `d`:
   * empty squares are taken, the first occupied square ends the walk and is
   * taken only when it holds a piece of the other side.
   */
  function Ray(b: Board8, cur: Pos, d: Dir, side: Side): seq<Pos>
    requires MoveRules.IsDirection(d)
    decreases RayBudget(cur, d)
  {
    if !OnBoard(cur) then []
    else match Get(b, cur)
      case None => [cur] + Ray(b, Shift(cur, d), d, side)
      case Some(q) => if q.side != side then [cur] else []
  }

  function Rays(b: Board8, p: Pos, side: Side, dirs: seq<Dir>): seq<Pos>
    requires MoveRules.AllDirections(dirs)
  {
    if dirs == [] then []
    else
      var d := dirs[|dirs| - 1];
      Rays(b, p, side, dirs[..|dirs| - 1]) + Ray(b, Shift(p, d), d, side)
  }

  // ------------------------------------------------------ knights and kings

  /** A knight or king target: kept when on the board and not holding a piece of the mover's side. */
  function LeapTo(b: Board8, q: Pos, side: Side): seq<Pos>
  {
    if OnBoard(q) && (Get(b, q).None? || Get(b, q).value.side != side) then [q] else []
  }

  function Leaps(b: Board8, p: Pos, side: Side, offsets: seq<Dir>): seq<Pos>
  {
    if offsets == [] then []
    else Leaps(b, p, side, offsets[..|offsets| - 1]) + LeapTo(b, Shift(p, offsets[|offsets| - 1]), side)
  }

  // ------------------------------------------------ generator and attacks

  /** getAvailableMovesWithoutCheckValidation: the pseudo-legal moves of the piece on `p` (no castling, no en passant). */
  function Generate(b: Board8, p: Pos): seq<Pos>
    requires OnBoard(p)
  {
    match Get(b, p)
    case None => []
    case Some(piece) => KindMoves(b, p, piece.kind, piece.side)
  }

  /** The pseudo-legal moves of a piece of the given kind and side standing on `p`. */
  function KindMoves(b: Board8, p: Pos, kind: Kind, side: Side): seq<Pos>
    requires OnBoard(p)
  {
    match kind
    case Pawn => PawnMoves(b, p, side)
    case Rook => Rays(b, p, side, MoveRules.ROOK_DIRS)
    case Knight => Leaps(b, p, side, MoveRules.KNIGHT_OFFSETS)
    case Bishop => Rays(b, p, side, MoveRules.BISHOP_DIRS)
    case Queen => Rays(b, p, side, MoveRules.ROOK_DIRS) + Rays(b, p, side, MoveRules.BISHOP_DIRS)
    case King => Leaps(b, p, side, MoveRules.KING_OFFSETS)
  }

  /** The piece on `q` belongs to the opponent of `side` and has `target` among its pseudo-legal moves. */
  predicate AttacksFrom(b: Board8, q: Pos, target: Pos, side: Side)
    requires OnBoard(q)
  {
    Get(b, q).Some? && Get(b, q).value.side == Opponent(side) && target in Generate(b, q)
  }

  /** isPositionUnderAttack: some opponent piece has `target` among its pseudo-legal moves. */
  predicate UnderAttack(b: Board8, target: Pos, side: Side)
  {
    exists r, c | 0 <= r < 8 && 0 <= c < 8 :: AttacksFrom(b, Pos(r, c), target, side)
  }

  // ------------------------------------------------------------ king lookup

  predicate IsKing(s: Cell, side: Side)
  {
    s.Some? && s.value.kind == King && s.value.side == side
  }

  /** Scans the board in row-major order from (r, c) for a king of `side`. */
  function FindKingFrom(b: Board8, side: Side, r: nat, c: nat): (k: Option<Pos>)
    requires r <= 8 && c <= 8
    ensures k.None? ==> forall q :: OnBoard(q) && (MoveRules.RowMajorBefore(Pos(r, c), q) || q == Pos(r, c)) ==> !IsKing(Get(b, q), side)
    ensures k.Some? ==>
      && OnBoard(k.value) && IsKing(Get(b, k.value), side)
      && (MoveRules.RowMajorBefore(Pos(r, c), k.value) || k.value == Pos(r, c))
      && forall q :: OnBoard(q) && (MoveRules.RowMajorBefore(Pos(r, c), q) || q == Pos(r, c)) && MoveRules.RowMajorBefore(q, k.value) ==> !IsKing(Get(b, q), side)
    decreases 8 - r, 8 - c
  {
    if r == 8 then None
    else if c == 8 then FindKingFrom(b, side, r + 1, 0)
    else if IsKing(Get(b, Pos(r, c)), side) then Some(Pos(r, c))
    else FindKingFrom(b, side, r, c + 1)
  }

  /** The king-finding scan of the component: the first king of `side` in row-major order, if any. */
  function FindKing(b: Board8, side: Side): (k: Option<Pos>)
    ensures k.None? <==> forall q :: OnBoard(q) ==> !IsKing(Get(b, q), side)
    ensures k.Some? ==>
      && OnBoard(k.value) && IsKing(Get(b, k.value), side)
      && forall q :: OnBoard(q) && MoveRules.RowMajorBefore(q, k.value) ==> !IsKing(Get(b, q), side)
  {
    FindKingFrom(b, side, 0, 0)
  }

  // ------------------------------------------------------ legal-move filter

  /** The scratch board of the filter: the piece put on `to`, `from` emptied. */
  function Simulate(b: Board8, from: Pos, to: Pos, piece: LegacyPiece): Board8
    requires OnBoard(from) && OnBoard(to)
  {
    Set(Set(b, to, Some(piece)), from, None)
  }

  /** The filter's test: no king of the mover's side is found, or the first one found is not attacked. */
  predicate Safe(b: Board8, from: Pos, piece: LegacyPiece, to: Pos)
    requires OnBoard(from) && OnBoard(to)
  {
    var nb := Simulate(b, from, to, piece);
    match FindKing(nb, piece.side)
    case None => true
    case Some(k) => !UnderAttack(nb, k, piece.side)
  }

  function FilterSafe(b: Board8, from: Pos, piece: LegacyPiece, ms: seq<Pos>): seq<Pos>
    requires OnBoard(from) && forall m | m in ms :: OnBoard(m)
  {
    if ms == [] then []
    else
      var m := ms[|ms| - 1];
      FilterSafe(b, from, piece, ms[..|ms| - 1]) + (if Safe(b, from, piece, m) then [m] else [])
  }

  /** getAvailableMoves: nothing on an empty square, otherwise the pseudo-legal moves that pass Safe. */
  function Legal(b: Board8, p: Pos): seq<Pos>
    requires OnBoard(p)
  {
    match Get(b, p)
    case None => []
    case Some(piece) =>
      GeneratedOnBoard(b, p);
      FilterSafe(b, p, piece, Generate(b, p))
  }

  // --------------------------------------------------------- classification

  /** An own piece stands on `q` and has a legal move. */
  predicate CanMove(b: Board8, q: Pos, side: Side)
    requires OnBoard(q)
  {
    IsOwn(Get(b, q), side) && Legal(b, q) != []
  }

  predicate HasLegalMove(b: Board8, side: Side)
  {
    exists r, c | 0 <= r < 8 && 0 <= c < 8 :: CanMove(b, Pos(r, c), side)
  }

  datatype Status = Status(isCheck: bool, isCheckmate: bool, isStalemate: bool)

  /**
   * The status effect: nothing when the side to move has no king; otherwise
   * check is the king being attacked, checkmate is check without a legal
   * move and stalemate is no check and no legal move.
   */
  function Classify(b: Board8, side: Side): Option<Status>
  {
    match FindKing(b, side)
    case None => None
    case Some(k) =>
      var check := UnderAttack(b, k, side);
      var anyMove := HasLegalMove(b, side);
      Some(Status(check, check && !anyMove, !check && !anyMove))
  }

  // ------------------------------------------------------- starting position

  /** The back rank, from column 0 to column 7. */
  const BACK_RANK: seq<Kind> := [Rook, Knight, Bishop, Queen, King, Bishop, Knight, Rook]

  function StartCell(r: int, c: int): Cell
    requires 0 <= c < 8
  {
    if r == 0 then Some(LegacyPiece(BACK_RANK[c], Black, false))
    else if r == 1 then Some(LegacyPiece(Pawn, Black, false))
    else if r == 6 then Some(LegacyPiece(Pawn, White, false))
    else if r == 7 then Some(LegacyPiece(BACK_RANK[c], White, false))
    else None
  }

  /** initializeBoard: black on rows 0 and 1, white on rows 6 and 7, queens on column 3 and kings on column 4. */
  function InitialBoard(): Board8
  {
    seq(8, r requires 0 <= r < 8 => seq(8, c requires 0 <= c < 8 => StartCell(r, c)))
  }

  // ================================================================ lemmas

  lemma {:induction false} RayOnBoard(b: Board8, cur: Pos, d: Dir, side: Side)
    requires MoveRules.IsDirection(d)
    ensures forall m | m in Ray(b, cur, d, side) :: OnBoard(m)
    decreases RayBudget(cur, d)
  {
    if OnBoard(cur) && Get(b, cur).None? {
      RayOnBoard(b, Shift(cur, d), d, side);
    }
  }

  lemma {:induction false} RaysOnBoard(b: Board8, p: Pos, side: Side, dirs: seq<Dir>)
    requires MoveRules.AllDirections(dirs)
    ensures forall m | m in Rays(b, p, side, dirs) :: OnBoard(m)
  {
    if dirs != [] {
      var d := dirs[|dirs| - 1];
      RaysOnBoard(b, p, side, dirs[..|dirs| - 1]);
      RayOnBoard(b, Shift(p, d), d, side);
    }
  }

  lemma {:induction false} LeapsOnBoard(b: Board8, p: Pos, side: Side, offsets: seq<Dir>)
    ensures forall m | m in Leaps(b, p, side, offsets) :: OnBoard(m)
  {
    if offsets != [] {
      LeapsOnBoard(b, p, side, offsets[..|offsets| - 1]);
    }
  }

  /** Every generated destination is on the 8x8 board. */
  lemma GeneratedOnBoard(b: Board8, p: Pos)
    requires OnBoard(p)
    ensures forall m | m in Generate(b, p) :: OnBoard(m)
  {
    match Get(b, p)
    case None =>
    case Some(piece) =>
      var side := piece.side;
      match piece.kind
      case Pawn =>
      case Rook => RaysOnBoard(b, p, side, MoveRules.ROOK_DIRS);
      case Knight => LeapsOnBoard(b, p, side, MoveRules.KNIGHT_OFFSETS);
      case Bishop => RaysOnBoard(b, p, side, MoveRules.BISHOP_DIRS);
      case Queen =>
        RaysOnBoard(b, p, side, MoveRules.ROOK_DIRS);
        RaysOnBoard(b, p, side, MoveRules.BISHOP_DIRS);
      case King => LeapsOnBoard(b, p, side, MoveRules.KING_OFFSETS);
  }

  /** One square ahead onto an empty square, or two from the start row when both squares ahead are empty. */
  predicate PawnPushTo(b: Board8, p: Pos, side: Side, m: Pos)
  {
    var one := Pos(p.row + Forward(side), p.col);
    var two := Pos(p.row + 2 * Forward(side), p.col);
    && OnBoard(one) && Get(b, one).None?
    && (m == one || (m == two && p.row == StartRow(side) && OnBoard(two) && Get(b, two).None?))
  }

  /** One of the two squares diagonally ahead, on the board and holding a piece of the other side. */
  predicate PawnCaptureTo(b: Board8, p: Pos, side: Side, m: Pos)
  {
    m.row == p.row + Forward(side) && Abs(m.col - p.col) == 1
    && OnBoard(m) && Get(b, m).Some? && Get(b, m).value.side != side
  }

  /**
   * The pawn rule square by square: white advances up the board (towards
   * row 0) and black down, two squares only from row 6 or row 1 over two
   * empty squares, and captures only diagonally forward onto the other side.
   */
  lemma PawnMovesExactly(b: Board8, p: Pos, side: Side, m: Pos)
    requires OnBoard(p)
    ensures m in PawnMoves(b, p, side) <==> PawnPushTo(b, p, side, m) || PawnCaptureTo(b, p, side, m)
  {
  }

  /** `q` ends a slide of `side`: off the board or holding an own piece. */
  predicate Blocks(b: Board8, q: Pos, side: Side)
  {
    !OnBoard(q) || IsOwn(Get(b, q), side)
  }

  /**
   * `r` is the walk from `s` along `d`: consecutive on-board squares, all
   * empty but the last, a last occupied square holding the other side, and
   * a walk that is empty or ends on an empty square ends because the next
   * square blocks it.
   */
  predicate RayWalk(b: Board8, s: Pos, d: Dir, side: Side, r: seq<Pos>)
  {
    && (forall i :: 0 <= i < |r| ==> OnBoard(r[i]))
    && (|r| > 0 ==> r[0] == s)
    && (forall i :: 0 <= i < |r| - 1 ==> r[i + 1] == Shift(r[i], d) && Get(b, r[i]).None?)
    && (|r| > 0 && Get(b, r[|r| - 1]).Some? ==> Get(b, r[|r| - 1]).value.side != side)
    && (|r| == 0 || Get(b, r[|r| - 1]).None? ==> Blocks(b, if |r| == 0 then s else Shift(r[|r| - 1], d), side))
  }

  /** Rook, bishop and queen walks stay on the board and stop at the first occupied square, taking it only from the other side. */
  lemma {:induction false} RayShape(b: Board8, s: Pos, d: Dir, side: Side)
    requires MoveRules.IsDirection(d)
    ensures RayWalk(b, s, d, side, Ray(b, s, d, side))
    decreases RayBudget(s, d)
  {
    if OnBoard(s) && Get(b, s).None? {
      RayShape(b, Shift(s, d), d, side);
      var rest := Ray(b, Shift(s, d), d, side);
      var r := Ray(b, s, d, side);
      assert r == [s] + rest;
      forall i | 0 <= i < |r| - 1
        ensures r[i + 1] == Shift(r[i], d) && Get(b, r[i]).None?
      {
        if i > 0 {
          assert r[i] == rest[i - 1] && r[i + 1] == rest[i];
        }
      }
    }
  }

  lemma {:induction false} LeapsIff(b: Board8, p: Pos, side: Side, offsets: seq<Dir>, m: Pos)
    ensures m in Leaps(b, p, side, offsets)
      <==> (exists i :: 0 <= i < |offsets| && m == Shift(p, offsets[i]))
           && OnBoard(m) && !IsOwn(Get(b, m), side)
  {
    if offsets != [] {
      var n := |offsets| - 1;
      LeapsIff(b, p, side, offsets[..n], m);
      ReachStep(p, offsets, m);
    }
  }

  /** Knights reach the eight (2,1)-shaped squares that are on the board and not own-occupied. */
  lemma KnightMovesExactly(b: Board8, p: Pos, m: Pos)
    requires OnBoard(p) && Get(b, p).Some? && Get(b, p).value.kind == Knight
    ensures m in Generate(b, p) <==>
      var dr, dc := Abs(m.row - p.row), Abs(m.col - p.col);
      ((dr == 1 && dc == 2) || (dr == 2 && dc == 1))
      && OnBoard(m) && !IsOwn(Get(b, m), Get(b, p).value.side)
  {
    var side := Get(b, p).value.side;
    LeapsIff(b, p, side, MoveRules.KNIGHT_OFFSETS, m);
    var dr, dc := m.row - p.row, m.col - p.col;
    if (Abs(dr) == 1 && Abs(dc) == 2) || (Abs(dr) == 2 && Abs(dc) == 1) {
      var i :=
        if dr == -2 && dc == -1 then 0 else if dr == -2 && dc == 1 then 1
        else if dr == -1 && dc == -2 then 2 else if dr == -1 && dc == 2 then 3
        else if dr == 1 && dc == -2 then 4 else if dr == 1 && dc == 2 then 5
        else if dr == 2 && dc == -1 then 6 else 7;
      assert m == Shift(p, MoveRules.KNIGHT_OFFSETS[i]);
    }
  }

  /** Kings reach exactly their neighbours that are on the board and not own-occupied. */
  lemma KingMovesExactly(b: Board8, p: Pos, m: Pos)
    requires OnBoard(p) && Get(b, p).Some? && Get(b, p).value.kind == King
    ensures m in Generate(b, p) <==>
      m != p && Abs(m.row - p.row) <= 1 && Abs(m.col - p.col) <= 1
      && OnBoard(m) && !IsOwn(Get(b, m), Get(b, p).value.side)
  {
    var side := Get(b, p).value.side;
    LeapsIff(b, p, side, MoveRules.KING_OFFSETS, m);
    var dr, dc := m.row - p.row, m.col - p.col;
    if m != p && Abs(dr) <= 1 && Abs(dc) <= 1 {
      var i :=
        if dr == -1 then (if dc == -1 then 0 else if dc == 0 then 1 else 2)
        else if dr == 0 then (if dc == -1 then 3 else 4)
        else (if dc == -1 then 5 else if dc == 0 then 6 else 7);
      assert m == Shift(p, MoveRules.KING_OFFSETS[i]);
    }
  }

  lemma RayNeverOwn(b: Board8, s: Pos, d: Dir, side: Side, m: Pos)
    requires MoveRules.IsDirection(d) && m in Ray(b, s, d, side)
    ensures OnBoard(m) && !IsOwn(Get(b, m), side)
  {
    RayShape(b, s, d, side);
    var r := Ray(b, s, d, side);
    var i :| 0 <= i < |r| && r[i] == m;
    if i < |r| - 1 {
      assert Get(b, r[i]).None?;
    }
  }

  lemma {:induction false} RaysNeverOwn(b: Board8, p: Pos, side: Side, dirs: seq<Dir>, m: Pos)
    requires MoveRules.AllDirections(dirs) && m in Rays(b, p, side, dirs)
    ensures OnBoard(m) && !IsOwn(Get(b, m), side)
  {
    var n := |dirs| - 1;
    if m in Rays(b, p, side, dirs[..n]) {
      RaysNeverOwn(b, p, side, dirs[..n], m);
    } else {
      RayNeverOwn(b, Shift(p, dirs[n]), dirs[n], side, m);
    }
  }

  /**
   * Every pseudo-legal destination is on the board and does not hold a
   * piece of the mover's side; in particular no piece can move onto its own
   * square.
   */
  lemma GenerateNeverOwn(b: Board8, p: Pos, m: Pos)
    requires OnBoard(p) && Get(b, p).Some? && m in Generate(b, p)
    ensures OnBoard(m) && !IsOwn(Get(b, m), Get(b, p).value.side) && m != p
  {
    var piece := Get(b, p).value;
    match piece.kind
    case Pawn => PawnMovesExactly(b, p, piece.side, m);
    case Rook => RaysNeverOwn(b, p, piece.side, MoveRules.ROOK_DIRS, m);
    case Knight => LeapsIff(b, p, piece.side, MoveRules.KNIGHT_OFFSETS, m);
    case Bishop => RaysNeverOwn(b, p, piece.side, MoveRules.BISHOP_DIRS, m);
    case Queen =>
      if m in Rays(b, p, piece.side, MoveRules.ROOK_DIRS) {
        RaysNeverOwn(b, p, piece.side, MoveRules.ROOK_DIRS, m);
      } else {
        RaysNeverOwn(b, p, piece.side, MoveRules.BISHOP_DIRS, m);
      }
    case King => LeapsIff(b, p, piece.side, MoveRules.KING_OFFSETS, m);
  }

  lemma {:induction false} FilterSafeIff(b: Board8, from: Pos, piece: LegacyPiece, ms: seq<Pos>, m: Pos)
    requires OnBoard(from) && forall x | x in ms :: OnBoard(x)
    ensures m in FilterSafe(b, from, piece, ms) <==> m in ms && Safe(b, from, piece, m)
  {
    if ms != [] {
      var n := |ms| - 1;
      FilterSafeIff(b, from, piece, ms[..n], m);
      assert ms == ms[..n] + [ms[n]];
    }
  }

  /**
   * getAvailableMoves keeps exactly the pseudo-legal moves after which the
   * mover's king is not attacked, and keeps a move after which no king of
   * the mover's side is found.
   */
  lemma LegalIff(b: Board8, p: Pos, m: Pos)
    requires OnBoard(p)
    ensures m in Legal(b, p) <==>
      && Get(b, p).Some? && m in Generate(b, p) && OnBoard(m)
      && var nb := Simulate(b, p, m, Get(b, p).value);
         match FindKing(nb, Get(b, p).value.side)
         case None => true
         case Some(k) => !UnderAttack(nb, k, Get(b, p).value.side)
  {
    if Get(b, p).Some? {
      GeneratedOnBoard(b, p);
      FilterSafeIff(b, p, Get(b, p).value, Generate(b, p), m);
    }
  }

  /**
   * The classification is reported exactly when the side to move has a
   * king; check means that king is attacked, checkmate means check with no
   * own piece having a legal move, stalemate means no check and no legal
   * move, and the two endings exclude each other.
   */
  lemma ClassifyMeaning(b: Board8, side: Side)
    ensures Classify(b, side).Some? <==> exists q :: OnBoard(q) && IsKing(Get(b, q), side)
    ensures Classify(b, side).Some? ==>
      var st := Classify(b, side).value;
      var stuck := forall q | OnBoard(q) && IsOwn(Get(b, q), side) :: Legal(b, q) == [];
      && (st.isCheck <==> exists q | OnBoard(q) :: AttacksFrom(b, q, FindKing(b, side).value, side))
      && (st.isCheckmate <==> st.isCheck && stuck)
      && (st.isStalemate <==> !st.isCheck && stuck)
      && !(st.isCheckmate && st.isStalemate)
  {
    if Classify(b, side).Some? {
      UnderAttackIff(b, FindKing(b, side).value, side);
      HasLegalMoveIff(b, side);
    }
  }

  lemma UnderAttackIff(b: Board8, target: Pos, side: Side)
    ensures UnderAttack(b, target, side) <==> exists q | OnBoard(q) :: AttacksFrom(b, q, target, side)
  {
    if exists q | OnBoard(q) :: AttacksFrom(b, q, target, side) {
      var q :| OnBoard(q) && AttacksFrom(b, q, target, side);
      assert AttacksFrom(b, Pos(q.row, q.col), target, side);
    }
  }

  lemma HasLegalMoveIff(b: Board8, side: Side)
    ensures HasLegalMove(b, side) <==> !forall q | OnBoard(q) && IsOwn(Get(b, q), side) :: Legal(b, q) == []
  {
    if !forall q | OnBoard(q) && IsOwn(Get(b, q), side) :: Legal(b, q) == [] {
      var q :| OnBoard(q) && IsOwn(Get(b, q), side) && Legal(b, q) != [];
      assert CanMove(b, Pos(q.row, q.col), side);
    }
  }

  /**
   * The starting position: black's back rank on row 0 and pawns on row 1,
   * white's pawns on row 6 and back rank on row 7, rows 2 to 5 empty, the
   * queens on column 3 and the kings on column 4; no piece has moved.
   */
  lemma InitialBoardShape(p: Pos)
    requires OnBoard(p)
    ensures var s := Get(InitialBoard(), p);
      && (2 <= p.row <= 5 <==> s.None?)
      && (s.Some? ==> !s.value.hasMoved && (s.value.side == Black <==> p.row <= 1))
      && (p.row == 1 || p.row == 6 <==> s.Some? && s.value.kind == Pawn)
      && (IsKing(s, White) <==> p == Pos(7, 4))
      && (IsKing(s, Black) <==> p == Pos(0, 4))
      && (s.Some? && s.value.kind == Queen <==> p.col == 3 && (p.row == 0 || p.row == 7))
  {
  }
}
