/**
 * Value types of the four-player game: pieces, colours, positions and the
 * 14x14 board (types/chess.ts), plus the fixed turn order shared by the
 * server and the client hook.
 */
module ChessTypes {

  datatype Option<T> = None | Some(value: T)

  datatype Color = Red | Blue | Yellow | Green

  datatype Kind = Pawn | Rook | Knight | Bishop | Queen | King

  /** `hasMoved` is optional in the source; an absent flag reads as false. */
  datatype Piece = Piece(kind: Kind, color: Color, hasMoved: bool)

  datatype Pos = Pos(row: int, col: int)

  /** A row/column step, as the `{ dr, dc }` records of the generators. */
  datatype Dir = Dir(dr: int, dc: int)

  type Square = Option<Piece>

  predicate IsGrid(b: seq<seq<Square>>)
  {
    |b| == 14 && forall r :: 0 <= r < 14 ==> |b[r]| == 14
  }

  /** A 14x14 grid; squares outside the cross are ordinary cells that stay empty. */
  type Board = b: seq<seq<Square>> | IsGrid(b)
    witness seq(14, _ => seq(14, _ => None))

  /** Turn order and status-evaluation order: red, blue, yellow, green. */
  const ORDER: seq<Color> := [Red, Blue, Yellow, Green]

  function EmptyBoard(): (b: Board)
    ensures forall r, c :: 0 <= r < 14 && 0 <= c < 14 ==> b[r][c].None?
  {
    seq(14, _ => seq(14, _ => None))
  }

  predicate InGrid(p: Pos)
  {
    0 <= p.row < 14 && 0 <= p.col < 14
  }

  function At(b: Board, p: Pos): Square
    requires InGrid(p)
  {
    b[p.row][p.col]
  }

  /** `board[p.row][p.col] = s` on a board value. */
  function Put(b: Board, p: Pos, s: Square): (r: Board)
    requires InGrid(p)
    ensures At(r, p) == s
    ensures forall q :: InGrid(q) && q != p ==> At(r, q) == At(b, q)
  {
    b[p.row := b[p.row][p.col := s]]
  }

  function Shift(p: Pos, d: Dir): Pos
  {
    Pos(p.row + d.dr, p.col + d.dc)
  }

  function Abs(x: int): int
  {
    if x < 0 then -x else x
  }

  /** Index of a colour in ORDER. */
  function IndexOf(c: Color): (i: nat)
    ensures i < 4 && ORDER[i] == c
  {
    match c
    case Red => 0
    case Blue => 1
    case Yellow => 2
    case Green => 3
  }

  predicate IsPieceOf(s: Square, color: Color)
  {
    s.Some? && s.value.color == color
  }

  predicate IsKingOf(s: Square, color: Color)
  {
    s.Some? && s.value.kind == King && s.value.color == color
  }

  /** An offset list reaches `m` when its prefix does or its last offset does. */
  lemma ReachStep(p: Pos, offsets: seq<Dir>, m: Pos)
    requires offsets != []
    ensures var n := |offsets| - 1;
      (exists i :: 0 <= i < |offsets| && m == Shift(p, offsets[i]))
      <==> (exists i :: 0 <= i < n && m == Shift(p, offsets[..n][i])) || m == Shift(p, offsets[n])
  {
    var n := |offsets| - 1;
    if exists i :: 0 <= i < |offsets| && m == Shift(p, offsets[i]) {
      var i :| 0 <= i < |offsets| && m == Shift(p, offsets[i]);
      if i < n {
        assert offsets[..n][i] == offsets[i];
      }
    }
    if exists i :: 0 <= i < n && m == Shift(p, offsets[..n][i]) {
      var i :| 0 <= i < n && m == Shift(p, offsets[..n][i]);
      assert offsets[..n][i] == offsets[i];
    }
  }

  /** Sequence concatenation is associative (used to extend appended move lists). */
  lemma AppendAssoc<T>(a: seq<T>, b: seq<T>, c: seq<T>)
    ensures (a + b) + c == a + (b + c)
  {
  }

  /** Two boards that agree on every square are equal. */
  lemma BoardEq(a: Board, b: Board)
    requires forall r, c | 0 <= r < 14 && 0 <= c < 14 :: a[r][c] == b[r][c]
    ensures a == b
  {
    forall r | 0 <= r < 14
      ensures a[r] == b[r]
    {
    }
  }
}
