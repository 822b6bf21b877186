/**
 * The move notation of components/move-history.tsx: a square is written as
 * its file letter (a to n, by column) followed by its rank 14 - row in
 * decimal, and a move as the piece symbol (none for a pawn), the origin, "x"
 * for a capture or "-" otherwise, and the destination. The notation is
 * proved unambiguous by reading it back.
 */
module MoveHistory {
  import opened ChessTypes

  /** The fields of a history entry that the notation reads. */
  datatype HistoryMove = HistoryMove(from: Pos, to: Pos, piece: Kind, player: Color, captured: Option<Kind>)

  const FILES: string := "abcdefghijklmn"

  /** The white chess symbols, king to pawn. */
  function Symbol(kind: Kind): char
  {
    match kind
    case King => '\U{2654}'
    case Queen => '\U{2655}'
    case Rook => '\U{2656}'
    case Bishop => '\U{2657}'
    case Knight => '\U{2658}'
    case Pawn => '\U{2659}'
  }

  function SymbolKind(ch: char): Option<Kind>
  {
    if ch == '\U{2654}' then Some(King)
    else if ch == '\U{2655}' then Some(Queen)
    else if ch == '\U{2656}' then Some(Rook)
    else if ch == '\U{2657}' then Some(Bishop)
    else if ch == '\U{2658}' then Some(Knight)
    else if ch == '\U{2659}' then Some(Pawn)
    else None
  }

  // ------------------------------------------------------------ decimals

  function Digit(d: int): char
    requires 0 <= d < 10
  {
    ('0' as int + d) as char
  }

  predicate IsDigit(ch: char)
  {
    '0' <= ch <= '9'
  }

  /** The decimal numeral of n, without leading zeros, as a template literal prints it. */
  function Decimal(n: nat): (s: string)
    ensures |s| >= 1 && forall i | 0 <= i < |s| :: IsDigit(s[i])
    ensures n >= 1 ==> s[0] != '0'
  {
    if n < 10 then [Digit(n)] else Decimal(n / 10) + [Digit(n % 10)]
  }

  /** The value of a string of digits. */
  function ParseDecimal(s: string): int
  {
    if s == [] then 0 else ParseDecimal(s[..|s| - 1]) * 10 + (s[|s| - 1] as int - '0' as int)
  }

  lemma {:induction false} DecimalRoundTrip(n: nat)
    ensures ParseDecimal(Decimal(n)) == n
  {
    if n >= 10 {
      var s := Decimal(n);
      assert s[..|s| - 1] == Decimal(n / 10);
      DecimalRoundTrip(n / 10);
    }
  }

  // ------------------------------------------------------------- squares

  /** getPositionNotation: the file letter of the column, then the rank 14 - row. */
  function PositionNotation(row: int, col: int): (s: string)
    requires 0 <= row < 14 && 0 <= col < 14
    ensures |s| >= 2 && s[0] == FILES[col]
  {
    [FILES[col]] + Decimal(14 - row)
  }

  /** Reading a square back: a file letter, then the digits of a rank from 1 to 14. */
  function ParseSquare(s: string): Option<Pos>
  {
    if |s| < 2 || !('a' <= s[0] <= 'n') || exists i | 1 <= i < |s| :: !IsDigit(s[i]) then None
    else
      var rank := ParseDecimal(s[1..]);
      if 1 <= rank <= 14 then Some(Pos(14 - rank, s[0] as int - 'a' as int)) else None
  }

  /** Every square is written as a letter a to n followed by digits, and reads back as itself. */
  lemma PositionRoundTrip(row: int, col: int)
    requires 0 <= row < 14 && 0 <= col < 14
    ensures ParseSquare(PositionNotation(row, col)) == Some(Pos(row, col))
    ensures var s := PositionNotation(row, col); 'a' <= s[0] <= 'n' && forall i | 1 <= i < |s| :: IsDigit(s[i])
  {
    var s := PositionNotation(row, col);
    assert s[1..] == Decimal(14 - row);
    DecimalRoundTrip(14 - row);
  }

  /** Distinct squares are written differently. */
  lemma PositionNotationInjective(r1: int, c1: int, r2: int, c2: int)
    requires 0 <= r1 < 14 && 0 <= c1 < 14 && 0 <= r2 < 14 && 0 <= c2 < 14
    ensures PositionNotation(r1, c1) == PositionNotation(r2, c2) <==> r1 == r2 && c1 == c2
  {
    PositionRoundTrip(r1, c1);
    PositionRoundTrip(r2, c2);
  }

  // --------------------------------------------------------------- moves

  /** formatMove: the piece symbol (none for a pawn), origin, "x" or "-", destination. */
  function FormatMove(m: HistoryMove): string
    requires InGrid(m.from) && InGrid(m.to)
  {
    var piece := if m.piece == Pawn then "" else [Symbol(m.piece)];
    var capture := if m.captured.Some? then "x" else "-";
    piece + PositionNotation(m.from.row, m.from.col) + capture + PositionNotation(m.to.row, m.to.col)
  }

  /** What the notation of a move records. */
  datatype Summary = Summary(piece: Kind, from: Pos, capture: bool, to: Pos)

  function FirstSeparator(s: string): (r: Option<nat>)
    ensures r.Some? ==> r.value < |s| && (s[r.value] == 'x' || s[r.value] == '-')
  {
    if s == [] then None
    else if s[0] == 'x' || s[0] == '-' then Some(0)
    else match FirstSeparator(s[1..])
      case None => None
      case Some(i) => Some(i + 1)
  }

  /** Reading a move back: an optional symbol, then the body. */
  function ParseMove(s: string): Option<Summary>
  {
    var symbol := if |s| > 0 then SymbolKind(s[0]) else None;
    var piece := if symbol.Some? then symbol.value else Pawn;
    var body := ParseBody(if symbol.Some? then s[1..] else s);
    if body.Some? then Some(body.value.(piece := piece)) else None
  }

  /** The body of a move: a square, the first "x" or "-", a square (the piece is filled in by ParseMove). */
  function ParseBody(rest: string): Option<Summary>
  {
    match FirstSeparator(rest)
    case None => None
    case Some(i) =>
      match (ParseSquare(rest[..i]), ParseSquare(rest[i + 1..]))
      case (Some(from), Some(to)) => Some(Summary(Pawn, from, rest[i] == 'x', to))
      case _ => None
  }

  lemma BodyRoundTrip(from: Pos, sep: char, to: Pos)
    requires InGrid(from) && InGrid(to) && (sep == 'x' || sep == '-')
    ensures var f := PositionNotation(from.row, from.col);
      var t := PositionNotation(to.row, to.col);
      ParseBody(f + [sep] + t) == Some(Summary(Pawn, from, sep == 'x', to))
  {
    PositionRoundTrip(from.row, from.col);
    PositionRoundTrip(to.row, to.col);
    ParseBodyOf(PositionNotation(from.row, from.col), sep, PositionNotation(to.row, to.col), from, to);
  }

  /** Two squares around a separator parse as a body, whatever squares they are. */
  lemma ParseBodyOf(f: string, sep: char, t: string, from: Pos, to: Pos)
    requires |f| >= 1 && 'a' <= f[0] <= 'n' && forall i | 1 <= i < |f| :: IsDigit(f[i])
    requires ParseSquare(f) == Some(from) && ParseSquare(t) == Some(to)
    requires sep == 'x' || sep == '-'
    ensures ParseBody(f + [sep] + t) == Some(Summary(Pawn, from, sep == 'x', to))
  {
    var rest := f + [sep] + t;
    SeparatorAfterSquare(f, sep, t);
    assert rest[..|f|] == f;
    assert rest[|f| + 1..] == t;
  }

  lemma {:induction false} SeparatorAfterSquare(a: string, sep: char, b: string)
    requires forall i | 0 <= i < |a| :: a[i] != 'x' && a[i] != '-'
    requires sep == 'x' || sep == '-'
    ensures FirstSeparator(a + [sep] + b) == Some(|a|)
  {
    if a != [] {
      assert (a + [sep] + b)[1..] == a[1..] + [sep] + b;
      SeparatorAfterSquare(a[1..], sep, b);
    }
  }

  /**
   * The notation of a move reads back as its piece (a pawn when no symbol is
   * written), its origin, whether it captured, and its destination.
   */
  lemma FormatMoveRoundTrip(m: HistoryMove)
    requires InGrid(m.from) && InGrid(m.to)
    ensures ParseMove(FormatMove(m)) == Some(Summary(m.piece, m.from, m.captured.Some?, m.to))
  {
    var from := PositionNotation(m.from.row, m.from.col);
    var sep := if m.captured.Some? then 'x' else '-';
    var rest := from + [sep] + PositionNotation(m.to.row, m.to.col);
    BodyRoundTrip(m.from, sep, m.to);
    var body := Summary(Pawn, m.from, sep == 'x', m.to);
    var s := FormatMove(m);
    FormatMoveShape(m);
    if m.piece == Pawn {
      assert SymbolKind(s[0]).None? by {
        PositionRoundTrip(m.from.row, m.from.col);
        assert s[0] == from[0];
      }
      ParseMoveOf(s, None, rest, body);
    } else {
      assert SymbolKind(s[0]) == Some(m.piece) by {
        assert s[0] == Symbol(m.piece);
      }
      assert s[1..] == rest;
      ParseMoveOf(s, Some(m.piece), rest, body);
    }
  }

  lemma FormatMoveShape(m: HistoryMove)
    requires InGrid(m.from) && InGrid(m.to)
    ensures var rest := PositionNotation(m.from.row, m.from.col) + [if m.captured.Some? then 'x' else '-'] + PositionNotation(m.to.row, m.to.col);
      FormatMove(m) == (if m.piece == Pawn then [] else [Symbol(m.piece)]) + rest
  {
  }

  lemma ParseMoveOf(s: string, symbol: Option<Kind>, rest: string, body: Summary)
    requires |s| > 0 && SymbolKind(s[0]) == symbol
    requires rest == (if symbol.Some? then s[1..] else s) && ParseBody(rest) == Some(body)
    ensures ParseMove(s) == Some(body.(piece := if symbol.Some? then symbol.value else Pawn))
  {
  }

  /**
   * The separator is "x" exactly when a piece was captured, and a symbol is
   * written exactly when the mover is not a pawn.
   */
  lemma FormatMoveParts(m: HistoryMove)
    requires InGrid(m.from) && InGrid(m.to)
    ensures var s := FormatMove(m);
      var offset := if m.piece == Pawn then 0 else 1;
      var sepAt := offset + |PositionNotation(m.from.row, m.from.col)|;
      && sepAt < |s|
      && (s[sepAt] == 'x' <==> m.captured.Some?)
      && (SymbolKind(s[0]).Some? <==> m.piece != Pawn)
  {
    PositionRoundTrip(m.from.row, m.from.col);
    var s := FormatMove(m);
    var from := PositionNotation(m.from.row, m.from.col);
    if m.piece == Pawn {
      assert s[0] == from[0];
    }
  }
}
