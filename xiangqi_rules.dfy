/**
 * The rules of the Xiangqi (Chinese chess) game in xiangqi/script.js, as
 * functions on a board value.
 *
 * The board is 10 rows of 9 cells, `g[y][x]`, row 0 at Black's side. A cell
 * holds 0 (empty) or a piece code: 1..7 are Red's chariot, horse, elephant,
 * advisor, general, cannon and pawn; 8..14 are Black's pieces in the same
 * order. The per-piece predicates, `countPiecesBetween`, `findPiece`,
 * `isKingInCheck` and `evaluateBoard` only read the board, so each is a
 * function here; the game module runs the source's loops as methods proved
 * against these functions.
 */
module XiangqiRules {
  import opened Wrappers

  const Width := 9
  const Height := 10

  type Grid = seq<seq<int>>

  datatype Color = Red | Black

  datatype Pos = Pos(x: int, y: int)

  datatype Move = Move(fromX: int, fromY: int, toX: int, toY: int)

  function Opponent(c: Color): (o: Color)
    ensures o != c
  {
    if c == Red then Black else Red
  }

  /** The general's piece code: 5 for Red, 12 for Black. */
  function GeneralOf(c: Color): (p: int)
    ensures PieceColor(p) == Some(c)
  {
    match c
    case Red => 5
    case Black => 12
  }

  /** `getPieceColor`: no colour for an empty cell, Red for 1..7, Black for any other code. */
  function PieceColor(p: int): (c: Option<Color>)
    ensures c == None <==> p == 0
    ensures c == Some(Red) <==> 1 <= p <= 7
    ensures c == Some(Black) <==> p != 0 && !(1 <= p <= 7)
  {
    if p == 0 then None
    else if 1 <= p <= 7 then Some(Red)
    else Some(Black)
  }

  predicate WellFormed(g: Grid) {
    |g| == Height && forall y :: 0 <= y < Height ==> |g[y]| == Width
  }

  predicate OnBoard(x: int, y: int) {
    0 <= x < Width && 0 <= y < Height
  }

  predicate MoveOnBoard(m: Move) {
    OnBoard(m.fromX, m.fromY) && OnBoard(m.toX, m.toY)
  }

  function Abs(n: int): nat {
    if n < 0 then -n else n
  }

  function Min(a: int, b: int): int {
    if a < b then a else b
  }

  function Max(a: int, b: int): int {
    if a < b then b else a
  }

  /** The board with cell (x, y) set to v and every other cell as it was. */
  function Set(g: Grid, x: int, y: int, v: int): (h: Grid)
    requires WellFormed(g) && OnBoard(x, y)
    ensures WellFormed(h) && h[y][x] == v
    ensures forall r, c {:trigger h[r][c]} :: OnBoard(c, r) && (r != y || c != x) ==> h[r][c] == g[r][c]
  {
    g[y := g[y][x := v]]
  }

  /** The board after the piece on the source square moves to the target square. */
  function Apply(g: Grid, m: Move): (h: Grid)
    requires WellFormed(g) && MoveOnBoard(m)
    ensures WellFormed(h)
  {
    Set(Set(g, m.toX, m.toY, g[m.fromY][m.fromX]), m.fromX, m.fromY, 0)
  }

  /** A real move vacates its source, puts the moved piece on its target and leaves every other cell alone. */
  lemma ApplyMovesOnePiece(g: Grid, m: Move)
    requires WellFormed(g) && MoveOnBoard(m)
    requires m.fromX != m.toX || m.fromY != m.toY
    ensures Apply(g, m)[m.fromY][m.fromX] == 0
    ensures Apply(g, m)[m.toY][m.toX] == g[m.fromY][m.fromX]
    ensures forall r, c :: OnBoard(c, r) && (r != m.fromY || c != m.fromX) && (r != m.toY || c != m.toX) ==>
      Apply(g, m)[r][c] == g[r][c]
  {
  }

  /**
   * The revert step of `isCheckmate` and `isStalemate`: writing the moved
   * piece back on the source and the captured cell back on the target
   * restores the board exactly.
   */
  lemma RevertRestores(g: Grid, m: Move)
    requires WellFormed(g) && MoveOnBoard(m)
    ensures Set(Set(Apply(g, m), m.fromX, m.fromY, g[m.fromY][m.fromX]), m.toX, m.toY, g[m.toY][m.toX]) == g
  {
    var h := Set(Set(Apply(g, m), m.fromX, m.fromY, g[m.fromY][m.fromX]), m.toX, m.toY, g[m.toY][m.toX]);
    forall y | 0 <= y < Height
      ensures h[y] == g[y]
    {
    }
  }

  // ---------------------------------------------------------------------
  // Counting pieces between two squares
  // ---------------------------------------------------------------------

  /** The number of occupied cells of column x in rows lo .. hi-1. */
  function ColumnCount(g: Grid, x: int, lo: int, hi: int): (n: nat)
    requires WellFormed(g) && 0 <= x < Width && 0 <= lo && hi <= Height
    ensures n <= if hi <= lo then 0 else hi - lo
    decreases hi - lo
  {
    if hi <= lo then 0
    else ColumnCount(g, x, lo, hi - 1) + (if g[hi - 1][x] != 0 then 1 else 0)
  }

  /** The number of occupied cells of row y in columns lo .. hi-1. */
  function RowCount(g: Grid, y: int, lo: int, hi: int): (n: nat)
    requires WellFormed(g) && 0 <= y < Height && 0 <= lo && hi <= Width
    ensures n <= if hi <= lo then 0 else hi - lo
    decreases hi - lo
  {
    if hi <= lo then 0
    else RowCount(g, y, lo, hi - 1) + (if g[y][hi - 1] != 0 then 1 else 0)
  }

  /**
   * `countPiecesBetween`: the occupied cells strictly between two squares of
   * one column or one row; 0 for squares on neither.
   */
  function Between(g: Grid, fx: int, fy: int, tx: int, ty: int): nat
    requires WellFormed(g) && OnBoard(fx, fy) && OnBoard(tx, ty)
  {
    if fx == tx then ColumnCount(g, fx, Min(fy, ty) + 1, Max(fy, ty))
    else if fy == ty then RowCount(g, fy, Min(fx, tx) + 1, Max(fx, tx))
    else 0
  }

  /** No piece stands strictly between two squares of one line. */
  predicate PathClear(g: Grid, fx: int, fy: int, tx: int, ty: int)
    requires WellFormed(g) && OnBoard(fx, fy) && OnBoard(tx, ty)
  {
    && (fx == tx ==> forall y :: Min(fy, ty) < y < Max(fy, ty) ==> g[y][fx] == 0)
    && (fx != tx && fy == ty ==> forall x :: Min(fx, tx) < x < Max(fx, tx) ==> g[fy][x] == 0)
  }

  lemma {:induction false} ColumnCountZero(g: Grid, x: int, lo: int, hi: int)
    requires WellFormed(g) && 0 <= x < Width && 0 <= lo && hi <= Height
    ensures ColumnCount(g, x, lo, hi) == 0 <==> forall y :: lo <= y < hi ==> g[y][x] == 0
    decreases hi - lo
  {
    if lo < hi {
      ColumnCountZero(g, x, lo, hi - 1);
    }
  }

  lemma {:induction false} RowCountZero(g: Grid, y: int, lo: int, hi: int)
    requires WellFormed(g) && 0 <= y < Height && 0 <= lo && hi <= Width
    ensures RowCount(g, y, lo, hi) == 0 <==> forall x :: lo <= x < hi ==> g[y][x] == 0
    decreases hi - lo
  {
    if lo < hi {
      RowCountZero(g, y, lo, hi - 1);
    }
  }

  /** On one line, the count between two squares is 0 exactly when the path between them is clear. */
  lemma BetweenZeroIsClear(g: Grid, fx: int, fy: int, tx: int, ty: int)
    requires WellFormed(g) && OnBoard(fx, fy) && OnBoard(tx, ty)
    requires fx == tx || fy == ty
    ensures Between(g, fx, fy, tx, ty) == 0 <==> PathClear(g, fx, fy, tx, ty)
  {
    if fx == tx {
      ColumnCountZero(g, fx, Min(fy, ty) + 1, Max(fy, ty));
    } else {
      RowCountZero(g, fy, Min(fx, tx) + 1, Max(fx, tx));
    }
  }

  /** The count does not depend on which end of the line is the source. */
  lemma BetweenSymmetric(g: Grid, fx: int, fy: int, tx: int, ty: int)
    requires WellFormed(g) && OnBoard(fx, fy) && OnBoard(tx, ty)
    ensures Between(g, fx, fy, tx, ty) == Between(g, tx, ty, fx, fy)
  {
  }

  // ---------------------------------------------------------------------
  // Finding a piece
  // ---------------------------------------------------------------------

  /** Square (c, r) comes before square (x, y) in row-major order. */
  predicate Before(r: int, c: int, y: int, x: int) {
    r < y || (r == y && c < x)
  }

  /** The first index of the row holding the piece. */
  function FindInRow(row: seq<int>, piece: int): (r: Option<nat>)
    ensures r.Some? ==> r.value < |row| && row[r.value] == piece
    ensures forall c :: 0 <= c < |row| && (r.None? || c < r.value) ==> row[c] != piece
  {
    if |row| == 0 then None
    else if row[0] == piece then Some(0)
    else
      match FindInRow(row[1..], piece)
      case None => None
      case Some(c) => Some(c + 1)
  }

  /** The first square holding the piece, scanning the rows top down and each row left to right. */
  function FindInRows(rows: seq<seq<int>>, piece: int): (r: Option<Pos>)
    ensures r.Some? ==> 0 <= r.value.y < |rows| && 0 <= r.value.x < |rows[r.value.y]| && rows[r.value.y][r.value.x] == piece
    ensures forall y, x :: 0 <= y < |rows| && 0 <= x < |rows[y]| && (r.None? || Before(y, x, r.value.y, r.value.x)) ==>
      rows[y][x] != piece
  {
    if |rows| == 0 then None
    else
      match FindInRow(rows[0], piece)
      case Some(x) => Some(Pos(x, 0))
      case None =>
        match FindInRows(rows[1..], piece)
        case None => None
        case Some(p) => Some(Pos(p.x, p.y + 1))
  }

  /**
   * `findPiece`: the first square in row-major order holding the piece, or
   * None when the board has none.
   */
  function Locate(g: Grid, piece: int): (r: Option<Pos>)
    requires WellFormed(g)
    ensures r.Some? ==> OnBoard(r.value.x, r.value.y) && g[r.value.y][r.value.x] == piece
    ensures forall row, c :: OnBoard(c, row) && (r.None? || Before(row, c, r.value.y, r.value.x)) ==> g[row][c] != piece
  {
    FindInRows(g, piece)
  }

  /** The two conditions of Locate's contract single out its result. */
  lemma FirstOccurrence(g: Grid, piece: int, r: Option<Pos>)
    requires WellFormed(g)
    requires r.Some? ==> OnBoard(r.value.x, r.value.y) && g[r.value.y][r.value.x] == piece
    requires forall row, c :: OnBoard(c, row) && (r.None? || Before(row, c, r.value.y, r.value.x)) ==> g[row][c] != piece
    ensures r == Locate(g, piece)
  {
    var f := Locate(g, piece);
    if r.Some? && f.Some? {
      assert !Before(f.value.y, f.value.x, r.value.y, r.value.x);
      assert !Before(r.value.y, r.value.x, f.value.y, f.value.x);
    }
  }

  // ---------------------------------------------------------------------
  // The seven piece rules
  // ---------------------------------------------------------------------

  /** `isValidMoveChariot`: along a row or a column with nothing in between. */
  predicate ChariotRule(g: Grid, m: Move)
    requires WellFormed(g) && MoveOnBoard(m)
  {
    (m.fromX == m.toX || m.fromY == m.toY) && Between(g, m.fromX, m.fromY, m.toX, m.toY) == 0
  }

  /** `isValidMoveHorse`: one step orthogonally then one diagonally, the orthogonal "leg" square empty. */
  predicate HorseRule(g: Grid, m: Move)
    requires WellFormed(g) && MoveOnBoard(m)
  {
    var dx, dy := Abs(m.toX - m.fromX), Abs(m.toY - m.fromY);
    && ((dx == 1 && dy == 2) || (dx == 2 && dy == 1))
    && (if dx == 2 then g[m.fromY][m.fromX + (m.toX - m.fromX) / 2] == 0
        else g[m.fromY + (m.toY - m.fromY) / 2][m.fromX] == 0)
  }

  /** `isValidMoveElephant`: two steps diagonally, the "eye" square empty, never across the river. */
  predicate ElephantRule(g: Grid, m: Move)
    requires WellFormed(g) && MoveOnBoard(m)
  {
    var color := PieceColor(g[m.fromY][m.fromX]);
    && Abs(m.toX - m.fromX) == 2 && Abs(m.toY - m.fromY) == 2
    && !(color == Some(Red) && m.toY < 5)
    && !(color == Some(Black) && m.toY > 4)
    && g[m.fromY + (m.toY - m.fromY) / 2][m.fromX + (m.toX - m.fromX) / 2] == 0
  }

  /** The palace rows of each side: 7..9 for Red, 0..2 for Black. */
  predicate InPalaceRows(color: Option<Color>, y: int) {
    && !(color == Some(Red) && (y < 7 || y > 9))
    && !(color == Some(Black) && (y < 0 || y > 2))
  }

  /** `isValidMoveAdvisor`: one step diagonally, staying in the palace. */
  predicate AdvisorRule(g: Grid, m: Move)
    requires WellFormed(g) && MoveOnBoard(m)
  {
    && Abs(m.toX - m.fromX) == 1 && Abs(m.toY - m.fromY) == 1
    && 3 <= m.toX <= 5
    && InPalaceRows(PieceColor(g[m.fromY][m.fromX]), m.toY)
  }

  /**
   * The "flying general" branch of `isValidMoveGeneral`: the opposing general
   * stands on the source's file, the target is on that file too, and no piece
   * stands between the source and the opposing general. The target row is
   * not examined.
   */
  predicate FlyingGeneral(g: Grid, m: Move)
    requires WellFormed(g) && MoveOnBoard(m)
  {
    var opponent := if PieceColor(g[m.fromY][m.fromX]) == Some(Red) then Black else Red;
    var okp := Locate(g, GeneralOf(opponent));
    && okp.Some?
    && m.toX == okp.value.x && m.fromX == okp.value.x
    && Between(g, m.fromX, m.fromY, okp.value.x, okp.value.y) == 0
  }

  /** `isValidMoveGeneral`: the flying branch, or one orthogonal step staying in the palace. */
  predicate GeneralRule(g: Grid, m: Move)
    requires WellFormed(g) && MoveOnBoard(m)
  {
    || FlyingGeneral(g, m)
    || (&& Abs(m.toX - m.fromX) + Abs(m.toY - m.fromY) == 1
        && 3 <= m.toX <= 5
        && InPalaceRows(PieceColor(g[m.fromY][m.fromX]), m.toY))
  }

  /** `isValidMoveCannon`: along a line, over exactly one piece to capture, over none otherwise. */
  predicate CannonRule(g: Grid, m: Move)
    requires WellFormed(g) && MoveOnBoard(m)
  {
    && (m.fromX == m.toX || m.fromY == m.toY)
    && Between(g, m.fromX, m.fromY, m.toX, m.toY) == (if g[m.toY][m.toX] != 0 then 1 else 0)
  }

  /**
   * `isValidMovePawn`: one step forward (up the board for Red, down for
   * Black); once across the river, one step sideways as well.
   */
  predicate PawnRule(g: Grid, m: Move)
    requires WellFormed(g) && MoveOnBoard(m)
  {
    var dx, dy := m.toX - m.fromX, m.toY - m.fromY;
    if PieceColor(g[m.fromY][m.fromX]) == Some(Red) then
      if m.fromY > 4 then dx == 0 && dy == -1
      else (dx == 0 && dy == -1) || (Abs(dx) == 1 && dy == 0)
    else
      if m.fromY < 5 then dx == 0 && dy == 1
      else (dx == 0 && dy == 1) || (Abs(dx) == 1 && dy == 0)
  }

  /** The `switch` of `isValidMove`: the rule of the piece on the source square; false for any other code. */
  predicate PieceRule(g: Grid, m: Move)
    requires WellFormed(g) && MoveOnBoard(m)
  {
    var p := g[m.fromY][m.fromX];
    if p == 1 || p == 8 then ChariotRule(g, m)
    else if p == 2 || p == 9 then HorseRule(g, m)
    else if p == 3 || p == 10 then ElephantRule(g, m)
    else if p == 4 || p == 11 then AdvisorRule(g, m)
    else if p == 5 || p == 12 then GeneralRule(g, m)
    else if p == 6 || p == 13 then CannonRule(g, m)
    else if p == 7 || p == 14 then PawnRule(g, m)
    else false
  }

  /** A chariot moves exactly along a row or column whose squares strictly between are all empty. */
  lemma ChariotClearPath(g: Grid, m: Move)
    requires WellFormed(g) && MoveOnBoard(m)
    ensures ChariotRule(g, m) <==>
      (m.fromX == m.toX || m.fromY == m.toY) && PathClear(g, m.fromX, m.fromY, m.toX, m.toY)
  {
    if m.fromX == m.toX || m.fromY == m.toY {
      BetweenZeroIsClear(g, m.fromX, m.fromY, m.toX, m.toY);
    }
  }

  /** A chariot move can be retraced: the reversed move passes the chariot rule too. */
  lemma ChariotReversible(g: Grid, m: Move)
    requires WellFormed(g) && MoveOnBoard(m)
    ensures ChariotRule(g, m) <==> ChariotRule(g, Move(m.toX, m.toY, m.fromX, m.fromY))
  {
    BetweenSymmetric(g, m.fromX, m.fromY, m.toX, m.toY);
  }

  /**
   * A cannon moving to an empty square moves exactly like a chariot; a
   * capturing cannon jumps exactly one piece, which a chariot never does.
   */
  lemma CannonVersusChariot(g: Grid, m: Move)
    requires WellFormed(g) && MoveOnBoard(m)
    ensures g[m.toY][m.toX] == 0 ==> (CannonRule(g, m) <==> ChariotRule(g, m))
    ensures g[m.toY][m.toX] != 0 ==> (CannonRule(g, m) <==>
      (m.fromX == m.toX || m.fromY == m.toY) && Between(g, m.fromX, m.fromY, m.toX, m.toY) == 1)
    ensures g[m.toY][m.toX] != 0 && CannonRule(g, m) ==> !ChariotRule(g, m)
  {
  }

  /** The horse moves in an L whose leg square is empty. */
  lemma HorseLeg(g: Grid, m: Move)
    requires WellFormed(g) && MoveOnBoard(m) && HorseRule(g, m)
    ensures Abs(m.toX - m.fromX) + Abs(m.toY - m.fromY) == 3
    ensures Abs(m.toX - m.fromX) == 2 ==> g[m.fromY][(m.fromX + m.toX) / 2] == 0
    ensures Abs(m.toY - m.fromY) == 2 ==> g[(m.fromY + m.toY) / 2][m.fromX] == 0
  {
  }

  /** An elephant stays on its own side of the river: rows 5..9 for Red, 0..4 for Black. */
  lemma ElephantStaysHome(g: Grid, m: Move)
    requires WellFormed(g) && MoveOnBoard(m) && ElephantRule(g, m)
    ensures PieceColor(g[m.fromY][m.fromX]) == Some(Red) ==> m.toY >= 5
    ensures PieceColor(g[m.fromY][m.fromX]) == Some(Black) ==> m.toY <= 4
    ensures g[(m.fromY + m.toY) / 2][(m.fromX + m.toX) / 2] == 0
  {
  }

  /** An advisor stays in its palace: columns 3..5, rows 7..9 for Red and 0..2 for Black. */
  lemma AdvisorInPalace(g: Grid, m: Move)
    requires WellFormed(g) && MoveOnBoard(m) && AdvisorRule(g, m)
    ensures 3 <= m.toX <= 5
    ensures PieceColor(g[m.fromY][m.fromX]) == Some(Red) ==> 7 <= m.toY <= 9
    ensures PieceColor(g[m.fromY][m.fromX]) == Some(Black) ==> 0 <= m.toY <= 2
  {
  }

  /**
   * A general either steps once inside its palace, or moves along the file
   * it shares with the opposing general, with nothing between the source
   * and that general.
   */
  lemma GeneralMoves(g: Grid, m: Move)
    requires WellFormed(g) && MoveOnBoard(m) && GeneralRule(g, m)
    ensures || (&& Abs(m.toX - m.fromX) + Abs(m.toY - m.fromY) == 1
                && 3 <= m.toX <= 5
                && (PieceColor(g[m.fromY][m.fromX]) == Some(Red) ==> 7 <= m.toY)
                && (PieceColor(g[m.fromY][m.fromX]) == Some(Black) ==> m.toY <= 2))
            || (&& m.fromX == m.toX
                && exists k: Pos :: && OnBoard(k.x, k.y) && k.x == m.fromX
                                    && (g[k.y][k.x] == 5 || g[k.y][k.x] == 12)
                                    && Between(g, m.fromX, m.fromY, k.x, k.y) == 0)
  {
    if FlyingGeneral(g, m) {
      var opponent := if PieceColor(g[m.fromY][m.fromX]) == Some(Red) then Black else Red;
      var k := Locate(g, GeneralOf(opponent)).value;
      assert g[k.y][k.x] == 5 || g[k.y][k.x] == 12;
    }
  }

  /**
   * A pawn never moves backward: Red's pawn goes up one row or, across the
   * river (rows 0..4), sideways one column; Black's is the mirror image.
   */
  lemma PawnNeverBackward(g: Grid, m: Move)
    requires WellFormed(g) && MoveOnBoard(m) && PawnRule(g, m)
    ensures Abs(m.toX - m.fromX) + Abs(m.toY - m.fromY) == 1
    ensures PieceColor(g[m.fromY][m.fromX]) == Some(Red) ==> m.toY == m.fromY - 1 || (m.toY == m.fromY && m.fromY <= 4)
    ensures PieceColor(g[m.fromY][m.fromX]) != Some(Red) ==> m.toY == m.fromY + 1 || (m.toY == m.fromY && m.fromY >= 5)
  {
  }

  // ---------------------------------------------------------------------
  // Validity, check, checkmate and stalemate
  // ---------------------------------------------------------------------

  /**
   * `isValidMove` with `isCheckingCheck` set: a piece on the source, the
   * target not holding a piece of `player`'s colour, and the piece's rule.
   */
  predicate BasicValid(g: Grid, m: Move, player: Color)
    requires WellFormed(g) && MoveOnBoard(m)
  {
    && g[m.fromY][m.fromX] != 0
    && !(g[m.toY][m.toX] != 0 && PieceColor(g[m.toY][m.toX]) == Some(player))
    && PieceRule(g, m)
  }

  /** Moving a piece of `player`'s colour onto its own square is never valid. */
  lemma StayingPutIsInvalid(g: Grid, x: int, y: int, player: Color)
    requires WellFormed(g) && OnBoard(x, y) && PieceColor(g[y][x]) == Some(player)
    ensures !BasicValid(g, Move(x, y, x, y), player)
  {
  }

  /**
   * `isValidMove` refuses an empty source and a target holding a piece of
   * `player`'s colour, whatever the rules of the piece say.
   */
  lemma ValidMoveGuards(g: Grid, m: Move, player: Color)
    requires WellFormed(g) && MoveOnBoard(m)
    ensures g[m.fromY][m.fromX] == 0 ==> !BasicValid(g, m, player) && !Legal(g, m, player)
    ensures PieceColor(g[m.toY][m.toX]) == Some(player) ==> !BasicValid(g, m, player) && !Legal(g, m, player)
  {
  }

  /** The piece on (x, y) belongs to `attacker` and may move onto the square k. */
  predicate Attacks(g: Grid, attacker: Color, x: int, y: int, k: Pos)
    requires WellFormed(g) && OnBoard(x, y) && OnBoard(k.x, k.y)
  {
    g[y][x] != 0 && PieceColor(g[y][x]) == Some(attacker) && BasicValid(g, Move(x, y, k.x, k.y), attacker)
  }

  /** The opposing general of c stands on the file of k with nothing between them. */
  predicate GeneralsFace(g: Grid, c: Color, k: Pos)
    requires WellFormed(g) && OnBoard(k.x, k.y)
  {
    var okp := Locate(g, GeneralOf(Opponent(c)));
    okp.Some? && okp.value.x == k.x && Between(g, k.x, k.y, okp.value.x, okp.value.y) == 0
  }

  /**
   * `isKingInCheck`: c's general is missing, or some piece of the other side
   * may move onto it, or the two generals face each other on an open file.
   */
  predicate InCheck(g: Grid, c: Color)
    requires WellFormed(g)
  {
    var kp := Locate(g, GeneralOf(c));
    || kp.None?
    || (exists y, x :: 0 <= y < Height && 0 <= x < Width && Attacks(g, Opponent(c), x, y, kp.value))
    || GeneralsFace(g, c, kp.value)
  }

  /**
   * The flying-general rule works both ways: when c's general faces the
   * opposing general on an open file, both sides are in check.
   */
  lemma FacingGeneralsCheckBoth(g: Grid, c: Color)
    requires WellFormed(g)
    requires Locate(g, GeneralOf(c)).Some? && GeneralsFace(g, c, Locate(g, GeneralOf(c)).value)
    ensures InCheck(g, c) && InCheck(g, Opponent(c))
  {
    var k := Locate(g, GeneralOf(c)).value;
    var o := Locate(g, GeneralOf(Opponent(c))).value;
    assert Opponent(Opponent(c)) == c;
    BetweenSymmetric(g, k.x, k.y, o.x, o.y);
    assert GeneralsFace(g, Opponent(c), o);
  }

  /** `isValidMove` in full mode: valid as above, and the mover's own general is not in check afterwards. */
  predicate Legal(g: Grid, m: Move, player: Color)
    requires WellFormed(g) && MoveOnBoard(m)
  {
    BasicValid(g, m, player) && !InCheck(Apply(g, m), player)
  }

  /** A move `getAllPossibleMoves(c)` lists: from a square holding a piece of c, and legal for c. */
  predicate Candidate(g: Grid, c: Color, m: Move) {
    && WellFormed(g) && MoveOnBoard(m)
    && g[m.fromY][m.fromX] != 0 && PieceColor(g[m.fromY][m.fromX]) == Some(c)
    && Legal(g, m, c)
  }

  /** What `isCheckmate(c)` decides: c is in check and every listed move leaves it in check. */
  ghost predicate Checkmate(g: Grid, c: Color)
    requires WellFormed(g)
  {
    InCheck(g, c) && forall m :: Candidate(g, c, m) ==> InCheck(Apply(g, m), c)
  }

  /** What `isStalemate(c)` decides: c is not in check and every listed move leaves it in check. */
  ghost predicate Stalemate(g: Grid, c: Color)
    requires WellFormed(g)
  {
    !InCheck(g, c) && forall m :: Candidate(g, c, m) ==> InCheck(Apply(g, m), c)
  }

  /**
   * Every listed move already avoids check, so checkmate is "in check with no
   * legal move" and stalemate is "not in check with no legal move"; the two
   * never hold together.
   */
  lemma MateMeansNoLegalMove(g: Grid, c: Color)
    requires WellFormed(g)
    ensures Checkmate(g, c) <==> InCheck(g, c) && forall m :: !Candidate(g, c, m)
    ensures Stalemate(g, c) <==> !InCheck(g, c) && forall m :: !Candidate(g, c, m)
    ensures !(Checkmate(g, c) && Stalemate(g, c))
  {
  }

  // ---------------------------------------------------------------------
  // Evaluation
  // ---------------------------------------------------------------------

  /**
   * `getPieceValue` for a piece on row y: chariot 900, horse 400, elephant
   * and advisor 200, general 10000, cannon 450, pawn 200 once across the
   * river and 100 before it, any other code 0.
   */
  function PieceValue(p: int, y: int): (v: int)
    ensures 1 <= p <= 14 ==> v > 0
    ensures !(1 <= p <= 14) ==> v == 0
  {
    var kind := if p > 7 then p - 7 else p;
    var isRed := p <= 7;
    if kind == 1 then 900
    else if kind == 2 then 400
    else if kind == 3 then 200
    else if kind == 4 then 200
    else if kind == 5 then 10000
    else if kind == 6 then 450
    else if kind == 7 then
      if isRed then (if y < 5 then 200 else 100)
      else (if y > 4 then 200 else 100)
    else 0
  }

  /** A cell's contribution to `evaluateBoard`: + the value of a Black piece, - that of a Red piece. */
  function Signed(p: int, y: int): (s: int)
    ensures PieceColor(p) == Some(Red) ==> s == -PieceValue(p, y)
    ensures PieceColor(p) == Some(Black) ==> s == PieceValue(p, y)
    ensures p == 0 ==> s == 0
  {
    if p == 0 then 0
    else if PieceColor(p) == Some(Red) then -PieceValue(p, y)
    else PieceValue(p, y)
  }

  /**
   * Both sides value each kind alike, and the general's 10000 outweighs all
   * the other pieces a side starts with, its pawns counted at their best.
   */
  lemma GeneralOutweighs(y: int)
    ensures forall k :: 1 <= k <= 6 ==> PieceValue(k, y) == PieceValue(k + 7, y)
    ensures PieceValue(GeneralOf(Red), y) == 10000 && PieceValue(GeneralOf(Black), y) == 10000
    ensures PieceValue(5, y) > 2 * (PieceValue(1, y) + PieceValue(2, y) + PieceValue(3, y) + PieceValue(4, y) + PieceValue(6, y)) + 5 * PieceValue(7, 0)
  {
  }

  /** A pawn is worth 200 exactly where it may also step sideways, across the river, and 100 elsewhere. */
  lemma PawnValueFollowsRiver(g: Grid, m: Move)
    requires WellFormed(g) && MoveOnBoard(m)
    requires g[m.fromY][m.fromX] == 7 || g[m.fromY][m.fromX] == 14
    requires m.toY == m.fromY && Abs(m.toX - m.fromX) == 1
    ensures PawnRule(g, m) <==> PieceValue(g[m.fromY][m.fromX], m.fromY) == 200
    ensures !PawnRule(g, m) <==> PieceValue(g[m.fromY][m.fromX], m.fromY) == 100
  {
  }

  /** The sum of a sequence, taken from the front. */
  function Sum(s: seq<int>): int {
    if |s| == 0 then 0 else Sum(s[..|s| - 1]) + s[|s| - 1]
  }

  /** Sum taken from the back equals Sum taken from the front. */
  lemma {:induction false} SumFront(s: seq<int>)
    requires |s| > 0
    ensures Sum(s) == s[0] + Sum(s[1..])
  {
    if |s| > 1 {
      SumFront(s[..|s| - 1]);
      assert s[..|s| - 1][1..] == s[1..][..|s| - 2];
    }
  }

  /** Negating every term negates the sum. */
  lemma {:induction false} SumNegated(s: seq<int>, t: seq<int>)
    requires |s| == |t| && forall i :: 0 <= i < |s| ==> t[i] == -s[i]
    ensures Sum(t) == -Sum(s)
  {
    if |s| > 0 {
      SumNegated(s[..|s| - 1], t[..|t| - 1]);
    }
  }

  /** Reversing the terms keeps the sum. */
  lemma {:induction false} SumReversed(s: seq<int>, t: seq<int>)
    requires |s| == |t| && forall i :: 0 <= i < |s| ==> t[i] == s[|s| - 1 - i]
    ensures Sum(t) == Sum(s)
  {
    if |s| > 0 {
      SumFront(s);
      SumReversed(s[1..], t[..|t| - 1]);
    }
  }

  /** The contributions of the cells of row y, left to right. */
  function RowTerms(g: Grid, y: int): (r: seq<int>)
    requires WellFormed(g) && 0 <= y < Height
    ensures |r| == Width
    ensures forall x :: 0 <= x < Width ==> r[x] == Signed(g[y][x], y)
  {
    seq(Width, x requires 0 <= x < Width => Signed(g[y][x], y))
  }

  /** The total of each row, top to bottom. */
  function RowTotals(g: Grid): (r: seq<int>)
    requires WellFormed(g)
    ensures |r| == Height
    ensures forall y :: 0 <= y < Height ==> r[y] == Sum(RowTerms(g, y))
  {
    seq(Height, y requires 0 <= y < Height => Sum(RowTerms(g, y)))
  }

  /** `evaluateBoard`: Black's material minus Red's. */
  function Eval(g: Grid): int
    requires WellFormed(g)
  {
    Sum(RowTotals(g))
  }

  /** The other side's piece of the same kind; codes outside 1..14 stay. */
  function Swap(p: int): (q: int)
    ensures 1 <= p <= 7 ==> q == p + 7
    ensures 8 <= p <= 14 ==> q == p - 7
  {
    if 1 <= p <= 7 then p + 7 else if 8 <= p <= 14 then p - 7 else p
  }

  /** The board seen from the other side: rows reversed and every piece handed to the opponent. */
  function Mirror(g: Grid): (h: Grid)
    requires WellFormed(g)
    ensures WellFormed(h)
    ensures forall y, x :: OnBoard(x, y) ==> h[y][x] == Swap(g[Height - 1 - y][x])
  {
    seq(Height, y requires 0 <= y < Height => seq(Width, x requires 0 <= x < Width => Swap(g[Height - 1 - y][x])))
  }

  /** Handing a piece to the other side and mirroring its row negates its contribution. */
  lemma SwapNegates(p: int, y: int)
    requires 0 <= y < Height
    ensures Signed(Swap(p), Height - 1 - y) == -Signed(p, y)
  {
  }

  /** A row of the mirrored board totals minus the mirrored row of the board. */
  lemma MirrorRow(g: Grid, y: int)
    requires WellFormed(g) && 0 <= y < Height
    ensures Sum(RowTerms(Mirror(g), y)) == -Sum(RowTerms(g, Height - 1 - y))
  {
    var s, t := RowTerms(g, Height - 1 - y), RowTerms(Mirror(g), y);
    forall x | 0 <= x < Width
      ensures t[x] == -s[x]
    {
      SwapNegates(g[Height - 1 - y][x], Height - 1 - y);
    }
    SumNegated(s, t);
  }

  /** The evaluation is antisymmetric: seen from the other side, the score is negated. */
  lemma EvalMirror(g: Grid)
    requires WellFormed(g)
    ensures Eval(Mirror(g)) == -Eval(g)
  {
    var a, b := RowTotals(g), RowTotals(Mirror(g));
    var r := seq(Height, y requires 0 <= y < Height => a[Height - 1 - y]);
    forall y | 0 <= y < Height
      ensures b[y] == -r[y]
    {
      MirrorRow(g, y);
    }
    SumNegated(r, b);
    SumReversed(a, r);
  }

  /** `initBoard`'s starting position. */
  function InitialBoard(): (g: Grid)
    ensures WellFormed(g)
  {
    [ [8, 9, 10, 11, 12, 11, 10, 9, 8],
      [0, 0, 0, 0, 0, 0, 0, 0, 0],
      [0, 13, 0, 0, 0, 0, 0, 13, 0],
      [14, 0, 14, 0, 14, 0, 14, 0, 14],
      [0, 0, 0, 0, 0, 0, 0, 0, 0],
      [0, 0, 0, 0, 0, 0, 0, 0, 0],
      [7, 0, 7, 0, 7, 0, 7, 0, 7],
      [0, 6, 0, 0, 0, 0, 0, 6, 0],
      [0, 0, 0, 0, 0, 0, 0, 0, 0],
      [1, 2, 3, 4, 5, 4, 3, 2, 1] ]
  }

  /** Every piece of a row handed to the other side. */
  function SwapRow(row: seq<int>): (r: seq<int>)
    ensures |r| == |row|
    ensures forall x :: 0 <= x < |row| ==> r[x] == Swap(row[x])
  {
    seq(|row|, x requires 0 <= x < |row| => Swap(row[x]))
  }

  /** The starting position is the same seen from either side. */
  lemma InitialBoardSymmetric()
    ensures Mirror(InitialBoard()) == InitialBoard()
  {
    var g := InitialBoard();
    var h := Mirror(g);
    assert SwapRow(g[9]) == g[0];
    assert SwapRow(g[0]) == g[9];
    assert SwapRow(g[7]) == g[2];
    assert SwapRow(g[2]) == g[7];
    assert SwapRow(g[6]) == g[3];
    assert SwapRow(g[3]) == g[6];
    assert SwapRow(g[1]) == g[1];
    forall y | 0 <= y < Height
      ensures h[y] == g[y]
    {
      assert h[y] == SwapRow(g[Height - 1 - y]);
    }
  }

  /** Hence the starting position is balanced: its evaluation is 0. */
  lemma InitialBoardBalanced()
    ensures Eval(InitialBoard()) == 0
  {
    InitialBoardSymmetric();
    EvalMirror(InitialBoard());
  }

  /** Red's general starts at the centre of its palace's back row. */
  lemma InitialRedGeneral()
    ensures Locate(InitialBoard(), 5) == Some(Pos(4, 9))
  {
    FirstOccurrence(InitialBoard(), 5, Some(Pos(4, 9)));
  }

  /** Black's general starts at the centre of its palace's back row. */
  lemma InitialBlackGeneral()
    ensures Locate(InitialBoard(), 12) == Some(Pos(4, 0))
  {
    FirstOccurrence(InitialBoard(), 12, Some(Pos(4, 0)));
  }

  /** Two pawns stand between the generals, so they do not face each other at the start. */
  lemma InitialGeneralsScreened()
    ensures Between(InitialBoard(), 4, 9, 4, 0) == 2
  {
  }
}
