/**
 * The board logic of gomoku/script.js: a 15x15 board of 0 (empty), 1 (black)
 * and 2 (white), the move history, the win test, undo, and the one-ply AI
 * that scores every empty cell.
 *
 * The game's `let` variables are the fields of class `Game`. The board is a
 * nested array in the source, written one cell at a time; here it is a
 * `seq<seq<int>>` field that each move reassigns with one cell changed. The
 * loops of `checkWin`, `calculateScore` and `makeAIMove` are methods proved
 * against recursive functions that say what they count.
 */
module Gomoku {
  import opened Wrappers

  const BoardSize := 15
  const Empty := 0
  const BlackStone := 1
  const WhiteStone := 2

  /** The score of a line of five, and the amount by which `calculateScore` returns early. */
  const FiveScore := 100000

  datatype GameMode = Unset | Pve | Pvp | Online

  datatype Pos = Pos(x: int, y: int)

  /** `{x, y, player}`. */
  datatype Move = Move(x: int, y: int, player: int)

  /** `board[y][x]`: a row per y, a column per x. */
  type Grid = seq<seq<int>>

  predicate WellFormed(g: Grid) {
    |g| == BoardSize && forall r :: 0 <= r < BoardSize ==> |g[r]| == BoardSize
  }

  predicate OnBoard(x: int, y: int) {
    0 <= x < BoardSize && 0 <= y < BoardSize
  }

  /** The cell (x, y), or `None` off the board. */
  function At(g: Grid, x: int, y: int): (r: Option<int>)
    requires WellFormed(g)
    ensures r.Some? <==> OnBoard(x, y)
  {
    if OnBoard(x, y) then Some(g[y][x]) else None
  }

  /** The board with cell (x, y) set to v. */
  function Place(g: Grid, x: int, y: int, v: int): (r: Grid)
    requires WellFormed(g) && OnBoard(x, y)
    ensures WellFormed(r)
  {
    g[y := g[y][x := v]]
  }

  /** Placing sets the one cell and leaves every other cell as it was. */
  lemma PlaceOneCell(g: Grid, x: int, y: int, v: int)
    requires WellFormed(g) && OnBoard(x, y)
    ensures Place(g, x, y, v)[y][x] == v
    ensures forall r, c :: 0 <= r < BoardSize && 0 <= c < BoardSize && (r != y || c != x) ==>
      Place(g, x, y, v)[r][c] == g[r][c]
  {
  }

  /** Writing a cell back to the value it had restores the board. */
  lemma PlaceBack(g: Grid, x: int, y: int, v: int)
    requires WellFormed(g) && OnBoard(x, y)
    ensures Place(Place(g, x, y, v), x, y, g[y][x]) == g
  {
    var h := Place(Place(g, x, y, v), x, y, g[y][x]);
    assert forall r :: 0 <= r < BoardSize ==> h[r] == g[r];
  }

  /** The board `initGame` builds. */
  function EmptyGrid(): (g: Grid)
    ensures WellFormed(g)
    ensures forall r, c :: 0 <= r < BoardSize && 0 <= c < BoardSize ==> g[r][c] == Empty
  {
    seq(BoardSize, _ => seq(BoardSize, _ => Empty))
  }

  /** No empty cell is left. */
  predicate Full(g: Grid)
    requires WellFormed(g)
  {
    forall r, c :: 0 <= r < BoardSize && 0 <= c < BoardSize ==> g[r][c] != Empty
  }

  /** The four directions both `checkWin` and `calculateScore` look along (and back). */
  /** Direction d, for d in 0..3, is (DX(d), DY(d)): (1, 0), (0, 1), (1, 1), (1, -1). */
  function DX(d: int): int {
    if d == 1 then 0 else 1
  }

  function DY(d: int): int {
    if d == 0 then 0 else if d == 3 then -1 else 1
  }

  /** A direction component: -1, 0 or 1. */
  predicate Unit(d: int) {
    -1 <= d <= 1
  }

  /** `k * d` for a direction component d, written without a product. */
  function Offset(k: int, d: int): int
    requires Unit(d)
  {
    if d == 1 then k else if d == -1 then -k else 0
  }

  lemma OffsetIsProduct(k: int, d: int)
    requires Unit(d)
    ensures Offset(k, d) == k * d
  {
  }

  /** The cell k steps from (x, y) along (dx, dy). */
  function CellAt(g: Grid, x: int, y: int, dx: int, dy: int, k: int): Option<int>
    requires WellFormed(g) && Unit(dx) && Unit(dy)
  {
    At(g, x + Offset(k, dx), y + Offset(k, dy))
  }

  /**
   * The cells 1, 2, 3 and 4 steps from (x, y) along (dx, dy), in the order
   * the inner loops of `checkWin` and `calculateScore` visit them; `None`
   * marks a step off the board.
   */
  function Walk(g: Grid, x: int, y: int, dx: int, dy: int): (w: seq<Option<int>>)
    requires WellFormed(g) && Unit(dx) && Unit(dy)
    ensures |w| == 4
  {
    seq(4, k requires 0 <= k < 4 => CellAt(g, x, y, dx, dy, k + 1))
  }

  /** The number of leading cells that hold p: what one inner loop of `checkWin` counts. */
  function RunOf(cells: seq<Option<int>>, p: int): (n: nat)
    ensures n <= |cells|
  {
    if cells == [] || cells[0] != Some(p) then 0 else 1 + RunOf(cells[1..], p)
  }

  /** What `RunOf` counts is a run: the first n cells hold p, and the next one, if any, does not. */
  lemma {:induction false} RunOfIsContiguous(cells: seq<Option<int>>, p: int)
    ensures forall k :: 0 <= k < RunOf(cells, p) ==> cells[k] == Some(p)
    ensures RunOf(cells, p) < |cells| ==> cells[RunOf(cells, p)] != Some(p)
  {
    if cells != [] && cells[0] == Some(p) {
      RunOfIsContiguous(cells[1..], p);
    }
  }

  /** m leading cells that hold p are all counted. */
  lemma {:induction false} RunOfCovers(cells: seq<Option<int>>, p: int, m: nat)
    requires m <= |cells| && forall k :: 0 <= k < m ==> cells[k] == Some(p)
    ensures RunOf(cells, p) >= m
  {
    if m > 0 {
      RunOfCovers(cells[1..], p, m - 1);
    }
  }

  /** `count` in `checkWin` for direction d: the cell itself and the runs on both sides. */
  function LineCount(g: Grid, x: int, y: int, d: int): nat
    requires WellFormed(g) && OnBoard(x, y) && 0 <= d < 4
  {
    var dx, dy := DX(d), DY(d);
    1 + RunOf(Walk(g, x, y, dx, dy), g[y][x]) + RunOf(Walk(g, x, y, -dx, -dy), g[y][x])
  }

  /** What `checkWin(x, y)` decides: a stone at (x, y) with a count of 5 or more in some direction. */
  predicate WinAt(g: Grid, x: int, y: int)
    requires WellFormed(g) && OnBoard(x, y)
  {
    g[y][x] != Empty && exists d :: 0 <= d < 4 && LineCount(g, x, y, d) >= 5
  }

  /** Five cells in a row along direction d, starting s steps from (x, y), all holding p. */
  predicate FiveFrom(g: Grid, x: int, y: int, d: int, s: int, p: int)
    requires WellFormed(g) && 0 <= d < 4
  {
    forall k :: s <= k < s + 5 ==> CellAt(g, x, y, DX(d), DY(d), k) == Some(p)
  }

  /** Walking back along a direction is walking forward along its opposite. */
  lemma Backwards(g: Grid, x: int, y: int, dx: int, dy: int, k: int)
    requires WellFormed(g) && Unit(dx) && Unit(dy)
    ensures CellAt(g, x, y, -dx, -dy, k) == CellAt(g, x, y, dx, dy, -k)
  {
  }

  /**
   * The run `checkWin` counts along (dx, dy) holds p at steps 1 up to its
   * length, and the step after it, within four, does not hold p.
   */
  lemma RunIsContiguous(g: Grid, x: int, y: int, dx: int, dy: int, p: int)
    requires WellFormed(g) && Unit(dx) && Unit(dy)
    ensures var n := RunOf(Walk(g, x, y, dx, dy), p);
      && (forall k :: 1 <= k <= n ==> CellAt(g, x, y, dx, dy, k) == Some(p))
      && (n < 4 ==> CellAt(g, x, y, dx, dy, n + 1) != Some(p))
  {
    var w := Walk(g, x, y, dx, dy);
    RunOfIsContiguous(w, p);
    forall k | 1 <= k <= RunOf(w, p)
      ensures CellAt(g, x, y, dx, dy, k) == Some(p)
    {
      assert w[k - 1] == Some(p);
    }
  }

  /** The run counted backwards along (dx, dy) holds p at steps -1 down to minus its length. */
  lemma RunBehind(g: Grid, x: int, y: int, dx: int, dy: int, p: int)
    requires WellFormed(g) && Unit(dx) && Unit(dy)
    ensures forall k :: -(RunOf(Walk(g, x, y, -dx, -dy), p) as int) <= k < 0 ==> CellAt(g, x, y, dx, dy, k) == Some(p)
  {
    var ex, ey := -dx, -dy;
    RunIsContiguous(g, x, y, ex, ey, p);
    forall k | -(RunOf(Walk(g, x, y, ex, ey), p) as int) <= k < 0
      ensures CellAt(g, x, y, dx, dy, k) == Some(p)
    {
      Backwards(g, x, y, dx, dy, -k);
    }
  }

  /** Runs of a and c cells on either side of a cell holding p, with a + c >= 4, contain five in a row. */
  lemma JoinRuns(g: Grid, x: int, y: int, dx: int, dy: int, p: int, a: int, c: int)
    requires WellFormed(g) && Unit(dx) && Unit(dy) && a >= 0 && c >= 0 && a + c >= 4
    requires CellAt(g, x, y, dx, dy, 0) == Some(p)
    requires forall k :: 1 <= k <= a ==> CellAt(g, x, y, dx, dy, k) == Some(p)
    requires forall k :: -c <= k < 0 ==> CellAt(g, x, y, dx, dy, k) == Some(p)
    ensures forall k :: -c <= k < -c + 5 ==> CellAt(g, x, y, dx, dy, k) == Some(p)
  {
  }

  /** Along one direction: a count of five or more is five cells holding p, starting at most four steps back. */
  lemma FiveAlong(g: Grid, x: int, y: int, dx: int, dy: int, p: int) returns (s: int)
    requires WellFormed(g) && OnBoard(x, y) && Unit(dx) && Unit(dy) && g[y][x] == p
    requires 1 + RunOf(Walk(g, x, y, dx, dy), p) + RunOf(Walk(g, x, y, -dx, -dy), p) >= 5
    ensures -4 <= s <= 0 && forall k :: s <= k < s + 5 ==> CellAt(g, x, y, dx, dy, k) == Some(p)
  {
    var a, c := RunOf(Walk(g, x, y, dx, dy), p), RunOf(Walk(g, x, y, -dx, -dy), p);
    RunIsContiguous(g, x, y, dx, dy, p);
    RunBehind(g, x, y, dx, dy, p);
    assert CellAt(g, x, y, dx, dy, 0) == Some(p);
    JoinRuns(g, x, y, dx, dy, p, a, c);
    s := -(c as int);
  }

  /** A win found by `checkWin` is five stones in a row through (x, y). */
  lemma WinIsFiveInARow(g: Grid, x: int, y: int)
    requires WellFormed(g) && OnBoard(x, y) && WinAt(g, x, y)
    ensures exists d, s :: 0 <= d < 4 && -4 <= s <= 0 && FiveFrom(g, x, y, d, s, g[y][x])
  {
    var d :| 0 <= d < 4 && LineCount(g, x, y, d) >= 5;
    var s := FiveAlong(g, x, y, DX(d), DY(d), g[y][x]);
    assert FiveFrom(g, x, y, d, s, g[y][x]);
  }

  /** Five stones in a row through (x, y) are a win for `checkWin`. */
  lemma FiveInARowIsWin(g: Grid, x: int, y: int, d: int, s: int)
    requires WellFormed(g) && OnBoard(x, y) && g[y][x] != Empty
    requires 0 <= d < 4 && -4 <= s <= 0 && FiveFrom(g, x, y, d, s, g[y][x])
    ensures WinAt(g, x, y)
  {
    var p := g[y][x];
    var dx, dy := DX(d), DY(d);
    var ex, ey := -dx, -dy;
    var ahead, behind := Walk(g, x, y, dx, dy), Walk(g, x, y, ex, ey);
    forall k | 0 <= k < s + 4
      ensures ahead[k] == Some(p)
    {
      assert CellAt(g, x, y, dx, dy, k + 1) == Some(p);
    }
    RunOfCovers(ahead, p, s + 4);
    forall k | 0 <= k < -s
      ensures behind[k] == Some(p)
    {
      Backwards(g, x, y, dx, dy, k + 1);
      assert CellAt(g, x, y, dx, dy, -(k + 1)) == Some(p);
    }
    RunOfCovers(behind, p, -s);
    assert LineCount(g, x, y, d) >= 5;
  }

  /**
   * The stones of `player` that one inner loop of `calculateScore` counts
   * along the cells: a step off the board is skipped, and the loop stops at
   * the first empty cell or opposing stone.
   */
  function Stones(cells: seq<Option<int>>, player: int): (n: nat)
    ensures n <= |cells|
  {
    if cells == [] then 0
    else if cells[0] == Some(player) then 1 + Stones(cells[1..], player)
    else if cells[0] == None then Stones(cells[1..], player)
    else 0
  }

  /** 1 when that loop stops at an empty cell (an open end), else 0. */
  function OpenEnd(cells: seq<Option<int>>, player: int): (e: nat)
    ensures e <= 1
  {
    if cells == [] then 0
    else if cells[0] == Some(player) || cells[0] == None then OpenEnd(cells[1..], player)
    else if cells[0] == Some(Empty) then 1
    else 0
  }

  /** `count` and `openEnds` of `calculateScore` for direction d. */
  function LineScan(g: Grid, x: int, y: int, d: int, player: int): (r: (nat, nat))
    requires WellFormed(g) && 0 <= d < 4
    ensures 1 <= r.0 <= 9 && r.1 <= 2
  {
    var dx, dy := DX(d), DY(d);
    var ahead, behind := Walk(g, x, y, dx, dy), Walk(g, x, y, -dx, -dy);
    (1 + Stones(ahead, player) + Stones(behind, player), OpenEnd(ahead, player) + OpenEnd(behind, player))
  }

  /** The points a direction with `count` stones and `openEnds` open ends is worth, short of five. */
  function Weight(count: int, openEnds: int): (w: int)
    ensures 0 <= w <= 50000
    ensures w == 0 <==> !(2 <= count <= 4 && 1 <= openEnds <= 2) && !(count == 1 && openEnds == 2)
  {
    if count == 4 && openEnds == 2 then 50000
    else if count == 4 && openEnds == 1 then 1000
    else if count == 3 && openEnds == 2 then 500
    else if count == 3 && openEnds == 1 then 100
    else if count == 2 && openEnds == 2 then 50
    else if count == 2 && openEnds == 1 then 10
    else if count == 1 && openEnds == 2 then 1
    else 0
  }

  /** A longer line with the same open ends is never worth less, up to four. */
  lemma WeightMonotone(c1: int, c2: int, openEnds: int)
    requires 1 <= c1 <= c2 <= 4 && 0 <= openEnds <= 2
    ensures Weight(c1, openEnds) <= Weight(c2, openEnds)
  {
  }

  /** Some direction reaches five for `player`. */
  predicate AnyFive(g: Grid, x: int, y: int, player: int)
    requires WellFormed(g)
  {
    exists d :: 0 <= d < 4 && LineScan(g, x, y, d, player).0 >= 5
  }

  /** The weights of directions 0..k-1 added up. */
  function WeightSum(g: Grid, x: int, y: int, player: int, k: int): (s: int)
    requires WellFormed(g) && 0 <= k <= 4
    ensures 0 <= s <= 50000 * k
  {
    if k == 0 then 0
    else
      var line := LineScan(g, x, y, k - 1, player);
      WeightSum(g, x, y, player, k - 1) + Weight(line.0, line.1)
  }

  /** What `calculateScore(x, y, player)` returns. */
  function Score(g: Grid, x: int, y: int, player: int): (s: int)
    requires WellFormed(g)
    ensures AnyFive(g, x, y, player) ==> s == FiveScore
    ensures !AnyFive(g, x, y, player) ==> 0 <= s <= 2 * FiveScore
  {
    if AnyFive(g, x, y, player) then FiveScore else WeightSum(g, x, y, player, 4)
  }

  /** Once a walk leaves the board it stays off it. */
  predicate StaysOff(cells: seq<Option<int>>) {
    forall i, j :: 0 <= i <= j < |cells| && cells[i].None? ==> cells[j].None?
  }

  /** A walk from a cell on the board, once off the board, stays off. */
  lemma WalkStaysOff(g: Grid, x: int, y: int, dx: int, dy: int)
    requires WellFormed(g) && OnBoard(x, y) && Unit(dx) && Unit(dy)
    ensures StaysOff(Walk(g, x, y, dx, dy))
  {
    var w := Walk(g, x, y, dx, dy);
    forall i, j | 0 <= i <= j < 4 && w[i].None?
      ensures w[j].None?
    {
      assert !OnBoard(x + Offset(i + 1, dx), y + Offset(i + 1, dy));
    }
  }

  /** Along cells that stay off the board once off, skipping off-board cells changes nothing: the stones are the run. */
  lemma {:induction false} StonesIsRun(cells: seq<Option<int>>, player: int)
    requires StaysOff(cells)
    ensures Stones(cells, player) == RunOf(cells, player)
  {
    if cells != [] {
      var rest := cells[1..];
      assert StaysOff(rest) by {
        forall i, j | 0 <= i <= j < |rest| && rest[i].None?
          ensures rest[j].None?
        {
          assert cells[i + 1].None?;
        }
      }
      StonesIsRun(rest, player);
      if cells[0].None? && rest != [] {
        assert rest[0] == cells[1];
      }
    }
  }

  /** Playing at (x, y) changes none of the cells a walk from (x, y) visits. */
  lemma PlaceKeepsWalk(g: Grid, x: int, y: int, dx: int, dy: int, v: int)
    requires WellFormed(g) && OnBoard(x, y) && Unit(dx) && Unit(dy) && (dx != 0 || dy != 0)
    ensures Walk(Place(g, x, y, v), x, y, dx, dy) == Walk(g, x, y, dx, dy)
  {
    var h := Place(g, x, y, v);
    PlaceOneCell(g, x, y, v);
    forall k | 0 <= k < 4
      ensures Walk(h, x, y, dx, dy)[k] == Walk(g, x, y, dx, dy)[k]
    {
      var nx, ny := x + Offset(k + 1, dx), y + Offset(k + 1, dy);
      assert nx != x || ny != y;
    }
  }

  /**
   * `calculateScore` and `checkWin` agree: on an empty cell, `player` scores
   * a five there exactly when playing there would win.
   */
  lemma FiveIsWin(g: Grid, x: int, y: int, player: int)
    requires WellFormed(g) && OnBoard(x, y) && g[y][x] == Empty && player != Empty
    ensures AnyFive(g, x, y, player) <==> WinAt(Place(g, x, y, player), x, y)
    ensures WinAt(Place(g, x, y, player), x, y) ==> Score(g, x, y, player) == FiveScore
  {
    LineScanIsCount(g, x, y, 0, player);
    LineScanIsCount(g, x, y, 1, player);
    LineScanIsCount(g, x, y, 2, player);
    LineScanIsCount(g, x, y, 3, player);
  }

  /** Direction by direction, `calculateScore`'s count is `checkWin`'s count after the move. */
  lemma LineScanIsCount(g: Grid, x: int, y: int, d: int, player: int)
    requires WellFormed(g) && OnBoard(x, y) && g[y][x] == Empty && player != Empty && 0 <= d < 4
    ensures LineScan(g, x, y, d, player).0 == LineCount(Place(g, x, y, player), x, y, d)
  {
    var h := Place(g, x, y, player);
    assert h[y][x] == player;
    var dx, dy := DX(d), DY(d);
    var ex, ey := -dx, -dy;
    PlaceKeepsWalk(g, x, y, dx, dy, player);
    PlaceKeepsWalk(g, x, y, ex, ey, player);
    WalkStaysOff(g, x, y, dx, dy);
    WalkStaysOff(g, x, y, ex, ey);
    StonesIsRun(Walk(g, x, y, dx, dy), player);
    StonesIsRun(Walk(g, x, y, ex, ey), player);
  }

  /** `makeAIMove`'s value of a cell: its score for white plus its score for black. */
  function AiScore(g: Grid, x: int, y: int): int
    requires WellFormed(g)
  {
    Score(g, x, y, WhiteStone) + Score(g, x, y, BlackStone)
  }

  /** (r, c) comes before (y, x) in row-major order. */
  predicate Before(r: int, c: int, y: int, x: int) {
    r < y || (r == y && c < x)
  }

  /** `AiScore` of every cell, row by row. */
  function Values(g: Grid): (v: seq<seq<int>>)
    requires WellFormed(g)
  {
    seq(BoardSize, r => seq(BoardSize, c => AiScore(g, c, r)))
  }

  /** A table of one value per cell. */
  predicate Table(v: seq<seq<int>>) {
    |v| == BoardSize && forall r :: 0 <= r < BoardSize ==> |v[r]| == BoardSize
  }

  /** (x, y) is the first empty cell, in row-major order, of maximal value in v. */
  predicate IsBestIn(g: Grid, v: seq<seq<int>>, x: int, y: int)
    requires WellFormed(g) && Table(v)
  {
    && OnBoard(x, y) && g[y][x] == Empty
    && (forall r, c :: 0 <= r < BoardSize && 0 <= c < BoardSize && g[r][c] == Empty ==> v[r][c] <= v[y][x])
    && (forall r, c :: 0 <= r < BoardSize && 0 <= c < BoardSize && g[r][c] == Empty && Before(r, c, y, x) ==> v[r][c] < v[y][x])
  }

  /** (x, y) is the cell `makeAIMove` picks: empty, of maximal value, and the first such in row-major order. */
  predicate IsBest(g: Grid, x: int, y: int)
    requires WellFormed(g)
  {
    IsBestIn(g, Values(g), x, y)
  }

  /**
   * The loop invariant of the argmax: `best` is the best of the cells of g
   * before (y, x) by the values in v, and `bestScore` is its value.
   */
  predicate BestSoFar(g: Grid, v: seq<seq<int>>, best: Option<Pos>, bestScore: int, y: int, x: int)
    requires WellFormed(g) && Table(v)
  {
    && (best.None? ==> forall r, c :: 0 <= r < BoardSize && 0 <= c < BoardSize && Before(r, c, y, x) ==> g[r][c] != Empty)
    && (best.Some? ==>
      var b := best.value;
      && OnBoard(b.x, b.y) && Before(b.y, b.x, y, x) && g[b.y][b.x] == Empty
      && bestScore == v[b.y][b.x]
      && (forall r, c :: 0 <= r < BoardSize && 0 <= c < BoardSize && Before(r, c, y, x) && g[r][c] == Empty ==>
            v[r][c] <= bestScore)
      && (forall r, c :: 0 <= r < BoardSize && 0 <= c < BoardSize && Before(r, c, b.y, b.x) && g[r][c] == Empty ==>
            v[r][c] < bestScore))
  }

  /** A cell that is taken, or no better than the best so far, leaves the best as it is. */
  lemma KeepBest(g: Grid, v: seq<seq<int>>, best: Option<Pos>, bestScore: int, y: int, x: int)
    requires WellFormed(g) && Table(v) && OnBoard(x, y)
    requires BestSoFar(g, v, best, bestScore, y, x)
    requires g[y][x] != Empty || (best.Some? && v[y][x] <= bestScore)
    ensures BestSoFar(g, v, best, bestScore, y, x + 1)
  {
  }

  /** An empty cell better than the best so far, or the first empty cell, becomes the best. */
  lemma TakeBest(g: Grid, v: seq<seq<int>>, best: Option<Pos>, bestScore: int, y: int, x: int)
    requires WellFormed(g) && Table(v) && OnBoard(x, y)
    requires BestSoFar(g, v, best, bestScore, y, x)
    requires g[y][x] == Empty && (best.None? || v[y][x] > bestScore)
    ensures BestSoFar(g, v, Some(Pos(x, y)), v[y][x], y, x + 1)
  {
  }

  /** There is only one best cell. */
  lemma BestIsUnique(g: Grid, x1: int, y1: int, x2: int, y2: int)
    requires WellFormed(g) && IsBest(g, x1, y1) && IsBest(g, x2, y2)
    ensures x1 == x2 && y1 == y2
  {
    var v := Values(g);
    var s1, s2 := v[y1][x1], v[y2][x2];
    assert s1 <= s2 && s2 <= s1;
  }

  /** The position of the last move, which `lastMove` shows. */
  function LastPos(history: seq<Move>): (r: Option<Pos>)
    ensures r.None? <==> history == []
    ensures r.Some? ==> r.value == Pos(history[|history| - 1].x, history[|history| - 1].y)
  {
    if history == [] then None else Some(Pos(history[|history| - 1].x, history[|history| - 1].y))
  }

  /** The board with the cells of `moves` emptied, the last move first. */
  function ClearMoves(g: Grid, moves: seq<Move>): (r: Grid)
    requires WellFormed(g)
    requires forall i :: 0 <= i < |moves| ==> OnBoard(moves[i].x, moves[i].y)
    ensures WellFormed(r)
  {
    if moves == [] then g
    else Place(ClearMoves(g, moves[1..]), moves[0].x, moves[0].y, Empty)
  }

  /** Exactly the cells of the moves taken back are emptied. */
  lemma {:induction false} ClearMovesCells(g: Grid, moves: seq<Move>, row: int, c: int)
    requires WellFormed(g)
    requires forall i :: 0 <= i < |moves| ==> OnBoard(moves[i].x, moves[i].y)
    requires 0 <= row < BoardSize && 0 <= c < BoardSize
    ensures ClearMoves(g, moves)[row][c] ==
      if exists i :: 0 <= i < |moves| && moves[i].x == c && moves[i].y == row then Empty else g[row][c]
  {
    if moves != [] {
      ClearMovesCells(g, moves[1..], row, c);
      PlaceOneCell(ClearMoves(g, moves[1..]), moves[0].x, moves[0].y, Empty);
      if exists i :: 0 <= i < |moves[1..]| && moves[1..][i].x == c && moves[1..][i].y == row {
        var i :| 0 <= i < |moves[1..]| && moves[1..][i].x == c && moves[1..][i].y == row;
        assert moves[i + 1] == moves[1..][i];
      } else if !(moves[0].x == c && moves[0].y == row) {
        forall i | 0 <= i < |moves|
          ensures !(moves[i].x == c && moves[i].y == row)
        {
          if i > 0 {
            assert moves[i] == moves[1..][i - 1];
          }
        }
      }
    }
  }

  /** How many moves `undoMove` takes back. */
  function UndoSteps(mode: GameMode, historyLength: int): (steps: int)
    ensures steps == 1 || steps == 2
    ensures steps == 2 <==> mode == Pve && historyLength > 1
  {
    if mode == Pve && historyLength > 1 then 2 else 1
  }

  /** The player who moves after `player`. */
  function Other(player: int): (q: int)
    ensures player == BlackStone ==> q == WhiteStone
    ensures player != BlackStone ==> q == BlackStone
  {
    if player == BlackStone then WhiteStone else BlackStone
  }

  class Game {
    var board: Grid
    var moveHistory: seq<Move>
    var currentPlayer: int
    var isGameOver: bool
    var gameMode: GameMode
    var lastMove: Option<Pos>
    /** This side's colour in an online game: 1 for the host, 2 for the joiner. */
    var playerColor: int

    /** The board is 15x15, every recorded move is on it, and `lastMove` shows the last of them. */
    ghost predicate Valid()
      reads this
    {
      && WellFormed(board)
      && (forall i :: 0 <= i < |moveHistory| ==> OnBoard(moveHistory[i].x, moveHistory[i].y))
      && lastMove == LastPos(moveHistory)
    }

    /** `startGame(mode)` for a local game: set the mode, then `initGame`. */
    constructor (mode: GameMode)
      requires mode != Online
      ensures Valid()
      ensures gameMode == mode && playerColor == BlackStone
      ensures board == EmptyGrid() && moveHistory == [] && currentPlayer == BlackStone && !isGameOver
    {
      gameMode := mode;
      playerColor := BlackStone;
      board := EmptyGrid();
      moveHistory := [];
      currentPlayer := BlackStone;
      isGameOver := false;
      lastMove := None;
    }

    /** `initGame`: an empty board, no history, black to move. */
    method InitGame()
      modifies this
      ensures Valid()
      ensures board == EmptyGrid() && moveHistory == [] && currentPlayer == BlackStone
      ensures !isGameOver && lastMove == None
      ensures gameMode == old(gameMode) && playerColor == old(playerColor)
    {
      board := EmptyGrid();
      moveHistory := [];
      currentPlayer := BlackStone;
      isGameOver := false;
      lastMove := None;
    }

    /** `checkWin(x, y)`. */
    method CheckWin(x: int, y: int) returns (win: bool)
      requires Valid() && OnBoard(x, y)
      ensures win == WinAt(board, x, y)
    {
      var p := board[y][x];
      if p == Empty {
        return false;
      }
      for d := 0 to 4
        invariant forall j :: 0 <= j < d ==> LineCount(board, x, y, j) < 5
      {
        var dx, dy := DX(d), DY(d);
        var count := 1;
        var ahead := CountRun(x, y, dx, dy, p);
        count := count + ahead;
        var behind := CountRun(x, y, -dx, -dy, p);
        count := count + behind;
        assert count == LineCount(board, x, y, d);
        if count >= 5 {
          return true;
        }
      }
      return false;
    }

    /**
     * One inner loop of `checkWin`: step along (dx, dy) up to four times,
     * counting stones of p until a cell is off the board or not p. The
     * backward loop, which steps by `x - i * dx`, is this loop along (-dx, -dy).
     */
    method CountRun(x: int, y: int, dx: int, dy: int, p: int) returns (n: int)
      requires Valid() && Unit(dx) && Unit(dy)
      ensures n == RunOf(Walk(board, x, y, dx, dy), p)
    {
      ghost var cells := Walk(board, x, y, dx, dy);
      n := 0;
      var i := 1;
      while i < 5
        invariant 1 <= i <= 5 && n == i - 1
        invariant RunOf(cells, p) == n + RunOf(cells[i - 1..], p)
      {
        var nx, ny := x + i * dx, y + i * dy;
        OffsetIsProduct(i, dx);
        OffsetIsProduct(i, dy);
        assert cells[i - 1] == At(board, nx, ny);
        assert cells[i - 1..][1..] == cells[i..];
        if 0 <= nx < BoardSize && 0 <= ny < BoardSize && board[ny][nx] == p {
          n := n + 1;
        } else {
          break;
        }
        i := i + 1;
      }
    }

    /** `calculateScore(x, y, player)`. */
    method CalculateScore(x: int, y: int, player: int) returns (score: int)
      requires Valid()
      ensures score == Score(board, x, y, player)
    {
      score := 0;
      for d := 0 to 4
        invariant score == WeightSum(board, x, y, player, d)
        invariant forall j :: 0 <= j < d ==> LineScan(board, x, y, j, player).0 < 5
      {
        var count, openEnds := DirectionScan(x, y, d, player);
        if count >= 5 {
          assert AnyFive(board, x, y, player);
          return FiveScore;
        }
        var points := Points(count, openEnds);
        score := score + points;
      }
      assert !AnyFive(board, x, y, player);
    }

    /** The two inner loops of `calculateScore` for direction d: `count` and `openEnds`. */
    method DirectionScan(x: int, y: int, d: int, player: int) returns (count: int, openEnds: int)
      requires Valid() && 0 <= d < 4
      ensures (count, openEnds) == LineScan(board, x, y, d, player)
    {
      var dx, dy := DX(d), DY(d);
      count, openEnds := 1, 0;
      var stones, open := ScanLine(x, y, dx, dy, player);
      count, openEnds := count + stones, openEnds + open;
      stones, open := ScanLine(x, y, -dx, -dy, player);
      count, openEnds := count + stones, openEnds + open;
    }

    /** The seven pattern tests at the end of each direction in `calculateScore`. */
    method Points(count: int, openEnds: int) returns (w: int)
      ensures w == Weight(count, openEnds)
    {
      w := 0;
      if count == 4 && openEnds == 2 { w := w + 50000; }
      if count == 4 && openEnds == 1 { w := w + 1000; }
      if count == 3 && openEnds == 2 { w := w + 500; }
      if count == 3 && openEnds == 1 { w := w + 100; }
      if count == 2 && openEnds == 2 { w := w + 50; }
      if count == 2 && openEnds == 1 { w := w + 10; }
      if count == 1 && openEnds == 2 { w := w + 1; }
    }

    /**
     * One inner loop of `calculateScore`: step along (dx, dy) up to four
     * times, counting stones of `player`, skipping cells off the board, and
     * stopping at an empty cell (an open end) or an opponent's stone. The
     * backward loop is this loop along (-dx, -dy).
     */
    method ScanLine(x: int, y: int, dx: int, dy: int, player: int) returns (stones: int, open: int)
      requires Valid() && Unit(dx) && Unit(dy)
      ensures stones == Stones(Walk(board, x, y, dx, dy), player)
      ensures open == OpenEnd(Walk(board, x, y, dx, dy), player)
    {
      ghost var cells := Walk(board, x, y, dx, dy);
      stones, open := 0, 0;
      var i := 1;
      while i < 5
        invariant 1 <= i <= 5
        invariant stones + Stones(cells[i - 1..], player) == Stones(cells, player)
        invariant open + OpenEnd(cells[i - 1..], player) == OpenEnd(cells, player)
      {
        var nx, ny := x + i * dx, y + i * dy;
        OffsetIsProduct(i, dx);
        OffsetIsProduct(i, dy);
        assert cells[i - 1] == At(board, nx, ny);
        assert cells[i - 1..][1..] == cells[i..];
        if 0 <= nx < BoardSize && 0 <= ny < BoardSize {
          if board[ny][nx] == player {
            stones := stones + 1;
          } else if board[ny][nx] == Empty {
            open := open + 1;
            break;
          } else {
            break;
          }
        }
        i := i + 1;
      }
    }

    /** The argmax loop of `makeAIMove`: the first empty cell, in row-major order, of maximal value. */
    method BestCell() returns (best: Option<Pos>)
      requires Valid()
      ensures best.None? <==> Full(board)
      ensures best.Some? ==> IsBest(board, best.value.x, best.value.y)
    {
      ghost var v := Values(board);
      best := None;
      var bestScore := 0; // stands for -Infinity while best is None
      for y := 0 to BoardSize
        invariant BestSoFar(board, v, best, bestScore, y, 0)
      {
        best, bestScore := BestInRow(y, v, best, bestScore);
      }
      assert forall r, c :: 0 <= r < BoardSize && 0 <= c < BoardSize ==> Before(r, c, BoardSize, 0);
    }

    /** The inner loop of the argmax, over row y; v holds the values of the cells. */
    method BestInRow(y: int, ghost v: seq<seq<int>>, best0: Option<Pos>, score0: int) returns (best: Option<Pos>, bestScore: int)
      requires Valid() && 0 <= y < BoardSize && Table(v)
      requires forall c :: 0 <= c < BoardSize ==> v[y][c] == AiScore(board, c, y)
      requires BestSoFar(board, v, best0, score0, y, 0)
      ensures BestSoFar(board, v, best, bestScore, y + 1, 0)
    {
      best, bestScore := best0, score0;
      for x := 0 to BoardSize
        invariant BestSoFar(board, v, best, bestScore, y, x)
      {
        best, bestScore := ConsiderCell(x, y, v, best, bestScore);
      }
      assert forall r, c :: 0 <= c < BoardSize ==> (Before(r, c, y + 1, 0) <==> Before(r, c, y, BoardSize));
    }

    /** The body of the argmax loop at (x, y): an empty cell of higher value, or the first empty cell, becomes the best. */
    method ConsiderCell(x: int, y: int, ghost v: seq<seq<int>>, best0: Option<Pos>, score0: int) returns (best: Option<Pos>, bestScore: int)
      requires Valid() && OnBoard(x, y) && Table(v) && v[y][x] == AiScore(board, x, y)
      requires BestSoFar(board, v, best0, score0, y, x)
      ensures BestSoFar(board, v, best, bestScore, y, x + 1)
    {
      best, bestScore := best0, score0;
      if board[y][x] == Empty {
        var score := CellValue(x, y);
        if best.None? || score > bestScore {
          TakeBest(board, v, best, bestScore, y, x);
          bestScore := score;
          best := Some(Pos(x, y));
        } else {
          KeepBest(board, v, best, bestScore, y, x);
        }
      } else {
        KeepBest(board, v, best, bestScore, y, x);
      }
    }

    /** `calculateScore(x, y, 2) + calculateScore(x, y, 1)`, the value `makeAIMove` gives the cell (x, y). */
    method CellValue(x: int, y: int) returns (score: int)
      requires Valid()
      ensures score == AiScore(board, x, y)
    {
      var white := CalculateScore(x, y, WhiteStone);
      var black := CalculateScore(x, y, BlackStone);
      score := white + black;
    }

    /**
     * `executeMove(move)`. A y off the board makes the source throw, so the
     * caller must rule it out; an x off the board reads `undefined`, which is
     * not 0, and the move is refused.
     */
    method ExecuteMove(move: Move) returns (placed: bool)
      requires Valid() && 0 <= move.y < BoardSize
      modifies this
      ensures Valid()
      ensures placed <==> 0 <= move.x < BoardSize && old(board)[move.y][move.x] == Empty
      ensures !placed ==> unchanged(this)
      ensures placed ==>
        && board == Place(old(board), move.x, move.y, move.player)
        && moveHistory == old(moveHistory) + [move]
        && lastMove == Some(Pos(move.x, move.y))
        && isGameOver == (old(isGameOver) || WinAt(board, move.x, move.y))
        && currentPlayer == (if WinAt(board, move.x, move.y) then old(currentPlayer) else Other(move.player))
        && gameMode == old(gameMode) && playerColor == old(playerColor)
    {
      if !(0 <= move.x < BoardSize) || board[move.y][move.x] != Empty {
        return false;
      }
      board := Place(board, move.x, move.y, move.player);
      moveHistory := moveHistory + [move];
      lastMove := Some(Pos(move.x, move.y));
      var won := CheckWin(move.x, move.y);
      if won {
        isGameOver := true;
      } else {
        currentPlayer := if move.player == BlackStone then WhiteStone else BlackStone;
      }
      placed := true;
    }

    /**
     * `undoMove`: clear the game-over flag, then take back two moves in a
     * game against the AI when there are two, else one, and give the turn to
     * the player of the last move taken back.
     */
    method UndoMove()
      requires Valid()
      modifies this
      ensures Valid()
      ensures !isGameOver && gameMode == old(gameMode) && playerColor == old(playerColor)
      ensures |old(moveHistory)| < UndoSteps(gameMode, |old(moveHistory)|) ==>
        board == old(board) && moveHistory == old(moveHistory) && currentPlayer == old(currentPlayer)
      ensures |old(moveHistory)| >= UndoSteps(gameMode, |old(moveHistory)|) ==>
        var keep := |old(moveHistory)| - UndoSteps(gameMode, |old(moveHistory)|);
        && moveHistory == old(moveHistory)[..keep]
        && board == ClearMoves(old(board), old(moveHistory)[keep..])
        && currentPlayer == old(moveHistory)[keep].player
    {
      if isGameOver {
        isGameOver := false;
      }
      var steps := if gameMode == Pve && |moveHistory| > 1 then 2 else 1;
      if |moveHistory| < steps {
        return;
      }
      TakeBack(steps);
      lastMove := if |moveHistory| > 0 then Some(Pos(moveHistory[|moveHistory| - 1].x, moveHistory[|moveHistory| - 1].y)) else None;
    }

    /** The loop of `undoMove`: take back the last `steps` moves, one at a time, each giving its player the turn. */
    method TakeBack(steps: nat)
      requires WellFormed(board) && steps <= |moveHistory|
      requires forall j :: 0 <= j < |moveHistory| ==> OnBoard(moveHistory[j].x, moveHistory[j].y)
      modifies this
      ensures var keep := |old(moveHistory)| - steps;
        && moveHistory == old(moveHistory)[..keep]
        && board == ClearMoves(old(board), old(moveHistory)[keep..])
        && (steps > 0 ==> currentPlayer == old(moveHistory)[keep].player)
        && (steps == 0 ==> currentPlayer == old(currentPlayer))
      ensures WellFormed(board)
      ensures isGameOver == old(isGameOver) && lastMove == old(lastMove)
      ensures gameMode == old(gameMode) && playerColor == old(playerColor)
    {
      ghost var n := |moveHistory|;
      for i := 0 to steps
        invariant moveHistory == old(moveHistory)[..n - i]
        invariant board == ClearMoves(old(board), old(moveHistory)[n - i..])
        invariant i > 0 ==> currentPlayer == old(moveHistory)[n - i].player
        invariant i == 0 ==> currentPlayer == old(currentPlayer)
        invariant WellFormed(board)
        invariant isGameOver == old(isGameOver) && lastMove == old(lastMove)
        invariant gameMode == old(gameMode) && playerColor == old(playerColor)
      {
        var last := moveHistory[|moveHistory| - 1];
        moveHistory := moveHistory[..|moveHistory| - 1];
        assert old(moveHistory)[n - (i + 1)..] == [last] + old(moveHistory)[n - i..];
        board := Place(board, last.x, last.y, Empty);
        currentPlayer := last.player;
      }
    }

    /**
     * `makeAIMove`: unless the game is over, white plays the best cell.
     * The cell played is returned so that a caller can see it.
     */
    method MakeAIMove() returns (chosen: Option<Pos>)
      requires Valid()
      modifies this
      ensures Valid()
      ensures old(isGameOver) || old(Full(board)) ==> chosen.None? && unchanged(this)
      ensures !old(isGameOver) && !old(Full(board)) ==>
        && chosen.Some?
        && old(IsBest(board, chosen.value.x, chosen.value.y))
        && board == Place(old(board), chosen.value.x, chosen.value.y, WhiteStone)
        && moveHistory == old(moveHistory) + [Move(chosen.value.x, chosen.value.y, WhiteStone)]
        && isGameOver == WinAt(board, chosen.value.x, chosen.value.y)
        && currentPlayer == (if WinAt(board, chosen.value.x, chosen.value.y) then old(currentPlayer) else BlackStone)
        && gameMode == old(gameMode) && playerColor == old(playerColor)
    {
      if isGameOver {
        return None;
      }
      chosen := BestCell();
      if chosen.Some? {
        var placed := ExecuteMove(Move(chosen.value.x, chosen.value.y, WhiteStone));
      }
    }

    /** Whether `handleBoardClick` ignores clicks: the game is over, or it is not this side's turn. */
    predicate ClicksIgnored()
      reads this
    {
      || isGameOver
      || (gameMode == Pve && currentPlayer == WhiteStone)
      || (gameMode == Online && currentPlayer != playerColor)
    }

    /**
     * `handleBoardClick` once the click has been rounded to the cell (x, y):
     * the current player plays there if it is their turn and the cell is on
     * the board and empty.
     */
    method HandleBoardClick(x: int, y: int) returns (placed: bool)
      requires Valid()
      modifies this
      ensures Valid()
      ensures placed <==> !old(ClicksIgnored()) && OnBoard(x, y) && old(board)[y][x] == Empty
      ensures !placed ==> unchanged(this)
      ensures placed ==>
        && board == Place(old(board), x, y, old(currentPlayer))
        && moveHistory == old(moveHistory) + [Move(x, y, old(currentPlayer))]
        && isGameOver == WinAt(board, x, y)
        && currentPlayer == (if WinAt(board, x, y) then old(currentPlayer) else Other(old(currentPlayer)))
        && gameMode == old(gameMode) && playerColor == old(playerColor)
    {
      if ClicksIgnored() {
        return false;
      }
      if x < 0 || x >= BoardSize || y < 0 || y >= BoardSize || board[y][x] != Empty {
        return false;
      }
      placed := ExecuteMove(Move(x, y, currentPlayer));
    }

    /**
     * Outside a game against the AI, a move by the player to move followed
     * by an undo puts back the board, the history and the turn.
     */
    method MoveThenUndo(move: Move) returns (placed: bool)
      requires Valid() && gameMode != Pve && !isGameOver
      requires 0 <= move.y < BoardSize && move.player == currentPlayer
      modifies this
      ensures Valid()
      ensures board == old(board) && moveHistory == old(moveHistory)
      ensures currentPlayer == old(currentPlayer) && lastMove == old(lastMove) && !isGameOver
    {
      placed := ExecuteMove(move);
      if placed {
        UndoMove();
        PlaceBack(old(board), move.x, move.y, move.player);
        assert (old(moveHistory) + [move])[|old(moveHistory)|..] == [move];
        assert (old(moveHistory) + [move])[..|old(moveHistory)|] == old(moveHistory);
      }
    }
  }
}
