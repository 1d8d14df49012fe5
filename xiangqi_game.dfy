/**
 * The Xiangqi game state of xiangqi/script.js: the board, the move history
 * with its board snapshots, the side to move, the game-over flag and the
 * last move.
 *
 * The source's queries `isValidMove`, `isKingInCheck`, `isCheckmate` and
 * `isStalemate` try moves on the shared board and put it back afterwards, so
 * here they are methods that may modify the game and promise that nothing
 * has changed when they return. Each is proved against the rule functions of
 * XiangqiRules.
 */
module Xiangqi {
  import opened Wrappers
  import opened XiangqiRules

  /** An entry of `moveHistory`: the move, the board before it and the side that made it. */
  datatype HistoryEntry = HistoryEntry(move: Move, boardState: Grid, player: Color)

  /** `lastMove` as `undoMove` recomputes it: the move of the newest entry, if any. */
  function LastMoveOf(history: seq<HistoryEntry>): (r: Option<Move>)
    ensures r.None? <==> |history| == 0
  {
    if |history| == 0 then None else Some(history[|history| - 1].move)
  }

  /**
   * A list holding exactly the legal moves of c: every listed move leaves c
   * in check exactly when every legal move does.
   */
  lemma ListedMoves(g: Grid, c: Color, moves: seq<Move>)
    requires WellFormed(g)
    requires forall m :: m in moves <==> Candidate(g, c, m)
    ensures forall j :: 0 <= j < |moves| ==> MoveOnBoard(moves[j])
    ensures (forall j :: 0 <= j < |moves| ==> InCheck(Apply(g, moves[j]), c)) <==>
            (forall m :: Candidate(g, c, m) ==> InCheck(Apply(g, m), c))
  {
    forall j | 0 <= j < |moves|
      ensures Candidate(g, c, moves[j])
    {
      assert moves[j] in moves;
    }
    if exists m :: Candidate(g, c, m) {
      var m :| Candidate(g, c, m);
      assert m in moves;
      var j :| 0 <= j < |moves| && moves[j] == m;
      assert !InCheck(Apply(g, moves[j]), c);
    }
  }

  class Game {
    var board: Grid
    var moveHistory: seq<HistoryEntry>
    var currentPlayer: Color
    var isGameOver: bool
    var lastMove: Option<Move>

    /** The board is 10 by 9, every snapshot is too, and `lastMove` is the newest entry's move. */
    ghost predicate Valid()
      reads this
    {
      && WellFormed(board)
      && (forall i :: 0 <= i < |moveHistory| ==> WellFormed(moveHistory[i].boardState))
      && lastMove == LastMoveOf(moveHistory)
    }

    /** The state `initBoard` sets up. */
    ghost predicate Initial()
      reads this
    {
      board == InitialBoard() && currentPlayer == Red && !isGameOver && moveHistory == [] && lastMove == None
    }

    /** A new game: the state `initBoard` sets up. */
    constructor()
      ensures Valid() && Initial()
    {
      new;
      InitBoard();
    }

    /** `initBoard`: the starting position, Red to move, no history. */
    method InitBoard()
      modifies this
      ensures Valid() && Initial()
    {
      board := InitialBoard();
      currentPlayer := Red;
      isGameOver := false;
      moveHistory := [];
      lastMove := None;
    }

    /** `countPiecesBetween`. */
    method CountPiecesBetween(fromX: int, fromY: int, toX: int, toY: int) returns (count: nat)
      requires Valid() && OnBoard(fromX, fromY) && OnBoard(toX, toY)
      ensures count == Between(board, fromX, fromY, toX, toY)
    {
      count := 0;
      if fromX == toX {
        var start, end := Min(fromY, toY) + 1, Max(fromY, toY) - 1;
        var y := start;
        while y <= end
          invariant start <= y <= Max(start, end + 1)
          invariant count == ColumnCount(board, fromX, start, y)
        {
          if board[y][fromX] != 0 {
            count := count + 1;
          }
          y := y + 1;
        }
      } else if fromY == toY {
        var start, end := Min(fromX, toX) + 1, Max(fromX, toX) - 1;
        var x := start;
        while x <= end
          invariant start <= x <= Max(start, end + 1)
          invariant count == RowCount(board, fromY, start, x)
        {
          if board[fromY][x] != 0 {
            count := count + 1;
          }
          x := x + 1;
        }
      }
    }

    /** `findPiece`: the first square in row-major order holding the piece. */
    method FindPiece(pieceToFind: int) returns (pos: Option<Pos>)
      requires Valid()
      ensures pos == Locate(board, pieceToFind)
    {
      for y := 0 to Height
        invariant forall r, c :: OnBoard(c, r) && r < y ==> board[r][c] != pieceToFind
      {
        for x := 0 to Width
          invariant forall r, c :: OnBoard(c, r) && Before(r, c, y, x) ==> board[r][c] != pieceToFind
        {
          if board[y][x] == pieceToFind {
            FirstOccurrence(board, pieceToFind, Some(Pos(x, y)));
            return Some(Pos(x, y));
          }
        }
      }
      FirstOccurrence(board, pieceToFind, None);
      return None;
    }

    /**
     * `isValidMove`. With `isCheckingCheck` set it applies the piece rules
     * only; otherwise it also makes the move on the board, asks whether the
     * mover's general is then in check, and restores the board.
     */
    method IsValidMove(fromX: int, fromY: int, toX: int, toY: int, player: Color, isCheckingCheck: bool)
      returns (valid: bool)
      requires Valid() && MoveOnBoard(Move(fromX, fromY, toX, toY))
      modifies this
      decreases if isCheckingCheck then 0 else 3
      ensures unchanged(this)
      ensures isCheckingCheck ==> (valid <==> BasicValid(board, Move(fromX, fromY, toX, toY), player))
      ensures !isCheckingCheck ==> (valid <==> Legal(board, Move(fromX, fromY, toX, toY), player))
    {
      var m := Move(fromX, fromY, toX, toY);
      var piece := board[fromY][fromX];
      if piece == 0 {
        return false;
      }
      var targetPiece := board[toY][toX];
      if targetPiece != 0 && PieceColor(targetPiece) == Some(player) {
        return false;
      }
      var isValid := PieceRule(board, m);
      if !isValid {
        return false;
      }
      if !isCheckingCheck {
        var originalBoard := board;
        board := Set(board, toX, toY, piece);
        board := Set(board, fromX, fromY, 0);
        assert board == Apply(originalBoard, m);
        var selfInCheck := IsKingInCheck(player);
        board := originalBoard;
        if selfInCheck {
          return false;
        }
      }
      return true;
    }

    /** One row of `isKingInCheck`'s scan: does some piece of `attacker` in row y reach the square k? */
    method AttackerInRow(y: int, attacker: Color, k: Pos) returns (hit: bool)
      requires Valid() && 0 <= y < Height && OnBoard(k.x, k.y)
      modifies this
      decreases 1
      ensures unchanged(this)
      ensures hit <==> exists x :: 0 <= x < Width && Attacks(board, attacker, x, y, k)
    {
      for x := 0 to Width
        invariant unchanged(this)
        invariant forall c :: 0 <= c < x ==> !Attacks(board, attacker, c, y, k)
      {
        var piece := board[y][x];
        if piece != 0 && PieceColor(piece) == Some(attacker) {
          var v := IsValidMove(x, y, k.x, k.y, attacker, true);
          if v {
            assert Attacks(board, attacker, x, y, k);
            return true;
          }
        }
      }
      return false;
    }

    /** `isKingInCheck`. */
    method IsKingInCheck(kingColor: Color) returns (inCheck: bool)
      requires Valid()
      modifies this
      decreases 2
      ensures unchanged(this)
      ensures inCheck == InCheck(board, kingColor)
    {
      var kingPiece := GeneralOf(kingColor);
      var opponentColor := Opponent(kingColor);
      var kingPos := FindPiece(kingPiece);
      if kingPos.None? {
        return true;
      }
      var k := kingPos.value;
      for y := 0 to Height
        invariant unchanged(this)
        invariant forall r, c :: 0 <= r < y && 0 <= c < Width ==> !Attacks(board, opponentColor, c, r, k)
      {
        var hit := AttackerInRow(y, opponentColor, k);
        if hit {
          return true;
        }
      }
      var opponentKingPos := FindPiece(GeneralOf(opponentColor));
      if opponentKingPos.Some? && opponentKingPos.value.x == k.x {
        var between := CountPiecesBetween(k.x, k.y, opponentKingPos.value.x, opponentKingPos.value.y);
        if between == 0 {
          return true;
        }
      }
      return false;
    }

    /** The innermost loop of `getAllPossibleMoves`: the legal moves from (x, y) onto row toY. */
    method MovesToRow(x: int, y: int, toY: int, color: Color) returns (moves: seq<Move>)
      requires Valid() && OnBoard(x, y) && 0 <= toY < Height
      requires board[y][x] != 0 && PieceColor(board[y][x]) == Some(color)
      modifies this
      ensures unchanged(this)
      ensures forall m :: m in moves <==> m.fromX == x && m.fromY == y && m.toY == toY && Candidate(board, color, m)
    {
      moves := [];
      for toX := 0 to Width
        invariant unchanged(this)
        invariant forall m :: m in moves <==>
          m.fromX == x && m.fromY == y && m.toY == toY && m.toX < toX && Candidate(board, color, m)
      {
        var v := IsValidMove(x, y, toX, toY, color, false);
        if v {
          moves := moves + [Move(x, y, toX, toY)];
        }
      }
    }

    /** The two inner loops of `getAllPossibleMoves`: the legal moves from (x, y). */
    method MovesFrom(x: int, y: int, color: Color) returns (moves: seq<Move>)
      requires Valid() && OnBoard(x, y)
      requires board[y][x] != 0 && PieceColor(board[y][x]) == Some(color)
      modifies this
      ensures unchanged(this)
      ensures forall m :: m in moves <==> m.fromX == x && m.fromY == y && Candidate(board, color, m)
    {
      moves := [];
      for toY := 0 to Height
        invariant unchanged(this)
        invariant forall m :: m in moves <==> m.fromX == x && m.fromY == y && m.toY < toY && Candidate(board, color, m)
      {
        var more := MovesToRow(x, y, toY, color);
        moves := moves + more;
      }
    }

    /** The second loop of `getAllPossibleMoves`: the legal moves of the pieces of `color` in row y. */
    method MovesFromRow(y: int, color: Color) returns (moves: seq<Move>)
      requires Valid() && 0 <= y < Height
      modifies this
      ensures unchanged(this)
      ensures forall m :: m in moves <==> m.fromY == y && Candidate(board, color, m)
    {
      moves := [];
      for x := 0 to Width
        invariant unchanged(this)
        invariant forall m :: m in moves <==> m.fromY == y && m.fromX < x && Candidate(board, color, m)
      {
        if board[y][x] != 0 && PieceColor(board[y][x]) == Some(color) {
          var more := MovesFrom(x, y, color);
          moves := moves + more;
        }
      }
    }

    /** `getAllPossibleMoves`: every legal move of a piece of `color`. */
    method GetAllPossibleMoves(color: Color) returns (moves: seq<Move>)
      requires Valid()
      modifies this
      ensures unchanged(this)
      ensures forall m :: m in moves <==> Candidate(board, color, m)
    {
      moves := [];
      for y := 0 to Height
        invariant unchanged(this)
        invariant forall m :: m in moves <==> m.fromY < y && Candidate(board, color, m)
      {
        var more := MovesFromRow(y, color);
        moves := moves + more;
      }
    }

    /**
     * The body of the loops of `isCheckmate` and `isStalemate`: make the
     * move, ask whether `color`'s general is in check, then write the two
     * squares back.
     */
    method TrialLeavesInCheck(m: Move, color: Color) returns (inCheck: bool)
      requires Valid() && MoveOnBoard(m)
      modifies this
      ensures unchanged(this)
      ensures inCheck == InCheck(Apply(board, m), color)
    {
      var movingPiece := board[m.fromY][m.fromX];
      var originalPiece := board[m.toY][m.toX];
      board := Set(board, m.toX, m.toY, movingPiece);
      board := Set(board, m.fromX, m.fromY, 0);
      inCheck := IsKingInCheck(color);
      board := Set(board, m.fromX, m.fromY, movingPiece);
      board := Set(board, m.toX, m.toY, originalPiece);
      RevertRestores(old(board), m);
    }

    /**
     * The loop of `isCheckmate` and `isStalemate`: try each listed move in
     * turn and stop at the first one that leaves `color`'s general out of
     * check.
     */
    method EveryTrialInCheck(allMoves: seq<Move>, color: Color) returns (all: bool)
      requires Valid() && forall j :: 0 <= j < |allMoves| ==> MoveOnBoard(allMoves[j])
      modifies this
      ensures unchanged(this)
      ensures all <==> forall j :: 0 <= j < |allMoves| ==> InCheck(Apply(board, allMoves[j]), color)
    {
      ghost var g := board;
      for i := 0 to |allMoves|
        invariant unchanged(this) && board == g
        invariant forall j :: 0 <= j < i ==> InCheck(Apply(g, allMoves[j]), color)
      {
        var stillInCheck := TrialLeavesInCheck(allMoves[i], color);
        if !stillInCheck {
          return false;
        }
      }
      return true;
    }

    /** `isCheckmate`. */
    method IsCheckmate(kingColor: Color) returns (mate: bool)
      requires Valid()
      modifies this
      ensures unchanged(this)
      ensures mate == Checkmate(board, kingColor)
    {
      var inCheck := IsKingInCheck(kingColor);
      if !inCheck {
        return false;
      }
      var allMoves := GetAllPossibleMoves(kingColor);
      ListedMoves(board, kingColor, allMoves);
      mate := EveryTrialInCheck(allMoves, kingColor);
    }

    /** `isStalemate`. */
    method IsStalemate(color: Color) returns (stalemate: bool)
      requires Valid()
      modifies this
      ensures unchanged(this)
      ensures stalemate == Stalemate(board, color)
    {
      var inCheck := IsKingInCheck(color);
      if inCheck {
        return false;
      }
      var allMoves := GetAllPossibleMoves(color);
      ListedMoves(board, color, allMoves);
      stalemate := EveryTrialInCheck(allMoves, color);
    }

    /**
     * `executeMove`: with a piece on the source, record the move with a
     * snapshot of the board and the mover, make the move, hand the turn over,
     * and end the game if the side now to move is checkmated or stalemated.
     * With an empty source nothing happens.
     */
    method ExecuteMove(move: Move)
      requires Valid() && MoveOnBoard(move)
      modifies this
      ensures Valid()
      ensures old(board)[move.fromY][move.fromX] == 0 ==> unchanged(this)
      ensures old(board)[move.fromY][move.fromX] != 0 ==>
        && moveHistory == old(moveHistory) + [HistoryEntry(move, old(board), old(currentPlayer))]
        && board == Apply(old(board), move)
        && lastMove == Some(move)
        && currentPlayer == Opponent(old(currentPlayer))
        && isGameOver == (old(isGameOver) ||
             if InCheck(board, currentPlayer) then Checkmate(board, currentPlayer) else Stalemate(board, currentPlayer))
    {
      var movingPiece := board[move.fromY][move.fromX];
      if movingPiece == 0 {
        return;
      }
      var boardStateBeforeMove := board;
      moveHistory := moveHistory + [HistoryEntry(move, boardStateBeforeMove, currentPlayer)];
      board := Set(board, move.toX, move.toY, movingPiece);
      board := Set(board, move.fromX, move.fromY, 0);
      lastMove := Some(move);
      currentPlayer := Opponent(currentPlayer);
      var opponentColor := currentPlayer;
      var inCheck := IsKingInCheck(opponentColor);
      if inCheck {
        var mate := IsCheckmate(opponentColor);
        if mate {
          isGameOver := true;
        }
      } else {
        var stalemate := IsStalemate(opponentColor);
        if stalemate {
          isGameOver := true;
        }
      }
    }

    /**
     * `undoMove`: pop the newest entry and restore its board snapshot and
     * side to move; the game is no longer over. With no history nothing
     * happens.
     */
    method UndoMove()
      requires Valid()
      modifies this
      ensures Valid()
      ensures old(moveHistory) == [] ==> unchanged(this)
      ensures old(moveHistory) != [] ==>
        && moveHistory == old(moveHistory)[..|old(moveHistory)| - 1]
        && board == old(moveHistory)[|old(moveHistory)| - 1].boardState
        && currentPlayer == old(moveHistory)[|old(moveHistory)| - 1].player
        && lastMove == LastMoveOf(moveHistory)
        && !isGameOver
    {
      if |moveHistory| == 0 {
        return;
      }
      var lastMoveData := moveHistory[|moveHistory| - 1];
      moveHistory := moveHistory[..|moveHistory| - 1];
      board := lastMoveData.boardState;
      currentPlayer := lastMoveData.player;
      lastMove := if |moveHistory| > 0 then Some(moveHistory[|moveHistory| - 1].move) else None;
      isGameOver := false;
    }

    /**
     * A move followed by an undo puts back the board, the history, the side
     * to move and the last move, and leaves the game not over.
     */
    method MoveThenUndo(move: Move)
      requires Valid() && MoveOnBoard(move)
      modifies this
      ensures Valid()
      ensures old(board)[move.fromY][move.fromX] != 0 ==>
        && board == old(board)
        && moveHistory == old(moveHistory)
        && currentPlayer == old(currentPlayer)
        && lastMove == old(lastMove)
        && !isGameOver
    {
      ExecuteMove(move);
      UndoMove();
      assert old(board)[move.fromY][move.fromX] != 0 ==> moveHistory == old(moveHistory);
    }

    /** `evaluateBoard`. */
    method EvaluateBoard() returns (totalScore: int)
      requires Valid()
      ensures totalScore == Eval(board)
    {
      totalScore := 0;
      ghost var totals := RowTotals(board);
      for y := 0 to Height
        invariant totalScore == Sum(totals[..y])
      {
        ghost var terms := RowTerms(board, y);
        for x := 0 to Width
          invariant totalScore == Sum(totals[..y]) + Sum(terms[..x])
        {
          var piece := board[y][x];
          if piece != 0 {
            var value := PieceValue(piece, y);
            if PieceColor(piece) == Some(Red) {
              totalScore := totalScore - value;
            } else {
              totalScore := totalScore + value;
            }
          }
          assert terms[..x + 1][..x] == terms[..x];
        }
        assert terms[..Width] == terms;
        assert totals[..y + 1][..y] == totals[..y];
      }
      assert totals[..Height] == totals;
    }
  }
}
