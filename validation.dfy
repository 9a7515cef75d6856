/** The move validator of both game programs (validate_move): a yes/no
    decision for moving `piece` from (sx, sy) to (ex, ey) with `isWhite`
    saying whose turn it is. Coordinates are (row, column). */
module Validation {
  import opened Board

  /** There is no piece, or it belongs to the side that is not moving. */
  predicate WrongSide(piece: char, isWhite: bool) {
    piece == ' ' || (isWhite && IsLower(piece)) || (!isWhite && IsUpper(piece))
  }

  /** The target square holds a piece of the moving side. */
  predicate OwnTarget(target: char, isWhite: bool) {
    (isWhite && IsUpper(target)) || (!isWhite && IsLower(target))
  }

  /** The two checks validate_move makes before it looks at the kind. */
  predicate Admissible(piece: char, target: char, isWhite: bool) {
    !WrongSide(piece, isWhite) && !OwnTarget(target, isWhite)
  }

  function Min(a: int, b: int): int { if a < b then a else b }

  /** Python's reading of an index in [-8, 7] into a list of eight. */
  function Wrap(i: int): int { if i < 0 then i + 8 else i }

  /** The square the bishop's null walk reads at step j. */
  function WalkCell(b: seq<seq<char>>, sx: int, sy: int, j: int): char
    requires IsBoard(b) && OnBoard(sx, sy) && 1 <= j <= Min(sx, sy) + 8
  {
    b[Wrap(sx - j)][Wrap(sy - j)]
  }

  /** The bishop loop with start == end steps (-1, -1) forever; Python's
      negative indices wrap around until an index drops below -8. It returns
      False at the first occupied square it meets among the steps
      1 .. Min(sx, sy) + 8, and raises IndexError when there is none. */
  predicate NullWalkHits(b: seq<seq<char>>, sx: int, sy: int)
    requires IsBoard(b) && OnBoard(sx, sy)
  {
    exists j :: 1 <= j <= Min(sx, sy) + 8 && WalkCell(b, sx, sy, j) != ' '
  }

  /** validate_move returns instead of raising: the only raising call is the
      bishop's null move that gets past the two first checks and meets no
      piece on its walk. */
  predicate ScanTerminates(piece: char, b: seq<seq<char>>, sx: int, ex: int, sy: int, ey: int, isWhite: bool)
    requires IsBoard(b) && OnBoard(sx, sy) && OnBoard(ex, ey)
  {
    ToLower(piece) == 'b' && sx == ex && sy == ey && Admissible(piece, b[ex][ey], isWhite) ==> NullWalkHits(b, sx, sy)
  }

  /** Pawn: double step from the start rank over two blank squares, single
      step onto a blank square, or diagonal capture of the other side. A
      pawn only goes forward, one row or two rows from its start row over a
      blank square, and at most one column aside; it goes straight exactly
      when the target is blank. */
  predicate PawnRule(b: seq<seq<char>>, sx: int, ex: int, sy: int, ey: int, isWhite: bool): (ok: bool)
    requires IsBoard(b) && OnBoard(sx, sy) && OnBoard(ex, ey)
    ensures ok ==> (ex == (if isWhite then sx - 1 else sx + 1) ||
                    (sx == (if isWhite then 6 else 1) && Abs(ex - sx) == 2 && b[(sx + ex) / 2][sy] == ' '))
    ensures ok ==> Abs(ey - sy) <= 1 && (sy == ey <==> b[ex][ey] == ' ')
  {
    var target := b[ex][ey];
    if isWhite then
      (sx == 6 && ex == 4 && sy == ey && b[5][sy] == ' ' && b[4][sy] == ' ') ||
      (ex == sx - 1 && sy == ey && target == ' ') ||
      (ex == sx - 1 && Abs(sy - ey) == 1 && IsLower(target))
    else
      (sx == 1 && ex == 3 && sy == ey && b[2][sy] == ' ' && b[3][sy] == ' ') ||
      (ex == sx + 1 && sy == ey && target == ' ') ||
      (ex == sx + 1 && Abs(sy - ey) == 1 && IsUpper(target))
  }

  /** Rook: same row or same column, every square strictly between blank.
      Nothing can block the null move or a single orthogonal step. */
  predicate RookRule(b: seq<seq<char>>, sx: int, ex: int, sy: int, ey: int): (ok: bool)
    requires IsBoard(b) && OnBoard(sx, sy) && OnBoard(ex, ey)
    ensures ok ==> sx == ex || sy == ey
    ensures Abs(ex - sx) + Abs(ey - sy) <= 1 ==> ok
  {
    if sx == ex then Clear(b, sx, sy, 0, if sy < ey then 1 else -1, Abs(ey - sy))
    else if sy == ey then Clear(b, sx, sy, if sx < ex then 1 else -1, 0, Abs(ex - sx))
    else false
  }

  /** Knight: the offsets are (2, 1) or (1, 2) in absolute value, that is,
      three squares away counting rows and columns, changing both. */
  predicate KnightRule(sx: int, ex: int, sy: int, ey: int): (ok: bool)
    ensures ok <==> sx != ex && sy != ey && Abs(sx - ex) + Abs(sy - ey) == 3
  {
    (Abs(sx - ex) == 2 && Abs(sy - ey) == 1) || (Abs(sx - ex) == 1 && Abs(sy - ey) == 2)
  }

  /** Bishop: on a diagonal, every square strictly between blank; the null
      move ends in False (its walk meets a piece, see NullWalkHits). Nothing
      can block a single diagonal step. */
  predicate BishopRule(b: seq<seq<char>>, sx: int, ex: int, sy: int, ey: int): (ok: bool)
    requires IsBoard(b) && OnBoard(sx, sy) && OnBoard(ex, ey)
    ensures ok ==> sx != ex && sy != ey
    ensures Abs(ex - sx) == 1 && Abs(ey - sy) == 1 ==> ok
  {
    Abs(sx - ex) == Abs(sy - ey) && sx != ex &&
    Clear(b, sx, sy, if ex > sx then 1 else -1, if ey > sy then 1 else -1, Abs(ex - sx))
  }

  /** King: both deltas at most one: the null move, one orthogonal step or
      one diagonal step. */
  predicate KingRule(sx: int, ex: int, sy: int, ey: int): (ok: bool)
    ensures ok <==> ((sx == ex && sy == ey) || Abs(ex - sx) + Abs(ey - sy) == 1 ||
                     (Abs(ex - sx) == 1 && Abs(ey - sy) == 1))
  {
    Abs(sx - ex) <= 1 && Abs(sy - ey) <= 1
  }

  /** The decision of validate_move, branch by branch in its order. The queen
      asks the rook rule, then the bishop rule, for a piece of its own
      colour: 'q' with isWhite false, 'Q' with isWhite true. */
  function Accepts(piece: char, b: seq<seq<char>>, sx: int, ex: int, sy: int, ey: int, isWhite: bool): (r: bool)
    requires IsBoard(b) && OnBoard(sx, sy) && OnBoard(ex, ey)
    requires ScanTerminates(piece, b, sx, ex, sy, ey, isWhite)
    ensures r ==> Admissible(piece, b[ex][ey], isWhite)
    ensures r && sx == ex && sy == ey ==> ToLower(piece) in "rqk"
    ensures piece == 'q' || piece == 'Q' ==>
      (r <==> Admissible(piece, b[ex][ey], isWhite) && (RookRule(b, sx, ex, sy, ey) || BishopRule(b, sx, ex, sy, ey)))
    decreases if piece == 'q' || piece == 'Q' then 1 else 0
  {
    if WrongSide(piece, isWhite) then false
    else if OwnTarget(b[ex][ey], isWhite) then false
    else if ToLower(piece) == 'p' then PawnRule(b, sx, ex, sy, ey, isWhite)
    else if ToLower(piece) == 'r' then RookRule(b, sx, ex, sy, ey)
    else if ToLower(piece) == 'n' then KnightRule(sx, ex, sy, ey)
    else if ToLower(piece) == 'b' then BishopRule(b, sx, ex, sy, ey)
    else if piece == 'q' then
      Accepts('r', b, sx, ex, sy, ey, false) || Accepts('b', b, sx, ex, sy, ey, false)
    else if piece == 'Q' then
      Accepts('R', b, sx, ex, sy, ey, true) || Accepts('B', b, sx, ex, sy, ey, true)
    else if ToLower(piece) == 'k' then KingRule(sx, ex, sy, ey)
    else false
  }

  // ---------------------------------------------------------------------
  // The path scans of validate_move, as loops

  /** The rook's horizontal scan: `for y in range(sy + step, ey, step)`
      returns False at the first occupied square. */
  method RowClear(b: seq<seq<char>>, x: int, sy: int, ey: int) returns (ok: bool)
    requires IsBoard(b) && OnBoard(x, sy) && OnBoard(x, ey)
    ensures ok == Clear(b, x, sy, 0, if sy < ey then 1 else -1, Abs(ey - sy))
  {
    var step := if sy < ey then 1 else -1;
    var y := sy + step;
    ghost var j := 1;
    while (step > 0 && y < ey) || (step < 0 && y > ey)
      invariant y == Step(sy, step, j) && 1 <= j
      invariant sy != ey ==> j <= Abs(ey - sy)
      invariant ClearBetween(b, x, sy, 0, step, 1, j)
      decreases Abs(ey - y)
    {
      if b[x][y] != ' ' {
        assert !EmptyAt(b, Step(x, 0, j), Step(sy, step, j));
        return false;
      }
      y, j := y + step, j + 1;
    }
    return true;
  }

  /** The rook's vertical scan: `for x in range(sx + step, ex, step)`. */
  method ColumnClear(b: seq<seq<char>>, sx: int, ex: int, y: int) returns (ok: bool)
    requires IsBoard(b) && OnBoard(sx, y) && OnBoard(ex, y)
    ensures ok == Clear(b, sx, y, if sx < ex then 1 else -1, 0, Abs(ex - sx))
  {
    var step := if sx < ex then 1 else -1;
    var x := sx + step;
    ghost var j := 1;
    while (step > 0 && x < ex) || (step < 0 && x > ex)
      invariant x == Step(sx, step, j) && 1 <= j
      invariant sx != ex ==> j <= Abs(ex - sx)
      invariant ClearBetween(b, sx, y, step, 0, 1, j)
      decreases Abs(ex - x)
    {
      if b[x][y] != ' ' {
        assert !EmptyAt(b, Step(sx, step, j), Step(y, 0, j));
        return false;
      }
      x, j := x + step, j + 1;
    }
    return true;
  }

  /** The bishop's scan: `while x != ex and y != ey` over the diagonal,
      reading board[x][y] with Python's negative indices. With start ==
      end it never meets the end square and walks (-1, -1) until it meets
      a piece (the precondition says it does before an index drops below
      -8), so it answers False. */
  method DiagonalClear(b: seq<seq<char>>, sx: int, sy: int, ex: int, ey: int) returns (ok: bool)
    requires IsBoard(b) && OnBoard(sx, sy) && OnBoard(ex, ey) && Abs(sx - ex) == Abs(sy - ey)
    requires sx == ex ==> NullWalkHits(b, sx, sy)
    ensures ok == (sx != ex && Clear(b, sx, sy, if ex > sx then 1 else -1, if ey > sy then 1 else -1, Abs(ex - sx)))
  {
    var xs := if ex > sx then 1 else -1;
    var ys := if ey > sy then 1 else -1;
    var x, y := sx + xs, sy + ys;
    ghost var j := 1;
    ghost var hit := Min(sx, sy) + 8;
    if sx == ex {
      hit :| 1 <= hit <= Min(sx, sy) + 8 && WalkCell(b, sx, sy, hit) != ' ';
    }
    while x != ex && y != ey
      invariant x == Step(sx, xs, j) && y == Step(sy, ys, j) && 1 <= j
      invariant sx != ex ==> j <= Abs(ex - sx)
      invariant sx == ex ==> xs == -1 && ys == -1 && j <= hit
      invariant ClearBetween(b, sx, sy, xs, ys, 1, j) || sx == ex
      decreases if sx == ex then hit - j else Abs(ex - x)
    {
      if sx == ex {
        assert b[Wrap(x)][Wrap(y)] == WalkCell(b, sx, sy, j);
        if b[Wrap(x)][Wrap(y)] != ' ' {
          return false;
        }
      } else {
        if b[x][y] != ' ' {
          assert !EmptyAt(b, Step(sx, xs, j), Step(sy, ys, j));
          return false;
        }
        ClearExtend(b, sx, sy, xs, ys, 1, j);
      }
      x, y, j := x + xs, y + ys, j + 1;
    }
    return true;
  }

  // ---------------------------------------------------------------------
  // validate_move, as the player-against-bot program writes it

  /** validate_move as the program writes it: the two side checks, then one
      branch per kind, the rook and bishop paths scanned by loops, the queen
      by two calls for its own colour. */
  method ValidateMove(piece: char, board: seq<seq<char>>, startX: int, endX: int, startY: int, endY: int, isWhite: bool)
    returns (ok: bool)
    requires IsBoard(board) && OnBoard(startX, startY) && OnBoard(endX, endY)
    requires ScanTerminates(piece, board, startX, endX, startY, endY, isWhite)
    ensures ok == Accepts(piece, board, startX, endX, startY, endY, isWhite)
    decreases if piece == 'q' || piece == 'Q' then 1 else 0
  {
    var target := board[endX][endY];
    if piece == ' ' || (isWhite && IsLower(piece)) || (!isWhite && IsUpper(piece)) {
      return false;
    }
    if (isWhite && IsUpper(target)) || (!isWhite && IsLower(target)) {
      return false;
    }
    if ToLower(piece) == 'p' {
      if isWhite {
        if startX == 6 && endX == 4 && startY == endY && board[5][startY] == ' ' && board[4][startY] == ' ' {
          return true;
        }
        if endX == startX - 1 && startY == endY && target == ' ' {
          return true;
        }
        if endX == startX - 1 && Abs(startY - endY) == 1 && IsLower(target) {
          return true;
        }
      } else {
        if startX == 1 && endX == 3 && startY == endY && board[2][startY] == ' ' && board[3][startY] == ' ' {
          return true;
        }
        if endX == startX + 1 && startY == endY && target == ' ' {
          return true;
        }
        if endX == startX + 1 && Abs(startY - endY) == 1 && IsUpper(target) {
          return true;
        }
      }
    } else if ToLower(piece) == 'r' {
      if startX == endX {
        ok := RowClear(board, startX, startY, endY);
        return;
      } else if startY == endY {
        ok := ColumnClear(board, startX, endX, startY);
        return;
      }
    } else if ToLower(piece) == 'n' {
      if (Abs(startX - endX), Abs(startY - endY)) in [(2, 1), (1, 2)] {
        return true;
      }
    } else if ToLower(piece) == 'b' {
      if Abs(startX - endX) == Abs(startY - endY) {
        ok := DiagonalClear(board, startX, startY, endX, endY);
        return;
      }
    } else if piece == 'q' {
      var viaRook := ValidateMove('r', board, startX, endX, startY, endY, false);
      if viaRook {
        return true;
      }
      var viaBishop := ValidateMove('b', board, startX, endX, startY, endY, false);
      if viaBishop {
        return true;
      }
    } else if piece == 'Q' {
      var viaRook := ValidateMove('R', board, startX, endX, startY, endY, true);
      if viaRook {
        return true;
      }
      var viaBishop := ValidateMove('B', board, startX, endX, startY, endY, true);
      if viaBishop {
        return true;
      }
    } else if ToLower(piece) == 'k' {
      if Abs(startX - endX) <= 1 && Abs(startY - endY) <= 1 {
        return true;
      }
    }
    return false;
  }
}
