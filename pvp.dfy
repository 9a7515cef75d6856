/** The two-player game (chattaranj-pvp.py): two clicks make a move. The
    first lifts the letter off the clicked square into `inPlay`; the second
    names the target, and validate_move decides. A rejected move puts the
    letter back; an accepted one drops it on the target and passes the turn;
    an accepted capture of a king ends the game. */
module Pvp {
  import opened Board
  import opened Validation

  /** What a click leaves behind: the game goes on, or a king was taken and
      the program closes. */
  datatype Outcome = Continue | GameOver

  /** Lifting the letter off a square and writing it back leaves the board
      as it was: what reset does after a rejected move, and what an accepted
      move back onto its own start square does. */
  lemma PutBack(b: seq<seq<char>>, s: Square)
    requires IsBoard(b) && OnBoard(s.0, s.1)
    ensures Put(Put(b, s, ' '), s, b[s.0][s.1]) == b
  {
    var r := Put(Put(b, s, ' '), s, b[s.0][s.1]);
    PutCells(b, s, ' ');
    PutCells(Put(b, s, ' '), s, b[s.0][s.1]);
    forall i | 0 <= i < 8 ensures r[i] == b[i] {
      assert forall j :: 0 <= j < 8 ==> r[i][j] == b[i][j];
    }
  }

  /** A whole accepted turn, lifting the letter off s and dropping it on e:
      e holds the letter, s is blank unless it is e, every other square is
      as before; a turn onto its own start square changes nothing. */
  lemma TurnFrame(b: seq<seq<char>>, s: Square, e: Square)
    requires IsBoard(b) && OnBoard(s.0, s.1) && OnBoard(e.0, e.1)
    ensures var r := Put(Put(b, s, ' '), e, b[s.0][s.1]);
      r[e.0][e.1] == b[s.0][s.1] && (s != e ==> r[s.0][s.1] == ' ') &&
      (forall i, j :: 0 <= i < 8 && 0 <= j < 8 && (i, j) != s && (i, j) != e ==> r[i][j] == b[i][j]) &&
      (s == e ==> r == b)
  {
    PutCells(b, s, ' ');
    PutCells(Put(b, s, ' '), e, b[s.0][s.1]);
    if s == e {
      PutBack(b, s);
    }
  }

  /** With the start square blank, as it is while a letter is in play, a
      move onto the start square itself is accepted exactly for a rook, a
      queen (through its rook test, whose path is empty) or a king of the
      side to move; pawn, knight and bishop reject it. */
  lemma NullMoveAccepted(piece: char, b: seq<seq<char>>, sx: int, sy: int, isWhite: bool)
    requires IsBoard(b) && OnBoard(sx, sy) && b[sx][sy] == ' '
    requires ScanTerminates(piece, b, sx, sx, sy, sy, isWhite)
    ensures Accepts(piece, b, sx, sx, sy, sy, isWhite) <==> !WrongSide(piece, isWhite) && ToLower(piece) in "rqk"
  {
    if !WrongSide(piece, isWhite) && ToLower(piece) in "rqk" {
      assert Clear(b, sx, sy, 0, -1, 0);
      if piece == 'q' {
        assert Accepts('r', b, sx, sx, sy, sy, false);
      } else if piece == 'Q' {
        assert Accepts('R', b, sx, sx, sy, sy, true);
      }
    }
  }

  class Game {
    var board: array2<char>
    var inPlay: char
    var isWhite: bool
    var startX: int
    var startY: int
    var endX: int
    var endY: int

    /** An 8x8 board and start and end squares on it; while a letter is in
        play its start square is blank (the first click blanked it). */
    predicate Valid()
      reads this, board
    {
      board.Length0 == 8 && board.Length1 == 8 && OnBoard(startX, startY) && OnBoard(endX, endY) &&
      (inPlay != ' ' ==> board[startX, startY] == ' ')
    }

    /** A new game: the starting position, nothing in play, White to move. */
    constructor()
      ensures Valid() && fresh(board) && Cells(board) == StartPosition()
      ensures inPlay == ' ' && isWhite
      ensures startX == 0 && startY == 0 && endX == 0 && endY == 0
    {
      var start := StartPosition();
      board := new char[8, 8]((i, j) => if 0 <= i < 8 && 0 <= j < 8 then start[i][j] else ' ');
      inPlay := ' ';
      isWhite := true;
      startX, startY, endX, endY := 0, 0, 0, 0;
      new;
      CellsOf(board, start);
    }

    /** validate_move on the game's own fields. The queen asks again as a
        rook, then as a bishop, with the side to move unchanged; every other
        kind is decided by the shared validator. */
    method ValidateMove(piece: char) returns (ok: bool)
      requires Valid()
      requires ScanTerminates(piece, Cells(board), startX, endX, startY, endY, isWhite)
      ensures ok == Accepts(piece, Cells(board), startX, endX, startY, endY, isWhite)
      decreases if piece == 'q' || piece == 'Q' then 1 else 0
    {
      var b := Cells(board);
      if piece == 'q' || piece == 'Q' {
        if WrongSide(piece, isWhite) || OwnTarget(b[endX][endY], isWhite) {
          return false;
        }
        var viaRook := ValidateMove(if piece == 'q' then 'r' else 'R');
        if viaRook {
          return true;
        }
        var viaBishop := ValidateMove(if piece == 'q' then 'b' else 'B');
        return viaBishop;
      }
      ok := Validation.ValidateMove(piece, b, startX, endX, startY, endY, isWhite);
    }

    /** validate_move's answer for the letter in play moving to (row, col). */
    predicate Accepted(row: int, col: int)
      requires Valid() && OnBoard(row, col)
      requires ScanTerminates(inPlay, Cells(board), startX, row, startY, col, isWhite)
      reads this, board
    {
      Accepts(inPlay, Cells(board), startX, row, startY, col, isWhite)
    }

    /** reset: the letter in play goes back to the start square, the
        remembered squares return to (0, 0) and nothing is in play. */
    method Reset()
      requires Valid()
      modifies this, board
      ensures Valid() && board == old(board) && isWhite == old(isWhite)
      ensures Cells(board) == Put(old(Cells(board)), (old(startX), old(startY)), old(inPlay))
      ensures inPlay == ' ' && startX == 0 && startY == 0 && endX == 0 && endY == 0
    {
      var a := board;
      ghost var before := Cells(a);
      a[startX, startY] := inPlay;
      PutCells(before, (startX, startY), inPlay);
      CellsOf(a, Put(before, (startX, startY), inPlay));
      startX, startY, endX, endY := 0, 0, 0, 0;
      inPlay := ' ';
    }

    /** move(col, row). With nothing in play: lift the letter off (row, col)
        (a blank square lifts nothing) and remember the square. Otherwise
        (row, col) is the target: a rejected move is reset; an accepted
        move onto a king ends the game; any other accepted move drops the
        letter on the target and passes the turn. */
    method Move(col: int, row: int) returns (outcome: Outcome)
      requires Valid() && OnBoard(row, col)
      requires inPlay != ' ' ==> ScanTerminates(inPlay, Cells(board), startX, row, startY, col, isWhite)
      modifies this, board
      ensures Valid() && board == old(board)
      ensures old(inPlay) == ' ' ==>
        outcome == Continue && inPlay == old(board[row, col]) &&
        Cells(board) == Put(old(Cells(board)), (row, col), ' ') &&
        startX == row && startY == col && endX == old(endX) && endY == old(endY) && isWhite == old(isWhite)
      ensures old(inPlay) != ' ' && !old(Accepted(row, col)) ==>
        outcome == Continue && inPlay == ' ' && isWhite == old(isWhite) &&
        Cells(board) == Put(old(Cells(board)), (old(startX), old(startY)), old(inPlay)) &&
        startX == 0 && startY == 0 && endX == 0 && endY == 0
      ensures old(inPlay) != ' ' && old(Accepted(row, col)) ==>
        endX == row && endY == col && startX == old(startX) && startY == old(startY)
      ensures old(inPlay) != ' ' && old(Accepted(row, col)) && old(board[row, col]) in "Kk" ==>
        outcome == GameOver && inPlay == old(inPlay) && isWhite == old(isWhite) && Cells(board) == old(Cells(board))
      ensures old(inPlay) != ' ' && old(Accepted(row, col)) && old(board[row, col]) !in "Kk" ==>
        outcome == Continue && inPlay == ' ' && isWhite == !old(isWhite) &&
        Cells(board) == Put(old(Cells(board)), (row, col), old(inPlay))
    {
      if inPlay == ' ' {
        Lift(row, col);
        return Continue;
      }
      endX, endY := row, col;
      var ok := ValidateMove(inPlay);
      if !ok {
        Reset();
        return Continue;
      }
      if board[row, col] == 'K' || board[row, col] == 'k' {
        return GameOver;
      }
      Drop(row, col);
      return Continue;
    }

    /** The first click: the letter on (row, col) goes into play, its square
        is blanked and remembered as the start. */
    method Lift(row: int, col: int)
      requires Valid() && OnBoard(row, col) && inPlay == ' '
      modifies this, board
      ensures Valid() && board == old(board) && inPlay == old(board[row, col])
      ensures Cells(board) == Put(old(Cells(board)), (row, col), ' ')
      ensures startX == row && startY == col && endX == old(endX) && endY == old(endY) && isWhite == old(isWhite)
    {
      var a := board;
      ghost var before := Cells(a);
      inPlay := a[row, col];
      a[row, col] := ' ';
      PutCells(before, (row, col), ' ');
      CellsOf(a, Put(before, (row, col), ' '));
      startX, startY := row, col;
    }

    /** The accepted second click: the letter in play lands on (row, col),
        nothing is in play and the other side moves. */
    method Drop(row: int, col: int)
      requires Valid() && OnBoard(row, col)
      modifies this, board
      ensures Valid() && board == old(board) && inPlay == ' ' && isWhite == !old(isWhite)
      ensures Cells(board) == Put(old(Cells(board)), (row, col), old(inPlay))
      ensures startX == old(startX) && startY == old(startY) && endX == old(endX) && endY == old(endY)
    {
      var a := board;
      ghost var before := Cells(a);
      a[row, col] := inPlay;
      PutCells(before, (row, col), inPlay);
      CellsOf(a, Put(before, (row, col), inPlay));
      inPlay := ' ';
      isWhite := !isWhite;
    }
  }
}
