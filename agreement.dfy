/** The validator and the generator describe the same moves: for a piece of
    the side to move, validate_move accepts a destination exactly when
    get_possible_moves lists it. The PvE game relies on the generator's list
    as its legality test, the PvP game on the validator. */
module Agreement {
  import opened Board
  import opened Brain
  import opened Validation

  /** A square on the line from (row, col) in direction (dr, dc), m steps
      away, is on that ray iff it is on the board, the squares before it are
      blank, and it is blank or holds an enemy. */
  lemma RayMember(b: seq<seq<char>>, row: int, col: int, dr: int, dc: int, ex: int, ey: int, m: int)
    requires IsBoard(b) && OnBoard(row, col) && IsDir(dr, dc) && m >= 1
    requires ex == Step(row, dr, m) && ey == Step(col, dc, m)
    ensures (ex, ey) in Ray(b, row, col, dr, dc) <==>
      OnBoard(ex, ey) && ClearBetween(b, row, col, dr, dc, 1, m) && Reachable(b[ex][ey], b[row][col])
  {
    ScanAt(b, row, col, dr, dc, 1, m);
  }

  /** On a well-formed board, a target the mover does not own is exactly a
      target the generators call reachable. */
  lemma OwnIffUnreachable(p: char, t: char, isWhite: bool)
    requires IsPieceLetter(p) && !WrongSide(p, isWhite)
    requires t == ' ' || IsPieceLetter(t)
    ensures !OwnTarget(t, isWhite) <==> Reachable(t, p)
  {
  }

  /** The rook list and the rook rule agree, the null move aside. */
  lemma {:induction false} RookAgree(b: seq<seq<char>>, sx: int, sy: int, ex: int, ey: int)
    requires IsBoard(b) && OnBoard(sx, sy) && OnBoard(ex, ey)
    ensures (ex, ey) in RookMoves(b, sx, sy) <==>
      (ex, ey) != (sx, sy) && Reachable(b[ex][ey], b[sx][sy]) && RookRule(b, sx, ex, sy, ey)
  {
    RayShape(b, sx, sy, -1, 0);
    RayShape(b, sx, sy, 1, 0);
    RayShape(b, sx, sy, 0, -1);
    RayShape(b, sx, sy, 0, 1);
    var e := (ex, ey);
    assert e in RookMoves(b, sx, sy) <==>
      e in Ray(b, sx, sy, -1, 0) || e in Ray(b, sx, sy, 1, 0) || e in Ray(b, sx, sy, 0, -1) || e in Ray(b, sx, sy, 0, 1);
    if sx == ex && sy < ey {
      RayMember(b, sx, sy, 0, 1, ex, ey, ey - sy);
    } else if sx == ex && sy > ey {
      RayMember(b, sx, sy, 0, -1, ex, ey, sy - ey);
    } else if sy == ey && sx < ex {
      RayMember(b, sx, sy, 1, 0, ex, ey, ex - sx);
    } else if sy == ey && sx > ex {
      RayMember(b, sx, sy, -1, 0, ex, ey, sx - ex);
    }
  }

  /** The bishop list and the bishop rule agree. */
  lemma {:induction false} BishopAgree(b: seq<seq<char>>, sx: int, sy: int, ex: int, ey: int)
    requires IsBoard(b) && OnBoard(sx, sy) && OnBoard(ex, ey)
    ensures (ex, ey) in BishopMoves(b, sx, sy) <==>
      Reachable(b[ex][ey], b[sx][sy]) && BishopRule(b, sx, ex, sy, ey)
  {
    RayShape(b, sx, sy, -1, -1);
    RayShape(b, sx, sy, -1, 1);
    RayShape(b, sx, sy, 1, -1);
    RayShape(b, sx, sy, 1, 1);
    var e := (ex, ey);
    assert e in BishopMoves(b, sx, sy) <==>
      e in Ray(b, sx, sy, -1, -1) || e in Ray(b, sx, sy, -1, 1) || e in Ray(b, sx, sy, 1, -1) || e in Ray(b, sx, sy, 1, 1);
    if Abs(sx - ex) == Abs(sy - ey) && sx != ex {
      var dr, dc := if ex > sx then 1 else -1, if ey > sy then 1 else -1;
      RayMember(b, sx, sy, dr, dc, ex, ey, Abs(ex - sx));
    }
  }

  /** The White pawn list and the White pawn rule agree. */
  lemma WhitePawnAgree(b: seq<seq<char>>, sx: int, sy: int, ex: int, ey: int)
    requires IsBoard(b) && OnBoard(sx, sy) && OnBoard(ex, ey)
    ensures (ex, ey) in WhitePawnMoves(b, sx, sy) <==> !IsUpper(b[ex][ey]) && PawnRule(b, sx, ex, sy, ey, true)
  {
    var c1 := OnBoard(sx - 1, sy) && b[sx - 1][sy] == ' ';
    var c2 := sx == 6 && b[sx - 1][sy] == ' ' && b[sx - 2][sy] == ' ';
    var c3 := OnBoard(sx - 1, sy - 1) && IsLower(b[sx - 1][sy - 1]);
    var c4 := OnBoard(sx - 1, sy + 1) && IsLower(b[sx - 1][sy + 1]);
    var x1, x2, x3, x4 := (sx - 1, sy), (sx - 2, sy), (sx - 1, sy - 1), (sx - 1, sy + 1);
    assert WhitePawnMoves(b, sx, sy) == When(c1, x1) + When(c2, x2) + When(c3, x3) + When(c4, x4);
    var e := (ex, ey);
    WhenFourAt(c1, x1, c2, x2, c3, x3, c4, x4, e);
    if e == x1 {
      assert PawnRule(b, sx, ex, sy, ey, true) <==> c1;
    } else if e == x2 {
      assert PawnRule(b, sx, ex, sy, ey, true) <==> c2;
    } else if e == x3 {
      assert PawnRule(b, sx, ex, sy, ey, true) <==> c3;
    } else if e == x4 {
      assert PawnRule(b, sx, ex, sy, ey, true) <==> c4;
    } else {
      assert !PawnRule(b, sx, ex, sy, ey, true);
    }
  }

  /** The Black pawn list and the Black pawn rule agree. */
  lemma BlackPawnAgree(b: seq<seq<char>>, sx: int, sy: int, ex: int, ey: int)
    requires IsBoard(b) && OnBoard(sx, sy) && OnBoard(ex, ey)
    ensures (ex, ey) in BlackPawnMoves(b, sx, sy) <==> !IsLower(b[ex][ey]) && PawnRule(b, sx, ex, sy, ey, false)
  {
    var c1 := OnBoard(sx + 1, sy) && b[sx + 1][sy] == ' ';
    var c2 := sx == 1 && b[sx + 1][sy] == ' ' && b[sx + 2][sy] == ' ';
    var c3 := OnBoard(sx + 1, sy - 1) && IsUpper(b[sx + 1][sy - 1]);
    var c4 := OnBoard(sx + 1, sy + 1) && IsUpper(b[sx + 1][sy + 1]);
    var x1, x2, x3, x4 := (sx + 1, sy), (sx + 2, sy), (sx + 1, sy - 1), (sx + 1, sy + 1);
    assert BlackPawnMoves(b, sx, sy) == When(c1, x1) + When(c2, x2) + When(c3, x3) + When(c4, x4);
    var e := (ex, ey);
    WhenFourAt(c1, x1, c2, x2, c3, x3, c4, x4, e);
    if e == x1 {
      assert PawnRule(b, sx, ex, sy, ey, false) <==> c1;
    } else if e == x2 {
      assert PawnRule(b, sx, ex, sy, ey, false) <==> c2;
    } else if e == x3 {
      assert PawnRule(b, sx, ex, sy, ey, false) <==> c3;
    } else if e == x4 {
      assert PawnRule(b, sx, ex, sy, ey, false) <==> c4;
    } else {
      assert !PawnRule(b, sx, ex, sy, ey, false);
    }
  }

  /** The validator's knight offsets are the generator's knight jumps. */
  lemma KnightShapes(sx: int, sy: int, ex: int, ey: int)
    ensures KnightRule(sx, ex, sy, ey) <==> KnightJump(sx, sy, (ex, ey))
  {
    assert Abs(sx - ex) == Abs(ex - sx) && Abs(sy - ey) == Abs(ey - sy);
  }

  /** The validator's king rule is a generator king step or the null move. */
  lemma KingShapes(sx: int, sy: int, ex: int, ey: int)
    ensures KingRule(sx, ex, sy, ey) <==> KingStep(sx, sy, (ex, ey)) || (ex, ey) == (sx, sy)
  {
    assert Abs(sx - ex) == Abs(ex - sx) && Abs(sy - ey) == Abs(ey - sy);
  }

  /** Agreement for the rook. */
  lemma RookCase(b: seq<seq<char>>, sx: int, sy: int, ex: int, ey: int, isWhite: bool)
    requires IsBoard(b) && OnBoard(sx, sy) && OnBoard(ex, ey)
    requires b[ex][ey] == ' ' || IsPieceLetter(b[ex][ey])
    requires !WrongSide(b[sx][sy], isWhite) && (b[sx][sy] == 'r' || b[sx][sy] == 'R')
    ensures ScanTerminates(b[sx][sy], b, sx, ex, sy, ey, isWhite)
    ensures Accepts(b[sx][sy], b, sx, ex, sy, ey, isWhite) <==> (ex, ey) in PossibleMoves(b, sx, sy)
  {
    var p, t := b[sx][sy], b[ex][ey];
    assert Accepts(p, b, sx, ex, sy, ey, isWhite) == (!OwnTarget(t, isWhite) && RookRule(b, sx, ex, sy, ey));
    assert PossibleMoves(b, sx, sy) == RookMoves(b, sx, sy);
    OwnIffUnreachable(p, t, isWhite);
    RookAgree(b, sx, sy, ex, ey);
  }

  /** Agreement for the bishop. */
  lemma BishopCase(b: seq<seq<char>>, sx: int, sy: int, ex: int, ey: int, isWhite: bool)
    requires IsBoard(b) && OnBoard(sx, sy) && OnBoard(ex, ey)
    requires b[ex][ey] == ' ' || IsPieceLetter(b[ex][ey])
    requires !WrongSide(b[sx][sy], isWhite) && (b[sx][sy] == 'b' || b[sx][sy] == 'B')
    ensures ScanTerminates(b[sx][sy], b, sx, ex, sy, ey, isWhite)
    ensures Accepts(b[sx][sy], b, sx, ex, sy, ey, isWhite) <==> (ex, ey) in PossibleMoves(b, sx, sy)
  {
    var p, t := b[sx][sy], b[ex][ey];
    assert Accepts(p, b, sx, ex, sy, ey, isWhite) == (!OwnTarget(t, isWhite) && BishopRule(b, sx, ex, sy, ey));
    assert PossibleMoves(b, sx, sy) == BishopMoves(b, sx, sy);
    OwnIffUnreachable(p, t, isWhite);
    BishopAgree(b, sx, sy, ex, ey);
  }

  /** Agreement for the queen, whose list is the rook list followed by the bishop list. */
  lemma QueenCase(b: seq<seq<char>>, sx: int, sy: int, ex: int, ey: int, isWhite: bool)
    requires IsBoard(b) && OnBoard(sx, sy) && OnBoard(ex, ey)
    requires b[ex][ey] == ' ' || IsPieceLetter(b[ex][ey])
    requires !WrongSide(b[sx][sy], isWhite) && (b[sx][sy] == 'q' || b[sx][sy] == 'Q')
    ensures ScanTerminates(b[sx][sy], b, sx, ex, sy, ey, isWhite)
    ensures Accepts(b[sx][sy], b, sx, ex, sy, ey, isWhite) <==> (ex, ey) in PossibleMoves(b, sx, sy)
  {
    var p, t := b[sx][sy], b[ex][ey];
    assert PossibleMoves(b, sx, sy) == RookMoves(b, sx, sy) + BishopMoves(b, sx, sy);
    OwnIffUnreachable(p, t, isWhite);
    RookAgree(b, sx, sy, ex, ey);
    BishopAgree(b, sx, sy, ex, ey);
    assert (ex, ey) in PossibleMoves(b, sx, sy) <==> (ex, ey) in RookMoves(b, sx, sy) || (ex, ey) in BishopMoves(b, sx, sy);
    if (ex, ey) == (sx, sy) {
      assert OwnTarget(t, isWhite);
    }
  }

  /** Agreement for the knight. */
  lemma KnightCase(b: seq<seq<char>>, sx: int, sy: int, ex: int, ey: int, isWhite: bool)
    requires IsBoard(b) && OnBoard(sx, sy) && OnBoard(ex, ey)
    requires b[ex][ey] == ' ' || IsPieceLetter(b[ex][ey])
    requires !WrongSide(b[sx][sy], isWhite) && (b[sx][sy] == 'n' || b[sx][sy] == 'N')
    ensures ScanTerminates(b[sx][sy], b, sx, ex, sy, ey, isWhite)
    ensures Accepts(b[sx][sy], b, sx, ex, sy, ey, isWhite) <==> (ex, ey) in PossibleMoves(b, sx, sy)
  {
    var p, t := b[sx][sy], b[ex][ey];
    assert Accepts(p, b, sx, ex, sy, ey, isWhite) == (!OwnTarget(t, isWhite) && KnightRule(sx, ex, sy, ey));
    assert PossibleMoves(b, sx, sy) == KnightMoves(b, sx, sy);
    OwnIffUnreachable(p, t, isWhite);
    KnightMembers(b, sx, sy);
    KnightShapes(sx, sy, ex, ey);
  }

  /** Agreement for the king. */
  lemma KingCase(b: seq<seq<char>>, sx: int, sy: int, ex: int, ey: int, isWhite: bool)
    requires IsBoard(b) && OnBoard(sx, sy) && OnBoard(ex, ey)
    requires b[ex][ey] == ' ' || IsPieceLetter(b[ex][ey])
    requires !WrongSide(b[sx][sy], isWhite) && (b[sx][sy] == 'k' || b[sx][sy] == 'K')
    ensures ScanTerminates(b[sx][sy], b, sx, ex, sy, ey, isWhite)
    ensures Accepts(b[sx][sy], b, sx, ex, sy, ey, isWhite) <==> (ex, ey) in PossibleMoves(b, sx, sy)
  {
    var p, t := b[sx][sy], b[ex][ey];
    assert Accepts(p, b, sx, ex, sy, ey, isWhite) == (!OwnTarget(t, isWhite) && KingRule(sx, ex, sy, ey));
    assert PossibleMoves(b, sx, sy) == KingMoves(b, sx, sy);
    OwnIffUnreachable(p, t, isWhite);
    KingMembers(b, sx, sy);
    KingShapes(sx, sy, ex, ey);
    if (ex, ey) == (sx, sy) {
      assert OwnTarget(t, isWhite);
    }
  }


  /** Agreement for the White pawn. */
  lemma WhitePawnCase(b: seq<seq<char>>, sx: int, sy: int, ex: int, ey: int, isWhite: bool)
    requires IsBoard(b) && OnBoard(sx, sy) && OnBoard(ex, ey)
    requires !WrongSide(b[sx][sy], isWhite) && b[sx][sy] == 'P'
    ensures ScanTerminates(b[sx][sy], b, sx, ex, sy, ey, isWhite)
    ensures Accepts(b[sx][sy], b, sx, ex, sy, ey, isWhite) <==> (ex, ey) in PossibleMoves(b, sx, sy)
  {
    assert isWhite;
    assert Accepts('P', b, sx, ex, sy, ey, true) == (!IsUpper(b[ex][ey]) && PawnRule(b, sx, ex, sy, ey, true));
    assert PossibleMoves(b, sx, sy) == WhitePawnMoves(b, sx, sy);
    WhitePawnAgree(b, sx, sy, ex, ey);
  }

  /** Agreement for the Black pawn. */
  lemma BlackPawnCase(b: seq<seq<char>>, sx: int, sy: int, ex: int, ey: int, isWhite: bool)
    requires IsBoard(b) && OnBoard(sx, sy) && OnBoard(ex, ey)
    requires !WrongSide(b[sx][sy], isWhite) && b[sx][sy] == 'p'
    ensures ScanTerminates(b[sx][sy], b, sx, ex, sy, ey, isWhite)
    ensures Accepts(b[sx][sy], b, sx, ex, sy, ey, isWhite) <==> (ex, ey) in PossibleMoves(b, sx, sy)
  {
    assert !isWhite;
    assert Accepts('p', b, sx, ex, sy, ey, false) == (!IsLower(b[ex][ey]) && PawnRule(b, sx, ex, sy, ey, false));
    assert PossibleMoves(b, sx, sy) == BlackPawnMoves(b, sx, sy);
    BlackPawnAgree(b, sx, sy, ex, ey);
  }

  /** The central theorem. On a well-formed board, for the piece on
      (sx, sy) when it belongs to the side to move, validate_move returns
      (it never reaches the raising bishop walk) and accepts (ex, ey)
      exactly when get_possible_moves lists (ex, ey). */
  lemma Agreement(b: seq<seq<char>>, sx: int, sy: int, ex: int, ey: int, isWhite: bool)
    requires WellFormed(b) && OnBoard(sx, sy) && OnBoard(ex, ey)
    requires !WrongSide(b[sx][sy], isWhite)
    ensures ScanTerminates(b[sx][sy], b, sx, ex, sy, ey, isWhite)
    ensures Accepts(b[sx][sy], b, sx, ex, sy, ey, isWhite) <==> (ex, ey) in PossibleMoves(b, sx, sy)
  {
    var p := b[sx][sy];
    assert b[ex][ey] == ' ' || IsPieceLetter(b[ex][ey]);
    if p == 'r' || p == 'R' {
      RookCase(b, sx, sy, ex, ey, isWhite);
    } else if p == 'b' || p == 'B' {
      BishopCase(b, sx, sy, ex, ey, isWhite);
    } else if p == 'q' || p == 'Q' {
      QueenCase(b, sx, sy, ex, ey, isWhite);
    } else if p == 'n' || p == 'N' {
      KnightCase(b, sx, sy, ex, ey, isWhite);
    } else if p == 'k' || p == 'K' {
      KingCase(b, sx, sy, ex, ey, isWhite);
    } else if p == 'P' {
      WhitePawnCase(b, sx, sy, ex, ey, isWhite);
    } else {
      BlackPawnCase(b, sx, sy, ex, ey, isWhite);
    }
  }
}
