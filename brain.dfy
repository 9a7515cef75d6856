/** The move generator of brain.py: for the piece on a square, the ordered
    list of its destinations. It only reads the board. The generators are
    functions; the ones brain.py writes as loops also have a method with the
    loop, proved to build the same list. */
module Brain {
  import opened Board

  /** A destination the non-pawn generators accept: blank, or holding a piece
      of the other case than the mover `p`. */
  predicate Reachable(t: char, p: char) { t == ' ' || Opposite(t, p) }

  /** What the generator promises of every list it returns: squares on the
      board that are blank or hold an enemy of the piece on (row, col). */
  predicate Sound(b: seq<seq<char>>, row: int, col: int, moves: seq<Square>)
    requires IsBoard(b) && OnBoard(row, col)
  {
    forall e :: e in moves ==> OnBoard(e.0, e.1) && Reachable(b[e.0][e.1], b[row][col])
  }

  // ---------------------------------------------------------------------
  // Sliding pieces

  /** The rest of one ray, from the square `k` steps from (row, col) in
      direction (dr, dc): blank squares are listed and the scan goes on; the
      first occupied square is listed only when it holds an enemy, and the
      scan stops there. */
  function Scan(b: seq<seq<char>>, row: int, col: int, dr: int, dc: int, k: int): seq<Square>
    requires IsBoard(b) && OnBoard(row, col) && IsDir(dr, dc) && k >= 1
    decreases 8 - k
  {
    var r, c := Step(row, dr, k), Step(col, dc, k);
    if !OnBoard(r, c) then []
    else if b[r][c] == ' ' then [(r, c)] + Scan(b, row, col, dr, dc, k + 1)
    else if Opposite(b[r][c], b[row][col]) then [(r, c)]
    else []
  }

  /** How many steps coordinate x can take in direction d before it leaves
      the board; a coordinate that stays put (d == 0) leaves the bound to
      the other one. */
  function Room(x: int, d: int): int {
    if d > 0 then 7 - x else if d < 0 then x else 7
  }

  /** A scan from step k lists squares k, k + 1, ... only, each of them on
      the board: the last one lies within the room in both coordinates. */
  lemma {:induction false} ScanLength(b: seq<seq<char>>, row: int, col: int, dr: int, dc: int, k: int)
    requires IsBoard(b) && OnBoard(row, col) && IsDir(dr, dc) && k >= 1
    ensures var s := Scan(b, row, col, dr, dc, k);
      s != [] ==> k + |s| - 1 <= Room(row, dr) && k + |s| - 1 <= Room(col, dc)
    decreases 8 - k
  {
    var r, c := Step(row, dr, k), Step(col, dc, k);
    if OnBoard(r, c) && b[r][c] == ' ' {
      ScanLength(b, row, col, dr, dc, k + 1);
    }
  }

  /** One whole ray from (row, col): it lists no more squares than lie
      between the piece and the edge in its direction. */
  function Ray(b: seq<seq<char>>, row: int, col: int, dr: int, dc: int): (s: seq<Square>)
    requires IsBoard(b) && OnBoard(row, col) && IsDir(dr, dc)
    ensures |s| <= Room(row, dr) && |s| <= Room(col, dc)
  {
    ScanLength(b, row, col, dr, dc, 1);
    Scan(b, row, col, dr, dc, 1)
  }

  /** The number of king steps from (row, col) to e. */
  function Dist(row: int, col: int, e: Square): int {
    if Abs(e.0 - row) < Abs(e.1 - col) then Abs(e.1 - col) else Abs(e.0 - row)
  }

  /** e lies in direction (dr, dc) from (row, col), at least k steps away. */
  predicate Beyond(row: int, col: int, dr: int, dc: int, k: int, e: Square) {
    Sign(e.0 - row) == dr && Sign(e.1 - col) == dc &&
    (dr != 0 && dc != 0 ==> Abs(e.0 - row) == Abs(e.1 - col)) &&
    Dist(row, col, e) >= k
  }

  /** The square k steps away lies in the direction, exactly k steps away. */
  lemma StepBeyond(row: int, col: int, dr: int, dc: int, k: int)
    requires IsDir(dr, dc) && k >= 1
    ensures Beyond(row, col, dr, dc, k, (Step(row, dr, k), Step(col, dc, k)))
    ensures Dist(row, col, (Step(row, dr, k), Step(col, dc, k))) == k
  {
  }

  /** No square is listed twice in a list with a fresh head. */
  lemma DistinctCons(x: Square, s: seq<Square>)
    requires Distinct(s) && x !in s
    ensures Distinct([x] + s)
  {
    var t := [x] + s;
    forall i, j | 0 <= i < j < |t| ensures t[i] != t[j] {
      assert t[j] == s[j - 1];
      if i > 0 { assert t[i] == s[i - 1]; }
    }
  }

  /** Every square of a scan from step k lies in the ray's direction at
      least k steps away, on the board, and is blank or an enemy. */
  lemma {:induction false} ScanPlaced(b: seq<seq<char>>, row: int, col: int, dr: int, dc: int, k: int)
    requires IsBoard(b) && OnBoard(row, col) && IsDir(dr, dc) && k >= 1
    ensures forall e :: e in Scan(b, row, col, dr, dc, k) ==>
      Beyond(row, col, dr, dc, k, e) && OnBoard(e.0, e.1) && Reachable(b[e.0][e.1], b[row][col])
    decreases 8 - k
  {
    var r, c := Step(row, dr, k), Step(col, dc, k);
    var s := Scan(b, row, col, dr, dc, k);
    StepBeyond(row, col, dr, dc, k);
    if OnBoard(r, c) && b[r][c] == ' ' {
      var tail := Scan(b, row, col, dr, dc, k + 1);
      ScanPlaced(b, row, col, dr, dc, k + 1);
      assert s == [(r, c)] + tail;
      forall e | e in s
        ensures Beyond(row, col, dr, dc, k, e)
        ensures OnBoard(e.0, e.1) && Reachable(b[e.0][e.1], b[row][col])
      {
        if e != (r, c) { assert e in tail; }
      }
    } else if OnBoard(r, c) && Opposite(b[r][c], b[row][col]) {
      assert s == [(r, c)];
    } else {
      assert s == [];
    }
  }

  /** No square is listed twice by a scan: each step lies farther out than
      the one before. */
  lemma {:induction false} ScanDistinct(b: seq<seq<char>>, row: int, col: int, dr: int, dc: int, k: int)
    requires IsBoard(b) && OnBoard(row, col) && IsDir(dr, dc) && k >= 1
    ensures Distinct(Scan(b, row, col, dr, dc, k))
    decreases 8 - k
  {
    var r, c := Step(row, dr, k), Step(col, dc, k);
    var s := Scan(b, row, col, dr, dc, k);
    if OnBoard(r, c) && b[r][c] == ' ' {
      var tail := Scan(b, row, col, dr, dc, k + 1);
      ScanDistinct(b, row, col, dr, dc, k + 1);
      ScanPlaced(b, row, col, dr, dc, k + 1);
      StepBeyond(row, col, dr, dc, k);
      assert (r, c) !in tail;
      assert s == [(r, c)] + tail;
      DistinctCons((r, c), tail);
    } else if OnBoard(r, c) && Opposite(b[r][c], b[row][col]) {
      assert s == [(r, c)];
    } else {
      assert s == [];
    }
  }

  /** Every square of a scan from step k lies in the ray's direction at
      least k steps away, on the board and blank or enemy; no square is
      listed twice. */
  lemma ScanShape(b: seq<seq<char>>, row: int, col: int, dr: int, dc: int, k: int)
    requires IsBoard(b) && OnBoard(row, col) && IsDir(dr, dc) && k >= 1
    ensures forall e :: e in Scan(b, row, col, dr, dc, k) ==> Beyond(row, col, dr, dc, k, e)
    ensures Sound(b, row, col, Scan(b, row, col, dr, dc, k))
    ensures Distinct(Scan(b, row, col, dr, dc, k))
  {
    ScanPlaced(b, row, col, dr, dc, k);
    ScanDistinct(b, row, col, dr, dc, k);
  }

  /** Every square of a ray lies strictly in its direction from the origin,
      is on the board and blank or enemy, and no square is listed twice. */
  lemma RayShape(b: seq<seq<char>>, row: int, col: int, dr: int, dc: int)
    requires IsBoard(b) && OnBoard(row, col) && IsDir(dr, dc)
    ensures forall e :: e in Ray(b, row, col, dr, dc) ==>
      Sign(e.0 - row) == dr && Sign(e.1 - col) == dc &&
      (dr != 0 && dc != 0 ==> Abs(e.0 - row) == Abs(e.1 - col))
    ensures Distinct(Ray(b, row, col, dr, dc))
    ensures Sound(b, row, col, Ray(b, row, col, dr, dc))
  {
    ScanShape(b, row, col, dr, dc, 1);
  }

  /** One step of a scan, unfolded. */
  lemma ScanStep(b: seq<seq<char>>, row: int, col: int, dr: int, dc: int, k: int)
    requires IsBoard(b) && OnBoard(row, col) && IsDir(dr, dc) && k >= 1
    ensures !OnBoard(Step(row, dr, k), Step(col, dc, k)) ==> Scan(b, row, col, dr, dc, k) == []
    ensures OnBoard(Step(row, dr, k), Step(col, dc, k)) ==>
      var r, c := Step(row, dr, k), Step(col, dc, k);
      Scan(b, row, col, dr, dc, k) ==
        if b[r][c] == ' ' then [(r, c)] + Scan(b, row, col, dr, dc, k + 1)
        else if Opposite(b[r][c], b[row][col]) then [(r, c)] else []
  {}

  /** A ray that has left the board stays off it. */
  lemma OffBoardBeyond(row: int, col: int, dr: int, dc: int, k: int, m: int)
    requires OnBoard(row, col) && IsDir(dr, dc) && 0 <= k <= m && !OnBoard(Step(row, dr, k), Step(col, dc, k))
    ensures !OnBoard(Step(row, dr, m), Step(col, dc, m))
  {
  }

  /** Different steps along a ray are different squares. */
  lemma StepApart(row: int, col: int, dr: int, dc: int, k: int, m: int)
    requires IsDir(dr, dc) && k < m
    ensures (Step(row, dr, k), Step(col, dc, k)) != (Step(row, dr, m), Step(col, dc, m))
  {
  }

  /** A stretch that starts on a blank square is clear iff the rest is. */
  lemma ClearFirst(b: seq<seq<char>>, sx: int, sy: int, dx: int, dy: int, lo: int, hi: int)
    requires IsBoard(b) && lo < hi && EmptyAt(b, Step(sx, dx, lo), Step(sy, dy, lo))
    ensures ClearBetween(b, sx, sy, dx, dy, lo, hi) <==> ClearBetween(b, sx, sy, dx, dy, lo + 1, hi)
  {
  }

  /** Ray membership, square by square: the square `m` steps away is listed
      exactly when it is on the board, every square before it on the ray
      (from step `k` on) is blank, and it is blank or holds an enemy. */
  lemma {:induction false} ScanAt(b: seq<seq<char>>, row: int, col: int, dr: int, dc: int, k: int, m: int)
    requires IsBoard(b) && OnBoard(row, col) && IsDir(dr, dc) && 1 <= k <= m
    ensures (Step(row, dr, m), Step(col, dc, m)) in Scan(b, row, col, dr, dc, k) <==>
      OnBoard(Step(row, dr, m), Step(col, dc, m)) &&
      ClearBetween(b, row, col, dr, dc, k, m) &&
      Reachable(b[Step(row, dr, m)][Step(col, dc, m)], b[row][col])
    decreases m - k
  {
    var r, c := Step(row, dr, k), Step(col, dc, k);
    if !OnBoard(r, c) {
      assert Scan(b, row, col, dr, dc, k) == [];
      OffBoardBeyond(row, col, dr, dc, k, m);
    } else if m == k {
      assert ClearBetween(b, row, col, dr, dc, k, m);
    } else {
      StepApart(row, col, dr, dc, k, m);
      if b[r][c] == ' ' {
        assert Scan(b, row, col, dr, dc, k) == [(r, c)] + Scan(b, row, col, dr, dc, k + 1);
        ScanAt(b, row, col, dr, dc, k + 1, m);
        ClearFirst(b, row, col, dr, dc, k, m);
      } else {
        assert !EmptyAt(b, r, c);
        assert !ClearBetween(b, row, col, dr, dc, k, m);
      }
    }
  }

  /** Sliding halt, in the terms brain.py's loops use: along a ray every
      square up to the first occupied one is listed, the first occupied one is
      listed only when it holds an enemy, and nothing beyond it is listed. */
  lemma RayHalts(b: seq<seq<char>>, row: int, col: int, dr: int, dc: int, j: int, m: int)
    requires IsBoard(b) && OnBoard(row, col) && IsDir(dr, dc) && 1 <= j < m
    requires OnBoard(Step(row, dr, j), Step(col, dc, j))
    requires b[Step(row, dr, j)][Step(col, dc, j)] != ' '
    ensures (Step(row, dr, m), Step(col, dc, m)) !in Ray(b, row, col, dr, dc)
  {
    ScanAt(b, row, col, dr, dc, 1, m);
    assert !EmptyAt(b, Step(row, dr, j), Step(col, dc, j));
  }

  /** rook: up, down, left, right (brain.py get_rook_moves); at most the
      fourteen other squares of its row and column. */
  function RookMoves(b: seq<seq<char>>, row: int, col: int): (s: seq<Square>)
    requires IsBoard(b) && OnBoard(row, col)
    ensures |s| <= 14
  {
    Ray(b, row, col, -1, 0) + Ray(b, row, col, 1, 0) + Ray(b, row, col, 0, -1) + Ray(b, row, col, 0, 1)
  }

  /** Every rook destination is on the board, blank or enemy, listed once,
      and shares exactly one of the rook's row and column. */
  lemma RookShape(b: seq<seq<char>>, row: int, col: int)
    requires IsBoard(b) && OnBoard(row, col)
    ensures Sound(b, row, col, RookMoves(b, row, col))
    ensures Distinct(RookMoves(b, row, col))
    ensures forall e :: e in RookMoves(b, row, col) ==> (e.0 == row) != (e.1 == col)
  {
    RayShape(b, row, col, -1, 0);
    RayShape(b, row, col, 1, 0);
    RayShape(b, row, col, 0, -1);
    RayShape(b, row, col, 0, 1);
    var up, down, left, right := Ray(b, row, col, -1, 0), Ray(b, row, col, 1, 0),
                                 Ray(b, row, col, 0, -1), Ray(b, row, col, 0, 1);
    DistinctConcat(up, down);
    DistinctConcat(up + down, left);
    DistinctConcat(up + down + left, right);
  }

  /** bishop: up-left, up-right, down-left, down-right (brain.py
      get_bishop_moves); no square has more than thirteen diagonal
      neighbours. */
  function BishopMoves(b: seq<seq<char>>, row: int, col: int): (s: seq<Square>)
    requires IsBoard(b) && OnBoard(row, col)
    ensures |s| <= 13
  {
    Ray(b, row, col, -1, -1) + Ray(b, row, col, -1, 1) + Ray(b, row, col, 1, -1) + Ray(b, row, col, 1, 1)
  }

  /** Every bishop destination is on the board, blank or enemy, listed once,
      and on one of the bishop's diagonals. */
  lemma BishopShape(b: seq<seq<char>>, row: int, col: int)
    requires IsBoard(b) && OnBoard(row, col)
    ensures Sound(b, row, col, BishopMoves(b, row, col))
    ensures Distinct(BishopMoves(b, row, col))
    ensures forall e :: e in BishopMoves(b, row, col) ==> e.0 != row && Abs(e.0 - row) == Abs(e.1 - col)
  {
    RayShape(b, row, col, -1, -1);
    RayShape(b, row, col, -1, 1);
    RayShape(b, row, col, 1, -1);
    RayShape(b, row, col, 1, 1);
    var ul, ur, dl, dr := Ray(b, row, col, -1, -1), Ray(b, row, col, -1, 1),
                          Ray(b, row, col, 1, -1), Ray(b, row, col, 1, 1);
    DistinctConcat(ul, ur);
    DistinctConcat(ul + ur, dl);
    DistinctConcat(ul + ur + dl, dr);
  }

  /** queen: the rook list followed by the bishop list (brain.py get_queen_moves). */
  function QueenMoves(b: seq<seq<char>>, row: int, col: int): (s: seq<Square>)
    requires IsBoard(b) && OnBoard(row, col)
    ensures |s| <= 27
  {
    RookMoves(b, row, col) + BishopMoves(b, row, col)
  }

  lemma AppendStep(a: seq<Square>, x: Square, t: seq<Square>)
    ensures (a + [x]) + t == a + ([x] + t)
  {}

  lemma DistinctConcat(a: seq<Square>, c: seq<Square>)
    requires Distinct(a) && Distinct(c)
    requires forall e :: e in a ==> e !in c
    ensures Distinct(a + c)
  {
    forall i, j | 0 <= i < j < |a + c| ensures (a + c)[i] != (a + c)[j] {
      if j >= |a| && i < |a| {
        assert (a + c)[i] in a && (a + c)[j] in c;
      }
    }
  }

  // ---------------------------------------------------------------------
  // Stepping pieces

  /** The candidates of an offset table that are on the board and blank or
      hold an enemy, in table order (the loop body of get_knight_moves and
      get_king_moves). */
  function Landing(b: seq<seq<char>>, row: int, col: int, targets: seq<Square>): (s: seq<Square>)
    requires IsBoard(b) && OnBoard(row, col)
    ensures |s| <= |targets|
  {
    if targets == [] then []
    else
      var t := targets[0];
      var rest := Landing(b, row, col, targets[1..]);
      (if OnBoard(t.0, t.1) && Reachable(b[t.0][t.1], b[row][col]) then [t] else []) + rest
  }

  /** A candidate is kept iff it is on the board and blank or enemy; a table
      without repeats gives a list without repeats. */
  lemma {:induction false} LandingMembers(b: seq<seq<char>>, row: int, col: int, targets: seq<Square>)
    requires IsBoard(b) && OnBoard(row, col)
    ensures forall e :: e in Landing(b, row, col, targets) <==>
      e in targets && OnBoard(e.0, e.1) && Reachable(b[e.0][e.1], b[row][col])
    ensures Distinct(targets) ==> Distinct(Landing(b, row, col, targets))
  {
    if targets != [] {
      var t, tail := targets[0], targets[1..];
      LandingMembers(b, row, col, tail);
      assert forall e :: e in targets <==> e == t || e in tail;
      if Distinct(targets) {
        assert Distinct(tail);
        assert t !in tail;
        var head := if OnBoard(t.0, t.1) && Reachable(b[t.0][t.1], b[row][col]) then [t] else [];
        DistinctConcat(head, Landing(b, row, col, tail));
      }
    }
  }

  function KnightOffsets(row: int, col: int): seq<Square> {
    [ (row - 2, col - 1), (row - 2, col + 1), (row - 1, col - 2), (row - 1, col + 2),
      (row + 1, col - 2), (row + 1, col + 2), (row + 2, col - 1), (row + 2, col + 1) ]
  }

  function KingOffsets(row: int, col: int): seq<Square> {
    [ (row - 1, col - 1), (row - 1, col), (row - 1, col + 1), (row, col - 1),
      (row, col + 1), (row + 1, col - 1), (row + 1, col), (row + 1, col + 1) ]
  }

  /** An L-shaped knight jump from (row, col) to e. */
  predicate KnightJump(row: int, col: int, e: Square) {
    (Abs(e.0 - row) == 2 && Abs(e.1 - col) == 1) || (Abs(e.0 - row) == 1 && Abs(e.1 - col) == 2)
  }

  /** One king step from (row, col) to e. */
  predicate KingStep(row: int, col: int, e: Square) {
    Abs(e.0 - row) <= 1 && Abs(e.1 - col) <= 1 && e != (row, col)
  }

  /** The two offset tables list eight different squares. */
  lemma OffsetsDistinct(t: seq<Square>, row: int, col: int)
    requires t == KnightOffsets(row, col) || t == KingOffsets(row, col)
    ensures Distinct(t)
  {
    forall i, j | 0 <= i < j < |t| ensures t[i] != t[j] {
      var di, dj := (t[i].0 - row, t[i].1 - col), (t[j].0 - row, t[j].1 - col);
      assert di != dj;
    }
  }

  lemma KnightTable(row: int, col: int, e: Square)
    ensures e in KnightOffsets(row, col) <==> KnightJump(row, col, e)
  {
    if KnightJump(row, col, e) {
      var t := KnightOffsets(row, col);
      if e.0 == row - 2 {
        if e.1 == col - 1 { assert e == t[0]; } else { assert e == t[1]; }
      } else if e.0 == row - 1 {
        if e.1 == col - 2 { assert e == t[2]; } else { assert e == t[3]; }
      } else if e.0 == row + 1 {
        if e.1 == col - 2 { assert e == t[4]; } else { assert e == t[5]; }
      } else {
        if e.1 == col - 1 { assert e == t[6]; } else { assert e == t[7]; }
      }
    }
  }

  lemma KingTable(row: int, col: int, e: Square)
    ensures e in KingOffsets(row, col) <==> KingStep(row, col, e)
  {
    if KingStep(row, col, e) {
      var t := KingOffsets(row, col);
      if e.0 == row - 1 {
        if e.1 == col - 1 { assert e == t[0]; } else if e.1 == col { assert e == t[1]; } else { assert e == t[2]; }
      } else if e.0 == row {
        if e.1 == col - 1 { assert e == t[3]; } else { assert e == t[4]; }
      } else {
        if e.1 == col - 1 { assert e == t[5]; } else if e.1 == col { assert e == t[6]; } else { assert e == t[7]; }
      }
    }
  }

  /** knight (brain.py get_knight_moves): at most its eight jumps. */
  function KnightMoves(b: seq<seq<char>>, row: int, col: int): (s: seq<Square>)
    requires IsBoard(b) && OnBoard(row, col)
    ensures |s| <= 8
  {
    Landing(b, row, col, KnightOffsets(row, col))
  }

  /** A square is a knight destination iff it is an L-shaped jump away, on
      the board, and blank or enemy; none is listed twice. */
  lemma KnightMembers(b: seq<seq<char>>, row: int, col: int)
    requires IsBoard(b) && OnBoard(row, col)
    ensures forall e :: e in KnightMoves(b, row, col) <==>
      KnightJump(row, col, e) && OnBoard(e.0, e.1) && Reachable(b[e.0][e.1], b[row][col])
    ensures Distinct(KnightMoves(b, row, col))
    ensures Sound(b, row, col, KnightMoves(b, row, col)) && (row, col) !in KnightMoves(b, row, col)
  {
    var t := KnightOffsets(row, col);
    forall e ensures e in t <==> KnightJump(row, col, e) { KnightTable(row, col, e); }
    OffsetsDistinct(t, row, col);
    LandingMembers(b, row, col, t);
  }

  /** king (brain.py get_king_moves): at most its eight neighbours. */
  function KingMoves(b: seq<seq<char>>, row: int, col: int): (s: seq<Square>)
    requires IsBoard(b) && OnBoard(row, col)
    ensures |s| <= 8
  {
    Landing(b, row, col, KingOffsets(row, col))
  }

  /** A square is a king destination iff it is one step away in any
      direction, on the board, and blank or enemy; none is listed twice. */
  lemma KingMembers(b: seq<seq<char>>, row: int, col: int)
    requires IsBoard(b) && OnBoard(row, col)
    ensures forall e :: e in KingMoves(b, row, col) <==>
      KingStep(row, col, e) && OnBoard(e.0, e.1) && Reachable(b[e.0][e.1], b[row][col])
    ensures Distinct(KingMoves(b, row, col))
    ensures Sound(b, row, col, KingMoves(b, row, col)) && (row, col) !in KingMoves(b, row, col)
  {
    var t := KingOffsets(row, col);
    forall e ensures e in t <==> KingStep(row, col, e) { KingTable(row, col, e); }
    OffsetsDistinct(t, row, col);
    LandingMembers(b, row, col, t);
  }

  // ---------------------------------------------------------------------
  // Pawns

  /** A one-square list when the condition holds, else the empty list. */
  function When(cond: bool, x: Square): seq<Square> {
    if cond then [x] else []
  }

  /** Four optional squares, pairwise different, make a list without repeats
      whose members are exactly the squares whose condition holds. */
  lemma WhenFour(c1: bool, x1: Square, c2: bool, x2: Square, c3: bool, x3: Square, c4: bool, x4: Square)
    requires x1 != x2 && x1 != x3 && x1 != x4 && x2 != x3 && x2 != x4 && x3 != x4
    ensures forall e :: e in When(c1, x1) + When(c2, x2) + When(c3, x3) + When(c4, x4) <==>
      (c1 && e == x1) || (c2 && e == x2) || (c3 && e == x3) || (c4 && e == x4)
    ensures Distinct(When(c1, x1) + When(c2, x2) + When(c3, x3) + When(c4, x4))
  {
    var s12 := When(c1, x1) + When(c2, x2);
    DistinctConcat(When(c1, x1), When(c2, x2));
    DistinctConcat(s12, When(c3, x3));
    DistinctConcat(s12 + When(c3, x3), When(c4, x4));
  }

  /** WhenFour's membership, at one square. */
  lemma WhenFourAt(c1: bool, x1: Square, c2: bool, x2: Square, c3: bool, x3: Square, c4: bool, x4: Square, e: Square)
    ensures e in When(c1, x1) + When(c2, x2) + When(c3, x3) + When(c4, x4) <==>
      (c1 && e == x1) || (c2 && e == x2) || (c3 && e == x3) || (c4 && e == x4)
  {
  }

  /** Black pawn, moving towards row 7 (brain.py get_black_pawn_moves).
      The double step is listed only from row 1, and only together with the
      single step it passes over. */
  function BlackPawnMoves(b: seq<seq<char>>, row: int, col: int): (s: seq<Square>)
    requires IsBoard(b) && OnBoard(row, col)
    ensures (row + 2, col) in s ==> row == 1 && (row + 1, col) in s
    ensures |s| <= 4
  {
    When(OnBoard(row + 1, col) && b[row + 1][col] == ' ', (row + 1, col)) +
    When(row == 1 && b[row + 1][col] == ' ' && b[row + 2][col] == ' ', (row + 2, col)) +
    When(OnBoard(row + 1, col - 1) && IsUpper(b[row + 1][col - 1]), (row + 1, col - 1)) +
    When(OnBoard(row + 1, col + 1) && IsUpper(b[row + 1][col + 1]), (row + 1, col + 1))
  }

  /** White pawn, moving towards row 0 (brain.py get_white_pawn_moves).
      The double step is listed only from row 6, and only together with the
      single step it passes over. */
  function WhitePawnMoves(b: seq<seq<char>>, row: int, col: int): (s: seq<Square>)
    requires IsBoard(b) && OnBoard(row, col)
    ensures (row - 2, col) in s ==> row == 6 && (row - 1, col) in s
    ensures |s| <= 4
  {
    When(OnBoard(row - 1, col) && b[row - 1][col] == ' ', (row - 1, col)) +
    When(row == 6 && b[row - 1][col] == ' ' && b[row - 2][col] == ' ', (row - 2, col)) +
    When(OnBoard(row - 1, col - 1) && IsLower(b[row - 1][col - 1]), (row - 1, col - 1)) +
    When(OnBoard(row - 1, col + 1) && IsLower(b[row - 1][col + 1]), (row - 1, col + 1))
  }

  /** Every Black pawn destination is on the board and blank or White, one
      row further down, and listed once. */
  lemma BlackPawnShape(b: seq<seq<char>>, row: int, col: int)
    requires IsBoard(b) && OnBoard(row, col)
    ensures forall e :: e in BlackPawnMoves(b, row, col) ==>
      OnBoard(e.0, e.1) && (b[e.0][e.1] == ' ' || IsUpper(b[e.0][e.1])) && e.0 > row
    ensures Distinct(BlackPawnMoves(b, row, col))
  {
    var c1 := OnBoard(row + 1, col) && b[row + 1][col] == ' ';
    var c2 := row == 1 && b[row + 1][col] == ' ' && b[row + 2][col] == ' ';
    var c3 := OnBoard(row + 1, col - 1) && IsUpper(b[row + 1][col - 1]);
    var c4 := OnBoard(row + 1, col + 1) && IsUpper(b[row + 1][col + 1]);
    var x1, x2, x3, x4 := (row + 1, col), (row + 2, col), (row + 1, col - 1), (row + 1, col + 1);
    assert BlackPawnMoves(b, row, col) == When(c1, x1) + When(c2, x2) + When(c3, x3) + When(c4, x4);
    WhenFour(c1, x1, c2, x2, c3, x3, c4, x4);
    forall e | e in BlackPawnMoves(b, row, col)
      ensures OnBoard(e.0, e.1) && (b[e.0][e.1] == ' ' || IsUpper(b[e.0][e.1])) && e.0 > row
    {
      if e == x1 { assert c1; }
      else if e == x2 { assert c2; }
      else if e == x3 { assert c3; }
      else { assert c4 && e == x4; }
    }
  }

  /** Every White pawn destination is on the board and blank or Black, one
      row further up, and listed once. */
  lemma WhitePawnShape(b: seq<seq<char>>, row: int, col: int)
    requires IsBoard(b) && OnBoard(row, col)
    ensures forall e :: e in WhitePawnMoves(b, row, col) ==>
      OnBoard(e.0, e.1) && (b[e.0][e.1] == ' ' || IsLower(b[e.0][e.1])) && e.0 < row
    ensures Distinct(WhitePawnMoves(b, row, col))
  {
    var c1 := OnBoard(row - 1, col) && b[row - 1][col] == ' ';
    var c2 := row == 6 && b[row - 1][col] == ' ' && b[row - 2][col] == ' ';
    var c3 := OnBoard(row - 1, col - 1) && IsLower(b[row - 1][col - 1]);
    var c4 := OnBoard(row - 1, col + 1) && IsLower(b[row - 1][col + 1]);
    var x1, x2, x3, x4 := (row - 1, col), (row - 2, col), (row - 1, col - 1), (row - 1, col + 1);
    assert WhitePawnMoves(b, row, col) == When(c1, x1) + When(c2, x2) + When(c3, x3) + When(c4, x4);
    WhenFour(c1, x1, c2, x2, c3, x3, c4, x4);
    forall e | e in WhitePawnMoves(b, row, col)
      ensures OnBoard(e.0, e.1) && (b[e.0][e.1] == ' ' || IsLower(b[e.0][e.1])) && e.0 < row
    {
      if e == x1 { assert c1; }
      else if e == x2 { assert c2; }
      else if e == x3 { assert c3; }
      else { assert c4 && e == x4; }
    }
  }

  // ---------------------------------------------------------------------
  // Dispatch

  /** brain.py get_possible_moves: the destinations of the piece on
      (row, col), chosen by its letter; no piece has more than the
      queen's twenty-seven. */
  function PossibleMoves(b: seq<seq<char>>, row: int, col: int): (s: seq<Square>)
    requires IsBoard(b) && OnBoard(row, col)
    ensures |s| <= 27
  {
    var p := b[row][col];
    if p == 'r' || p == 'R' then RookMoves(b, row, col)
    else if p == 'n' || p == 'N' then KnightMoves(b, row, col)
    else if p == 'b' || p == 'B' then BishopMoves(b, row, col)
    else if p == 'q' || p == 'Q' then QueenMoves(b, row, col)
    else if p == 'k' || p == 'K' then KingMoves(b, row, col)
    else if p == 'p' then BlackPawnMoves(b, row, col)
    else if p == 'P' then WhitePawnMoves(b, row, col)
    else []
  }

  /** The shape facts of PossibleMovesShape for the sliding pieces. */
  lemma SliderShape(b: seq<seq<char>>, row: int, col: int)
    requires IsBoard(b) && OnBoard(row, col) && b[row][col] in "rRbBqQ"
    ensures Sound(b, row, col, PossibleMoves(b, row, col))
    ensures Distinct(PossibleMoves(b, row, col))
    ensures (row, col) !in PossibleMoves(b, row, col)
  {
    var p, r := b[row][col], PossibleMoves(b, row, col);
    RookShape(b, row, col);
    BishopShape(b, row, col);
    if p == 'r' || p == 'R' {
      assert r == RookMoves(b, row, col);
    } else if p == 'b' || p == 'B' {
      assert r == BishopMoves(b, row, col);
    } else {
      DistinctConcat(RookMoves(b, row, col), BishopMoves(b, row, col));
      assert r == RookMoves(b, row, col) + BishopMoves(b, row, col);
    }
  }

  /** The shape facts of PossibleMovesShape for the knight and the king. */
  lemma LeaperShape(b: seq<seq<char>>, row: int, col: int)
    requires IsBoard(b) && OnBoard(row, col) && b[row][col] in "nNkK"
    ensures Sound(b, row, col, PossibleMoves(b, row, col))
    ensures Distinct(PossibleMoves(b, row, col))
    ensures (row, col) !in PossibleMoves(b, row, col)
  {
    var p := b[row][col];
    if p == 'n' || p == 'N' {
      assert PossibleMoves(b, row, col) == KnightMoves(b, row, col);
      KnightMembers(b, row, col);
    } else {
      assert PossibleMoves(b, row, col) == KingMoves(b, row, col);
      KingMembers(b, row, col);
    }
  }

  /** The shape facts of PossibleMovesShape for pawns and non-pieces. */
  lemma PawnShape(b: seq<seq<char>>, row: int, col: int)
    requires IsBoard(b) && OnBoard(row, col) && b[row][col] !in "rRbBqQnNkK"
    ensures Sound(b, row, col, PossibleMoves(b, row, col))
    ensures Distinct(PossibleMoves(b, row, col))
    ensures !IsPieceLetter(b[row][col]) ==> PossibleMoves(b, row, col) == []
    ensures (row, col) !in PossibleMoves(b, row, col)
  {
    var p := b[row][col];
    if p == 'p' {
      assert PossibleMoves(b, row, col) == BlackPawnMoves(b, row, col);
      BlackPawnShape(b, row, col);
    } else if p == 'P' {
      assert PossibleMoves(b, row, col) == WhitePawnMoves(b, row, col);
      WhitePawnShape(b, row, col);
    } else {
      assert PossibleMoves(b, row, col) == [];
    }
  }

  /** What every list get_possible_moves returns satisfies: on the board,
      blank or enemy, no repeats, never the piece's own square; and a square
      without a piece letter has no moves. */
  lemma PossibleMovesShape(b: seq<seq<char>>, row: int, col: int)
    requires IsBoard(b) && OnBoard(row, col)
    ensures Sound(b, row, col, PossibleMoves(b, row, col))
    ensures Distinct(PossibleMoves(b, row, col))
    ensures !IsPieceLetter(b[row][col]) ==> PossibleMoves(b, row, col) == []
    ensures (row, col) !in PossibleMoves(b, row, col)
  {
    if b[row][col] in "rRbBqQ" {
      SliderShape(b, row, col);
    } else if b[row][col] in "nNkK" {
      LeaperShape(b, row, col);
    } else {
      PawnShape(b, row, col);
    }
  }


  // ---------------------------------------------------------------------
  // Colour symmetry: the generators read a cell only through "blank?" and
  // "the other side?", so handing every piece to the other side changes
  // no list of a rook, knight, bishop, queen or king.

  /** A cell of the swapped board is blank, or an enemy of the swapped
      origin, exactly when it was so before the swap. */
  lemma SwapCell(b: seq<seq<char>>, row: int, col: int, r: int, c: int)
    requires IsBoard(b) && OnBoard(row, col) && OnBoard(r, c)
    ensures SwapBoard(b)[r][c] == ' ' <==> b[r][c] == ' '
    ensures Opposite(SwapBoard(b)[r][c], SwapBoard(b)[row][col]) <==> Opposite(b[r][c], b[row][col])
  {
    var s := SwapBoard(b);
    assert s[r][c] == SwapCase(b[r][c]) && s[row][col] == SwapCase(b[row][col]);
  }

  /** A scan is blind to which side owns the pieces. */
  lemma {:induction false} ScanSwap(b: seq<seq<char>>, row: int, col: int, dr: int, dc: int, k: int)
    requires IsBoard(b) && OnBoard(row, col) && IsDir(dr, dc) && k >= 1
    ensures Scan(SwapBoard(b), row, col, dr, dc, k) == Scan(b, row, col, dr, dc, k)
    decreases 8 - k
  {
    var r, c := Step(row, dr, k), Step(col, dc, k);
    if OnBoard(r, c) {
      SwapCell(b, row, col, r, c);
      if b[r][c] == ' ' {
        ScanSwap(b, row, col, dr, dc, k + 1);
      }
    }
  }

  /** The table filter is blind to which side owns the pieces. */
  lemma {:induction false} LandingSwap(b: seq<seq<char>>, row: int, col: int, targets: seq<Square>)
    requires IsBoard(b) && OnBoard(row, col)
    ensures Landing(SwapBoard(b), row, col, targets) == Landing(b, row, col, targets)
  {
    if targets != [] {
      var s, t := SwapBoard(b), targets[0];
      LandingSwap(b, row, col, targets[1..]);
      if OnBoard(t.0, t.1) {
        assert s[t.0][t.1] == SwapCase(b[t.0][t.1]) && s[row][col] == SwapCase(b[row][col]);
      }
    }
  }

  /** The rook's and the bishop's lists are blind to colour. */
  lemma SliderSwap(b: seq<seq<char>>, row: int, col: int)
    requires IsBoard(b) && OnBoard(row, col)
    ensures RookMoves(SwapBoard(b), row, col) == RookMoves(b, row, col)
    ensures BishopMoves(SwapBoard(b), row, col) == BishopMoves(b, row, col)
  {
    ScanSwap(b, row, col, -1, 0, 1);
    ScanSwap(b, row, col, 1, 0, 1);
    ScanSwap(b, row, col, 0, -1, 1);
    ScanSwap(b, row, col, 0, 1, 1);
    ScanSwap(b, row, col, -1, -1, 1);
    ScanSwap(b, row, col, -1, 1, 1);
    ScanSwap(b, row, col, 1, -1, 1);
    ScanSwap(b, row, col, 1, 1, 1);
  }

  /** A swapped letter names the same kind, so get_possible_moves takes the
      same branch for it. */
  lemma SwapKind(p: char)
    ensures (p == 'r' || p == 'R') <==> (SwapCase(p) == 'r' || SwapCase(p) == 'R')
    ensures (p == 'n' || p == 'N') <==> (SwapCase(p) == 'n' || SwapCase(p) == 'N')
    ensures (p == 'b' || p == 'B') <==> (SwapCase(p) == 'b' || SwapCase(p) == 'B')
    ensures (p == 'q' || p == 'Q') <==> (SwapCase(p) == 'q' || SwapCase(p) == 'Q')
    ensures (p == 'k' || p == 'K') <==> (SwapCase(p) == 'k' || SwapCase(p) == 'K')
  {
  }

  /** The dispatch for a slider, on a board and on its colour swap. */
  lemma SliderDispatch(b: seq<seq<char>>, row: int, col: int)
    requires IsBoard(b) && OnBoard(row, col)
    requires var p := b[row][col]; p == 'r' || p == 'R' || p == 'b' || p == 'B' || p == 'q' || p == 'Q'
    ensures PossibleMoves(SwapBoard(b), row, col) == PossibleMoves(b, row, col)
  {
    var s, p := SwapBoard(b), b[row][col];
    assert s[row][col] == SwapCase(p);
    SwapKind(p);
    SliderSwap(b, row, col);
  }

  /** The dispatch for a knight or a king, on a board and on its colour swap. */
  lemma LeaperDispatch(b: seq<seq<char>>, row: int, col: int)
    requires IsBoard(b) && OnBoard(row, col)
    requires var p := b[row][col]; p == 'n' || p == 'N' || p == 'k' || p == 'K'
    ensures PossibleMoves(SwapBoard(b), row, col) == PossibleMoves(b, row, col)
  {
    var s, p := SwapBoard(b), b[row][col];
    assert s[row][col] == SwapCase(p);
    SwapKind(p);
    LandingSwap(b, row, col, KnightOffsets(row, col));
    LandingSwap(b, row, col, KingOffsets(row, col));
  }

  /** Swapping the colour of every piece leaves the list of a rook, knight,
      bishop, queen or king unchanged, order included. (A pawn's list is not:
      the two colours move in opposite directions.) */
  lemma PossibleMovesSwap(b: seq<seq<char>>, row: int, col: int)
    requires IsBoard(b) && OnBoard(row, col) && b[row][col] in "rRnNbBqQkK"
    ensures PossibleMoves(SwapBoard(b), row, col) == PossibleMoves(b, row, col)
  {
    var p := b[row][col];
    if p == 'n' || p == 'N' || p == 'k' || p == 'K' {
      LeaperDispatch(b, row, col);
    } else {
      SliderDispatch(b, row, col);
    }
  }

  /** brain.py's example block, first call: on the starting position the
      rook on (0, 0) has no move (board edge above and left, its own pieces
      below and right). */
  lemma StartRookExample()
    ensures PossibleMoves(StartPosition(), 0, 0) == []
  {
    var b := StartPosition();
    ScanStep(b, 0, 0, -1, 0, 1);
    ScanStep(b, 0, 0, 1, 0, 1);
    ScanStep(b, 0, 0, 0, -1, 1);
    ScanStep(b, 0, 0, 0, 1, 1);
    assert RookMoves(b, 0, 0) == [];
  }

  /** A knight table entry, unfolded at the front of the list. */
  lemma LandingCons(b: seq<seq<char>>, row: int, col: int, x: Square, rest: seq<Square>)
    requires IsBoard(b) && OnBoard(row, col)
    ensures Landing(b, row, col, [x] + rest) ==
      (if OnBoard(x.0, x.1) && Reachable(b[x.0][x.1], b[row][col]) then [x] else []) + Landing(b, row, col, rest)
  {
    assert ([x] + rest)[0] == x && ([x] + rest)[1..] == rest;
  }

  /** The last four offsets of a knight on (0, 1): (1, -1) is off the board,
      (1, 3) holds its own pawn, (2, 0) and (2, 2) are blank. */
  lemma KnightCornerLate(b: seq<seq<char>>)
    requires IsBoard(b) && b[0][1] == 'n' && b[1][3] == 'p' && b[2][0] == ' ' && b[2][2] == ' '
    ensures Landing(b, 0, 1, [(1, -1), (1, 3), (2, 0), (2, 2)]) == [(2, 0), (2, 2)]
  {
    LandingCons(b, 0, 1, (2, 2), []);
    LandingCons(b, 0, 1, (2, 0), [(2, 2)]);
    LandingCons(b, 0, 1, (1, 3), [(2, 0), (2, 2)]);
    LandingCons(b, 0, 1, (1, -1), [(1, 3), (2, 0), (2, 2)]);
  }

  /** The first four offsets of a knight on (0, 1) are off the board. */
  lemma KnightCornerEarly(b: seq<seq<char>>, late: seq<Square>)
    requires IsBoard(b)
    ensures Landing(b, 0, 1, [(-2, 0), (-2, 2), (-1, -1), (-1, 3)] + late) == Landing(b, 0, 1, late)
  {
    LandingCons(b, 0, 1, (-1, 3), late);
    LandingCons(b, 0, 1, (-1, -1), [(-1, 3)] + late);
    LandingCons(b, 0, 1, (-2, 2), [(-1, -1), (-1, 3)] + late);
    LandingCons(b, 0, 1, (-2, 0), [(-2, 2), (-1, -1), (-1, 3)] + late);
    assert [(-2, 0), (-2, 2), (-1, -1), (-1, 3)] + late == [(-2, 0)] + ([(-2, 2)] + ([(-1, -1)] + ([(-1, 3)] + late)));
  }

  /** A knight on (0, 1) with its own pawn on (1, 3) and (2, 0), (2, 2)
      blank reaches exactly those two blank squares. */
  lemma KnightCorner(b: seq<seq<char>>)
    requires IsBoard(b) && b[0][1] == 'n' && b[1][3] == 'p' && b[2][0] == ' ' && b[2][2] == ' '
    ensures PossibleMoves(b, 0, 1) == [(2, 0), (2, 2)]
  {
    var late := [(1, -1), (1, 3), (2, 0), (2, 2)];
    assert KnightOffsets(0, 1) == [(-2, 0), (-2, 2), (-1, -1), (-1, 3)] + late;
    KnightCornerLate(b);
    KnightCornerEarly(b, late);
  }

  /** Second call: the knight on (0, 1) reaches (2, 0) and (2, 2), in the
      order of its offset table. */
  lemma StartKnightExample()
    ensures PossibleMoves(StartPosition(), 0, 1) == [(2, 0), (2, 2)]
  {
    var b := StartPosition();
    assert b[0][1] == 'n' && b[1][3] == 'p' && b[2][0] == ' ' && b[2][2] == ' ';
    KnightCorner(b);
  }

  /** A White pawn on (6, 0) with (5, 0) and (4, 0) blank and nothing to
      capture on (5, 1) has its single and its double step. */
  lemma PawnCorner(b: seq<seq<char>>)
    requires IsBoard(b) && b[6][0] == 'P' && b[5][0] == ' ' && b[4][0] == ' ' && b[5][1] == ' '
    ensures PossibleMoves(b, 6, 0) == [(5, 0), (4, 0)]
  {
    assert WhitePawnMoves(b, 6, 0) == [(5, 0)] + [(4, 0)] + [] + [];
  }

  /** Third call: the White pawn on (6, 0) has its single and its double
      step. */
  lemma StartPawnExample()
    ensures PossibleMoves(StartPosition(), 6, 0) == [(5, 0), (4, 0)]
  {
    var b := StartPosition();
    assert b[6][0] == 'P' && b[5][0] == ' ' && b[4][0] == ' ' && b[5][1] == ' ';
    PawnCorner(b);
  }


  // ---------------------------------------------------------------------
  // The generators as brain.py writes them, with their loops

  /** The walk of Slide after reading the square k steps away. */
  lemma SlideStep(b: seq<seq<char>>, row: int, col: int, dr: int, dc: int, k: int, moves: seq<Square>)
    requires IsBoard(b) && OnBoard(row, col) && IsDir(dr, dc) && k >= 1
    requires OnBoard(Step(row, dr, k), Step(col, dc, k))
    requires moves + Scan(b, row, col, dr, dc, k) == Ray(b, row, col, dr, dc)
    ensures k < 8
    ensures b[Step(row, dr, k)][Step(col, dc, k)] == ' ' ==>
      (moves + [(Step(row, dr, k), Step(col, dc, k))]) + Scan(b, row, col, dr, dc, k + 1) == Ray(b, row, col, dr, dc)
    ensures b[Step(row, dr, k)][Step(col, dc, k)] != ' ' ==>
      moves + (if Opposite(b[Step(row, dr, k)][Step(col, dc, k)], b[row][col]) then [(Step(row, dr, k), Step(col, dc, k))] else [])
        == Ray(b, row, col, dr, dc)
  {
    var r, c := Step(row, dr, k), Step(col, dc, k);
    ScanStep(b, row, col, dr, dc, k);
    if b[r][c] == ' ' {
      AppendStep(moves, (r, c), Scan(b, row, col, dr, dc, k + 1));
    }
  }

  /** One ray walked as brain.py walks it: step from the piece, append blank
      squares, and at the first occupied square append it if it holds an
      enemy and stop. Each of the four `for` loops of get_rook_moves and each
      of the four `while is_valid_move(r, c)` loops of get_bishop_moves is
      this walk in one direction; k counts the steps taken. */
  method Slide(board: seq<seq<char>>, row: int, col: int, dr: int, dc: int) returns (moves: seq<Square>)
    requires IsBoard(board) && OnBoard(row, col) && IsDir(dr, dc)
    ensures moves == Ray(board, row, col, dr, dc)
  {
    moves := [];
    var k := 1;
    while OnBoard(Step(row, dr, k), Step(col, dc, k))
      invariant k >= 1
      invariant moves + Scan(board, row, col, dr, dc, k) == Ray(board, row, col, dr, dc)
      decreases 8 - k
    {
      SlideStep(board, row, col, dr, dc, k, moves);
      var r, c := Step(row, dr, k), Step(col, dc, k);
      if board[r][c] == ' ' {
        moves := moves + [(r, c)];
        k := k + 1;
      } else {
        if (IsLower(board[r][c]) && IsUpper(board[row][col])) || (IsUpper(board[r][c]) && IsLower(board[row][col])) {
          moves := moves + [(r, c)];
        }
        return;
      }
    }
    ScanStep(board, row, col, dr, dc, k);
  }

  /** get_rook_moves: up, down, left, right. */
  method GetRookMoves(board: seq<seq<char>>, row: int, col: int) returns (moves: seq<Square>)
    requires IsBoard(board) && OnBoard(row, col)
    ensures moves == RookMoves(board, row, col)
  {
    var up := Slide(board, row, col, -1, 0);
    var down := Slide(board, row, col, 1, 0);
    var left := Slide(board, row, col, 0, -1);
    var right := Slide(board, row, col, 0, 1);
    moves := up + down + left + right;
  }

  /** get_bishop_moves: up-left, up-right, down-left, down-right. */
  method GetBishopMoves(board: seq<seq<char>>, row: int, col: int) returns (moves: seq<Square>)
    requires IsBoard(board) && OnBoard(row, col)
    ensures moves == BishopMoves(board, row, col)
  {
    var ul := Slide(board, row, col, -1, -1);
    var ur := Slide(board, row, col, -1, 1);
    var dl := Slide(board, row, col, 1, -1);
    var dr := Slide(board, row, col, 1, 1);
    moves := ul + ur + dl + dr;
  }

  /** The shared loop of get_knight_moves and get_king_moves: keep, in order,
      the candidates that are on the board and blank or enemy. */
  method FilterLandings(board: seq<seq<char>>, row: int, col: int, candidates: seq<Square>) returns (moves: seq<Square>)
    requires IsBoard(board) && OnBoard(row, col)
    ensures moves == Landing(board, row, col, candidates)
  {
    moves := [];
    for i := 0 to |candidates|
      invariant moves + Landing(board, row, col, candidates[i..]) == Landing(board, row, col, candidates)
    {
      var (r, c) := candidates[i];
      LandingStep(board, row, col, candidates, i);
      if OnBoard(r, c) {
        if board[r][c] == ' ' || (IsLower(board[r][c]) && IsUpper(board[row][col])) || (IsUpper(board[r][c]) && IsLower(board[row][col])) {
          moves := moves + [(r, c)];
        }
      }
    }
    assert candidates[|candidates|..] == [];
  }

  lemma LandingStep(b: seq<seq<char>>, row: int, col: int, t: seq<Square>, i: int)
    requires IsBoard(b) && OnBoard(row, col) && 0 <= i < |t|
    ensures Landing(b, row, col, t[i..]) ==
      (if OnBoard(t[i].0, t[i].1) && Reachable(b[t[i].0][t[i].1], b[row][col]) then [t[i]] else []) + Landing(b, row, col, t[i + 1..])
  {
    assert t[i..][0] == t[i] && t[i..][1..] == t[i + 1..];
  }

  /** get_knight_moves. */
  method GetKnightMoves(board: seq<seq<char>>, row: int, col: int) returns (moves: seq<Square>)
    requires IsBoard(board) && OnBoard(row, col)
    ensures moves == KnightMoves(board, row, col)
  {
    moves := FilterLandings(board, row, col, KnightOffsets(row, col));
  }

  /** get_king_moves. */
  method GetKingMoves(board: seq<seq<char>>, row: int, col: int) returns (moves: seq<Square>)
    requires IsBoard(board) && OnBoard(row, col)
    ensures moves == KingMoves(board, row, col)
  {
    moves := FilterLandings(board, row, col, KingOffsets(row, col));
  }

  /** get_possible_moves, calling the loop versions of the generators. */
  method GetPossibleMoves(board: seq<seq<char>>, row: int, col: int) returns (moves: seq<Square>)
    requires IsBoard(board) && OnBoard(row, col)
    ensures moves == PossibleMoves(board, row, col)
  {
    var piece := board[row][col];
    moves := [];
    if piece == 'r' || piece == 'R' {
      moves := GetRookMoves(board, row, col);
    } else if piece == 'n' || piece == 'N' {
      moves := GetKnightMoves(board, row, col);
    } else if piece == 'b' || piece == 'B' {
      moves := GetBishopMoves(board, row, col);
    } else if piece == 'q' || piece == 'Q' {
      var rook := GetRookMoves(board, row, col);
      var bishop := GetBishopMoves(board, row, col);
      moves := rook + bishop;
    } else if piece == 'k' || piece == 'K' {
      moves := GetKingMoves(board, row, col);
    } else if piece == 'p' {
      moves := BlackPawnMoves(board, row, col);
    } else if piece == 'P' {
      moves := WhitePawnMoves(board, row, col);
    }
  }
}
