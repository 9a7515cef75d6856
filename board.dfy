/** The board as the game programs keep it: eight rows of eight single
    characters. ' ' is an empty square, an upper-case letter a White piece and
    a lower-case letter a Black piece; P N B R Q K name the kind. */
module Board {

  /** A (row, column) pair; on the board when both lie in [0, 7]. */
  type Square = (int, int)

  /** ASCII reading of Python's str.isupper on one character. */
  predicate IsUpper(c: char) { 'A' <= c <= 'Z' }

  /** ASCII reading of Python's str.islower on one character. */
  predicate IsLower(c: char) { 'a' <= c <= 'z' }

  /** ASCII reading of Python's str.lower on one character. */
  function ToLower(c: char): (r: char)
    ensures IsUpper(c) ==> IsLower(r)
    ensures !IsUpper(c) ==> r == c
  {
    if IsUpper(c) then (c as int + 32) as char else c
  }

  /** The same piece for the other side: a letter changes case, anything
      else (the blank included) stays. */
  function SwapCase(c: char): (r: char)
    ensures r == ' ' <==> c == ' '
    ensures IsUpper(r) <==> IsLower(c)
    ensures IsLower(r) <==> IsUpper(c)
  {
    if IsUpper(c) then ToLower(c) else if IsLower(c) then (c as int - 32) as char else c
  }

  /** The board with every piece handed to the other side. */
  function SwapBoard(b: seq<seq<char>>): (r: seq<seq<char>>)
    requires IsBoard(b)
    ensures IsBoard(r)
    ensures forall i, j :: 0 <= i < 8 && 0 <= j < 8 ==> r[i][j] == SwapCase(b[i][j])
  {
    seq(8, i requires 0 <= i < 8 => seq(8, j requires 0 <= j < 8 => SwapCase(b[i][j])))
  }

  /** One of the twelve letters the programs use for pieces. */
  predicate IsPieceLetter(c: char) { c in "PNBRQKpnbrqk" }

  /** `t` holds a piece of the other case than `p` (the test that every
      generator repeats before it lists a capture). */
  predicate Opposite(t: char, p: char) {
    (IsLower(t) && IsUpper(p)) || (IsUpper(t) && IsLower(p))
  }

  /** Inside the 8x8 board. */
  predicate OnBoard(r: int, c: int) { 0 <= r < 8 && 0 <= c < 8 }

  /** brain.py's is_valid_move: on an 8x8 board a square is on the board
      exactly when its row and column index a cell, so no negative Python
      index ever wraps around. */
  lemma OnBoardIndexes(b: seq<seq<char>>, r: int, c: int)
    requires IsBoard(b)
    ensures OnBoard(r, c) <==> 0 <= r < |b| && 0 <= c < |b[r]|
  {
  }

  /** Eight rows of eight cells. */
  predicate IsBoard(b: seq<seq<char>>) {
    |b| == 8 && forall i :: 0 <= i < 8 ==> |b[i]| == 8
  }

  /** Every cell is blank or a piece letter; the boards the games build and
      mutate keep this. */
  predicate WellFormed(b: seq<seq<char>>) {
    IsBoard(b) && forall i, j :: 0 <= i < 8 && 0 <= j < 8 ==> b[i][j] == ' ' || IsPieceLetter(b[i][j])
  }

  /** A blank square on the board. */
  predicate EmptyAt(b: seq<seq<char>>, r: int, c: int)
    requires IsBoard(b)
  {
    OnBoard(r, c) && b[r][c] == ' '
  }

  /** The coordinate `k` steps from `x` in direction `d` (d is -1, 0 or 1). */
  function Step(x: int, d: int, k: int): int {
    if d > 0 then x + k else if d < 0 then x - k else x
  }

  /** A direction of one of the eight rays: each delta in {-1, 0, 1}, not both 0. */
  predicate IsDir(dr: int, dc: int) {
    -1 <= dr <= 1 && -1 <= dc <= 1 && (dr != 0 || dc != 0)
  }

  /** The squares `lo`, ..., `hi - 1` steps from (sx, sy) in direction
      (dx, dy) are on the board and blank. */
  predicate ClearBetween(b: seq<seq<char>>, sx: int, sy: int, dx: int, dy: int, lo: int, hi: int)
    requires IsBoard(b)
  {
    forall j :: lo <= j < hi ==> EmptyAt(b, Step(sx, dx, j), Step(sy, dy, j))
  }

  /** A clear stretch grows by one blank square at its far end. */
  lemma ClearExtend(b: seq<seq<char>>, sx: int, sy: int, dx: int, dy: int, lo: int, hi: int)
    requires IsBoard(b) && ClearBetween(b, sx, sy, dx, dy, lo, hi)
    requires EmptyAt(b, Step(sx, dx, hi), Step(sy, dy, hi))
    ensures ClearBetween(b, sx, sy, dx, dy, lo, hi + 1)
  {
  }

  /** Every square strictly between (sx, sy) and the square `n` steps away in
      direction (dx, dy) is blank. */
  predicate Clear(b: seq<seq<char>>, sx: int, sy: int, dx: int, dy: int, n: int)
    requires IsBoard(b)
  {
    ClearBetween(b, sx, sy, dx, dy, 1, n)
  }

  function Abs(x: int): int { if x < 0 then -x else x }

  /** -1, 0 or 1 according to the sign of x. */
  function Sign(x: int): int { if x < 0 then -1 else if x > 0 then 1 else 0 }

  /** No square is listed twice. */
  predicate Distinct(s: seq<Square>) {
    forall i, j :: 0 <= i < j < |s| ==> s[i] != s[j]
  }

  /** The board with one cell overwritten, as `board[r][c] = ch` does. */
  function Put(b: seq<seq<char>>, sq: Square, ch: char): (r: seq<seq<char>>)
    requires IsBoard(b) && OnBoard(sq.0, sq.1)
    ensures IsBoard(r)
  {
    b[sq.0 := b[sq.0][sq.1 := ch]]
  }

  /** Put changes exactly the one cell. */
  lemma PutCells(b: seq<seq<char>>, sq: Square, ch: char)
    requires IsBoard(b) && OnBoard(sq.0, sq.1)
    ensures Put(b, sq, ch)[sq.0][sq.1] == ch
    ensures forall i, j :: 0 <= i < 8 && 0 <= j < 8 && (i, j) != sq ==> Put(b, sq, ch)[i][j] == b[i][j]
  {
  }

  /** The rows of a board kept in an 8x8 array. */
  function Cells(a: array2<char>): (r: seq<seq<char>>)
    requires a.Length0 == 8 && a.Length1 == 8
    reads a
    ensures IsBoard(r)
    ensures forall i, j :: 0 <= i < 8 && 0 <= j < 8 ==> r[i][j] == a[i, j]
  {
    seq(8, i requires 0 <= i < 8 reads a => seq(8, j requires 0 <= j < 8 reads a => a[i, j]))
  }

  /** An array holding the cells of B, cell by cell, reads as B. */
  lemma CellsOf(a: array2<char>, B: seq<seq<char>>)
    requires a.Length0 == 8 && a.Length1 == 8 && IsBoard(B)
    requires forall i, j :: 0 <= i < 8 && 0 <= j < 8 ==> a[i, j] == B[i][j]
    ensures Cells(a) == B
  {
    var C := Cells(a);
    forall i | 0 <= i < 8 ensures C[i] == B[i] {
      assert forall j :: 0 <= j < 8 ==> C[i][j] == B[i][j];
    }
  }

  /** The starting position both game programs build: Black on rows 0-1,
      White on rows 6-7. */
  function StartPosition(): seq<seq<char>> {
    [ "rnbqkbnr",
      "pppppppp",
      "        ",
      "        ",
      "        ",
      "        ",
      "PPPPPPPP",
      "RNBQKBNR" ]
  }

  /** The starting position is a well-formed board. */
  lemma StartWellFormed()
    ensures WellFormed(StartPosition())
  {
  }
}
