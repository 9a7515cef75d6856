/** The player-against-bot game (chattaranj-pve.py): the greedy bot
    (Piece, Bot) and the click handler of the human side (Game.move). The
    program's own copy of validate_move, which nothing in it calls, is the
    one modelled in the Validation module. Boards the games mutate are 8x8 arrays; the
    generator and validator read their rows as values (Cells). */
module Pve {
  import opened Board
  import opened Brain
  import opened Validation

  datatype Option<T> = None | Some(value: T)

  // ---------------------------------------------------------------------
  // Scoring (choose_best_square), in tenths of a pawn

  /** The capture value of the letter on a target square, looked up by its
      lower case: pawn 1, knight 3, bishop 3, rook 5, queen 9, king 0, any
      other character 0 (the table's default); times ten. */
  function CaptureValue(t: char): (v: int)
    ensures 0 <= v <= 90 && v % 10 == 0
  {
    var l := ToLower(t);
    if l == 'p' then 10
    else if l == 'n' || l == 'b' then 30
    else if l == 'r' then 50
    else if l == 'q' then 90
    else 0
  }

  /** The four centre squares that earn the 0.1 bonus. */
  predicate Centre(sq: Square) {
    sq in [(3, 3), (3, 4), (4, 3), (4, 4)]
  }

  /** The score of moving to `sq`: the value of what stands there (0 when
      blank) plus 1 on a centre square. */
  function Score(b: seq<seq<char>>, sq: Square): (s: int)
    requires IsBoard(b) && OnBoard(sq.0, sq.1)
    ensures 0 <= s <= 91
    ensures b[sq.0][sq.1] == ' ' && !Centre(sq) ==> s == 0
  {
    (if b[sq.0][sq.1] != ' ' then CaptureValue(b[sq.0][sq.1]) else 0) + (if Centre(sq) then 1 else 0)
  }

  /** All squares of a list are on the board. */
  predicate AllOnBoard(moves: seq<Square>) {
    forall i :: 0 <= i < |moves| ==> OnBoard(moves[i].0, moves[i].1)
  }

  /** The scores of a list of moves, in order. */
  function Scores(b: seq<seq<char>>, moves: seq<Square>): (s: seq<int>)
    requires IsBoard(b) && AllOnBoard(moves)
    ensures |s| == |moves|
  {
    seq(|moves|, i requires 0 <= i < |moves| => Score(b, moves[i]))
  }

  /** The first index holding a strictly greatest value: what a scan keeping
      its best so far and replacing it only on `>` ends with. */
  function ArgMax(s: seq<int>): (k: nat)
    requires |s| > 0
    ensures k < |s|
    ensures forall j :: 0 <= j < |s| ==> s[j] <= s[k]
    ensures forall j :: 0 <= j < k ==> s[j] < s[k]
  {
    if |s| == 1 then 0
    else
      var m := ArgMax(s[..|s| - 1]);
      if s[|s| - 1] > s[m] then |s| - 1 else m
  }

  /** One more element: the scan's answer moves to it only if it beats the
      best so far. */
  lemma ArgMaxSnoc(s: seq<int>, i: nat)
    requires 0 < i < |s|
    ensures ArgMax(s[..i + 1]) == if s[i] > s[ArgMax(s[..i])] then i else ArgMax(s[..i])
  {
    assert s[..i + 1][..i] == s[..i];
  }

  /** The first strict maximum is the only index that is a maximum with
      every earlier value strictly below it. */
  lemma ArgMaxUnique(s: seq<int>, k: int)
    requires 0 <= k < |s|
    requires forall j :: 0 <= j < |s| ==> s[j] <= s[k]
    requires forall j :: 0 <= j < k ==> s[j] < s[k]
    ensures ArgMax(s) == k
  {
    var m := ArgMax(s);
    assert !(m < k) && !(k < m);
  }

  /** What choose_best_square leaves in (best_score, best_move): the best
      scoring move, the first among equals; the old pair when there is no
      move. */
  function Chosen(b: seq<seq<char>>, moves: seq<Square>, oldScore: int, oldMove: Square): (int, Square)
    requires IsBoard(b) && AllOnBoard(moves)
  {
    if moves == [] then (oldScore, oldMove)
    else
      var k := ArgMax(Scores(b, moves));
      (Score(b, moves[k]), moves[k])
  }

  /** The chosen move is a listed move, scores at least as much as every
      listed move, and strictly more than every move listed before it. */
  lemma ChosenIsBest(b: seq<seq<char>>, moves: seq<Square>, oldScore: int, oldMove: Square)
    requires IsBoard(b) && AllOnBoard(moves) && moves != []
    ensures var (s, m) := Chosen(b, moves, oldScore, oldMove);
      m in moves && s == Score(b, m) &&
      (forall j :: 0 <= j < |moves| ==> Score(b, moves[j]) <= s) &&
      (exists k :: 0 <= k < |moves| && moves[k] == m && forall j :: 0 <= j < k ==> Score(b, moves[j]) < s)
  {
    var sc := Scores(b, moves);
    var k := ArgMax(sc);
    assert forall j :: 0 <= j < |moves| ==> sc[j] == Score(b, moves[j]);
    assert moves[k] in moves;
  }

  /** A capture of a more valuable piece outscores a quiet move, whatever
      the centre bonus. */
  lemma CaptureBeatsQuiet(b: seq<seq<char>>, x: Square, y: Square)
    requires IsBoard(b) && OnBoard(x.0, x.1) && OnBoard(y.0, y.1)
    requires b[x.0][x.1] != ' ' && CaptureValue(b[x.0][x.1]) > 0 && b[y.0][y.1] == ' '
    ensures Score(b, x) > Score(b, y)
  {
  }

  // ---------------------------------------------------------------------
  // Piece and Bot

  /** What the bot remembers about one of its pieces (`kind` is the
      program's `type`). `value` is the table lookup of create_pieces, None
      for a letter the table lacks. */
  datatype Piece = Piece(kind: char, value: Option<int>, currPos: Square,
                         possibleMoves: seq<Square>, bestScore: int, bestMove: Square)

  /** Piece(): blank, value 0, on (0, 0), no moves, best pair (0, (0, 0)):
      a sane piece with nothing to move. */
  function NewPiece(): (p: Piece)
    ensures Sane(p) && p.possibleMoves == [] && p.value == Some(0)
  {
    Piece(' ', Some(0), (0, 0), [], 0, (0, 0))
  }

  /** create_pieces' value table: p 1, n 3, b 3, r 5, q 9, k 1337. Every
      value it has is positive, and it has none for a White letter. */
  function PieceValue(c: char): (v: Option<int>)
    ensures v.Some? ==> v.value >= 1
    ensures IsUpper(c) ==> v == None
  {
    if c == 'p' then Some(1)
    else if c == 'n' || c == 'b' then Some(3)
    else if c == 'r' then Some(5)
    else if c == 'q' then Some(9)
    else if c == 'k' then Some(1337)
    else None
  }

  /** A piece the bot can act on: its square and its chosen move are on the
      board and its best score is not negative. */
  predicate Sane(p: Piece) {
    OnBoard(p.currPos.0, p.currPos.1) && OnBoard(p.bestMove.0, p.bestMove.1) && p.bestScore >= 0
  }

  /** The two value tables of the bot. create_pieces' table knows exactly
      the six Black letters; a capture is worth something exactly for pawn,
      knight, bishop, rook and queen of either colour; on those five the
      tables agree (the capture table in tenths); the king is the exception,
      1337 when created and 0 when captured. */
  lemma ValueTables(c: char)
    ensures PieceValue(c).Some? <==> c in "pnbrqk"
    ensures CaptureValue(c) > 0 <==> ToLower(c) in "pnbrq"
    ensures c in "pnbrq" ==> PieceValue(c) == Some(CaptureValue(c) / 10)
    ensures c == 'k' ==> PieceValue(c).Some? && PieceValue(c).value > 0 && CaptureValue(c) == 0
  {
  }

  /** Every list get_possible_moves returns can be scored. */
  lemma MovesOnBoard(b: seq<seq<char>>, row: int, col: int)
    requires IsBoard(b) && OnBoard(row, col)
    ensures AllOnBoard(PossibleMoves(b, row, col))
  {
    var m := PossibleMoves(b, row, col);
    PossibleMovesShape(b, row, col);
    forall i | 0 <= i < |m| ensures OnBoard(m[i].0, m[i].1) {
      assert m[i] in m;
    }
  }

  /** One pass of update_moves over a piece on board b: its move list
      recomputed from its square, and its best pair chosen from that list
      (kept when the list is empty). Kind, value and square stay. */
  function Refresh(b: seq<seq<char>>, p: Piece): (q: Piece)
    requires IsBoard(b) && OnBoard(p.currPos.0, p.currPos.1)
    ensures q.kind == p.kind && q.value == p.value && q.currPos == p.currPos
    ensures q.possibleMoves == PossibleMoves(b, p.currPos.0, p.currPos.1) && AllOnBoard(q.possibleMoves)
    ensures Sane(p) ==> Sane(q)
    ensures q.possibleMoves == [] ==> q.bestScore == p.bestScore && q.bestMove == p.bestMove
  {
    var ms := PossibleMoves(b, p.currPos.0, p.currPos.1);
    MovesOnBoard(b, p.currPos.0, p.currPos.1);
    var c := Chosen(b, ms, p.bestScore, p.bestMove);
    p.(possibleMoves := ms, bestScore := c.0, bestMove := c.1)
  }

  /** The piece create_pieces makes for square pos of board b. */
  function Created(b: seq<seq<char>>, pos: Square): (q: Piece)
    requires IsBoard(b) && OnBoard(pos.0, pos.1)
    ensures Sane(q) && q.currPos == pos && q.kind == b[pos.0][pos.1]
    ensures q.value == PieceValue(b[pos.0][pos.1])
    ensures q.possibleMoves == PossibleMoves(b, pos.0, pos.1)
  {
    var c := b[pos.0][pos.1];
    Refresh(b, NewPiece().(kind := c, currPos := pos, value := PieceValue(c)))
  }

  /** The piece move() moves: after update_moves, the first piece with the
      greatest best score, or the detached best_piece when the list is
      empty. */
  function Mover(b: seq<seq<char>>, ps: seq<Piece>, best: Best): (m: Piece)
    requires IsBoard(b) && forall j :: 0 <= j < |ps| ==> Sane(ps[j])
    requires |ps| == 0 ==> best.Detached? && Sane(best.piece)
    ensures Sane(m)
  {
    var u := RefreshAll(b, ps);
    if |u| > 0 then u[ArgMax(BestScores(u))] else best.piece
  }

  /** The board move() returns: the mover's square blank, its best move
      holding its letter, every other square as before. */
  function BotBoard(b: seq<seq<char>>, ps: seq<Piece>, best: Best): (r: seq<seq<char>>)
    requires IsBoard(b) && forall j :: 0 <= j < |ps| ==> Sane(ps[j])
    requires |ps| == 0 ==> best.Detached? && Sane(best.piece)
    ensures IsBoard(r)
  {
    var m := Mover(b, ps, best);
    Put(Put(b, m.currPos, ' '), m.bestMove, m.kind)
  }

  /** The bot's answer changes two squares at most: the mover's letter lands
      on its best move, its old square is blank unless it stays put, and
      every other square keeps what it held. */
  lemma BotBoardFrame(b: seq<seq<char>>, ps: seq<Piece>, best: Best)
    requires IsBoard(b) && forall j :: 0 <= j < |ps| ==> Sane(ps[j])
    requires |ps| == 0 ==> best.Detached? && Sane(best.piece)
    ensures var r, m := BotBoard(b, ps, best), Mover(b, ps, best);
      r[m.bestMove.0][m.bestMove.1] == m.kind &&
      (m.currPos != m.bestMove ==> r[m.currPos.0][m.currPos.1] == ' ') &&
      forall i, j :: 0 <= i < 8 && 0 <= j < 8 && (i, j) != m.currPos && (i, j) != m.bestMove ==> r[i][j] == b[i][j]
  {
    var m := Mover(b, ps, best);
    PutCells(b, m.currPos, ' ');
    PutCells(Put(b, m.currPos, ' '), m.bestMove, m.kind);
  }

  /** The list move() leaves: every piece refreshed, and the mover (a list
      element whenever the list is not empty) standing on its best move. */
  function BotPieces(b: seq<seq<char>>, ps: seq<Piece>, best: Best): (r: seq<Piece>)
    requires IsBoard(b) && forall j :: 0 <= j < |ps| ==> Sane(ps[j])
    requires |ps| == 0 ==> best.Detached? && Sane(best.piece)
    ensures |r| == |ps| && forall j :: 0 <= j < |r| ==> Sane(r[j])
  {
    var u := RefreshAll(b, ps);
    if |u| > 0 then
      var m := Mover(b, ps, best);
      u[ArgMax(BestScores(u)) := m.(currPos := m.bestMove)]
    else u
  }

  /** The best scores of a list of pieces, in order. */
  function BestScores(ps: seq<Piece>): (s: seq<int>)
    ensures |s| == |ps| && forall j :: 0 <= j < |ps| ==> s[j] == ps[j].bestScore
  {
    seq(|ps|, i requires 0 <= i < |ps| => ps[i].bestScore)
  }

  /** What one update_moves makes of a list of sane pieces, piece by piece
      in list order. */
  function RefreshAll(b: seq<seq<char>>, ps: seq<Piece>): (r: seq<Piece>)
    requires IsBoard(b) && forall j :: 0 <= j < |ps| ==> Sane(ps[j])
    ensures |r| == |ps| && forall j :: 0 <= j < |r| ==> Sane(r[j])
  {
    if ps == [] then []
    else
      assert Sane(ps[|ps| - 1]);
      RefreshAll(b, ps[..|ps| - 1]) + [Refresh(b, ps[|ps| - 1])]
  }

  /** Each piece of the refreshed list is its own piece refreshed, and sane. */
  lemma {:induction false} RefreshAllAt(b: seq<seq<char>>, ps: seq<Piece>, j: int, p: Piece)
    requires IsBoard(b) && forall i :: 0 <= i < |ps| ==> Sane(ps[i])
    requires 0 <= j < |ps| && p == ps[j]
    ensures Sane(p) && RefreshAll(b, ps)[j] == Refresh(b, p)
    decreases |ps|
  {
    if j < |ps| - 1 {
      RefreshAllAt(b, ps[..|ps| - 1], j, p);
    }
  }

  /** The pieces create_pieces makes for the first n squares of one row of
      board b, left to right. */
  function RowPieces(b: seq<seq<char>>, row: int, n: nat): (r: seq<Piece>)
    requires IsBoard(b) && 0 <= row < 8 && n <= 8
    ensures |r| == n && forall j :: 0 <= j < n ==> Sane(r[j])
  {
    if n == 0 then [] else RowPieces(b, row, n - 1) + [Created(b, (row, n - 1))]
  }

  /** The pieces create_pieces makes for the first `rows` rows of board b,
      in row order. */
  function CreatedRows(b: seq<seq<char>>, rows: nat): (r: seq<Piece>)
    requires IsBoard(b) && rows <= 8
    ensures |r| == 8 * rows && forall j :: 0 <= j < |r| ==> Sane(r[j])
  {
    if rows == 0 then [] else CreatedRows(b, rows - 1) + RowPieces(b, rows - 1, 8)
  }

  /** The c-th piece made for a row stands on column c. */
  lemma {:induction false} RowPiecesAt(b: seq<seq<char>>, row: int, n: nat, c: int)
    requires IsBoard(b) && 0 <= row < 8 && n <= 8 && 0 <= c < n
    ensures RowPieces(b, row, n)[c] == Created(b, (row, c))
  {
    var before, last := RowPieces(b, row, n - 1), Created(b, (row, n - 1));
    ConcatAt(before, [last], c);
    if c < n - 1 {
      RowPiecesAt(b, row, n - 1, c);
    }
  }

  /** The last of the first `rows` rows sits at offset 8 * (rows - 1). */
  lemma LastRowAt(b: seq<seq<char>>, rows: nat, c: int)
    requires IsBoard(b) && 1 <= rows <= 8 && 0 <= c < 8
    ensures CreatedRows(b, rows)[8 * (rows - 1) + c] == RowPieces(b, rows - 1, 8)[c]
  {
    ConcatAt(CreatedRows(b, rows - 1), RowPieces(b, rows - 1, 8), 8 * (rows - 1) + c);
  }

  /** Adding a row leaves the pieces of the earlier rows where they were. */
  lemma EarlierRowsAt(b: seq<seq<char>>, rows: nat, i: int)
    requires IsBoard(b) && 1 <= rows <= 8 && 0 <= i < 8 * (rows - 1)
    ensures CreatedRows(b, rows)[i] == CreatedRows(b, rows - 1)[i]
  {
    ConcatAt(CreatedRows(b, rows - 1), RowPieces(b, rows - 1, 8), i);
  }

  /** Piece 8 * r + c of the list create_pieces builds stands on square
      (r, c). */
  lemma CreatedAt(b: seq<seq<char>>, r: int, c: int)
    requires IsBoard(b) && 0 <= r < 2 && 0 <= c < 8
    ensures CreatedRows(b, 2)[8 * r + c] == Created(b, (r, c))
  {
    if r == 0 {
      EarlierRowsAt(b, 2, c);
      LastRowAt(b, 1, c);
      RowPiecesAt(b, 0, 8, c);
    } else {
      assert r == 1;
      LastRowAt(b, 2, c);
      RowPiecesAt(b, 1, 8, c);
    }
  }

  /** Indexing into a concatenation. */
  lemma ConcatAt<T>(s: seq<T>, t: seq<T>, i: int)
    requires 0 <= i < |s| + |t|
    ensures (s + t)[i] == if i < |s| then s[i] else t[i - |s|]
  {
  }

  /** The piece update_moves picks: the first with the strictly greatest
      best score. It is at least as good as every other piece, and when it
      has moves at all its best move is one of its moves with the greatest
      score among them. A piece without moves keeps the pair of an earlier
      turn, so only the first half holds for it. */
  lemma GreedyPick(b: seq<seq<char>>, ps: seq<Piece>)
    requires IsBoard(b) && |ps| > 0 && forall j :: 0 <= j < |ps| ==> Sane(ps[j])
    ensures var u := RefreshAll(b, ps);
      var k := ArgMax(BestScores(u));
      var m := Refresh(b, ps[k]);
      u[k] == m &&
      (forall j :: 0 <= j < |u| ==> u[j].bestScore <= m.bestScore) &&
      (m.possibleMoves != [] ==>
        m.bestMove in PossibleMoves(b, m.currPos.0, m.currPos.1) && m.bestScore == Score(b, m.bestMove) &&
        forall sq :: sq in m.possibleMoves ==> Score(b, sq) <= m.bestScore)
  {
    var u := RefreshAll(b, ps);
    var k := ArgMax(BestScores(u));
    RefreshAllAt(b, ps, k, ps[k]);
    var m := u[k];
    if m.possibleMoves != [] {
      ChosenIsBest(b, m.possibleMoves, ps[k].bestScore, ps[k].bestMove);
      forall sq | sq in m.possibleMoves ensures Score(b, sq) <= m.bestScore {
        var j :| 0 <= j < |m.possibleMoves| && m.possibleMoves[j] == sq;
      }
    }
  }

  /** Which record the program's best_piece names: one of the listed pieces
      (update_moves assigns a list element, so later writes through
      best_piece reach the list), or a record outside the list (the one a
      fresh Bot and every move leave there). */
  datatype Best = Detached(piece: Piece) | Listed(index: nat)

  /** The greedy bot of the PvE game: its pieces (made once from rows 0 and
      1, never pruned) and the piece it will move next. */
  class Bot {
    var pieces: seq<Piece>
    var best: Best

    /** Every piece is sane and best_piece names a sane record. */
    predicate Valid()
      reads this
    {
      (forall j :: 0 <= j < |pieces| ==> Sane(pieces[j])) &&
      match best
      case Detached(p) => Sane(p)
      case Listed(k) => k < |pieces|
    }

    /** The record best_piece refers to. */
    function BestPiece(): (p: Piece)
      reads this
      requires Valid()
      ensures Sane(p)
    {
      match best
      case Detached(p) => p
      case Listed(k) => pieces[k]
    }

    /** choose_best_square: score each move in order and keep the first with
        the strictly greatest score in best_score and best_move; with no
        moves both keep their old values. It only reads the board. */
    method ChooseBestSquare(board: seq<seq<char>>, piece: Piece, moves: seq<Square>) returns (p: Piece)
      requires IsBoard(board) && AllOnBoard(moves)
      ensures p == piece.(bestScore := Chosen(board, moves, piece.bestScore, piece.bestMove).0,
                          bestMove := Chosen(board, moves, piece.bestScore, piece.bestMove).1)
    {
      ghost var sc := Scores(board, moves);
      ghost var k := 0;
      p := piece;
      var best: Option<int> := None;
      var i := 0;
      while i < |moves|
        invariant 0 <= i <= |moves| && 0 <= k < |moves| + 1
        invariant p.kind == piece.kind && p.value == piece.value && p.currPos == piece.currPos
        invariant p.possibleMoves == piece.possibleMoves
        invariant i == 0 ==> best == None && p.bestScore == piece.bestScore && p.bestMove == piece.bestMove
        invariant i > 0 ==> k < i && k == ArgMax(sc[..i]) && best == Some(sc[k]) && p.bestScore == sc[k] && p.bestMove == moves[k]
      {
        var r, c := moves[i].0, moves[i].1;
        var score := MoveScore(board, r, c);
        assert score == sc[i];
        if i > 0 {
          ArgMaxSnoc(sc, i);
        } else {
          assert ArgMax(sc[..1]) == 0;
        }
        if best.None? || score > best.value {
          best := Some(score);
          p := p.(bestScore := score, bestMove := (r, c));
          k := i;
        }
        i := i + 1;
      }
      if moves != [] {
        assert sc[..|moves|] == sc;
      }
    }

    /** The score of one move in choose_best_square's loop: the captured
        letter's value, 0 on a blank square, plus the centre bonus. */
    static method MoveScore(board: seq<seq<char>>, r: int, c: int) returns (score: int)
      requires IsBoard(board) && OnBoard(r, c)
      ensures score == Score(board, (r, c))
    {
      var target := board[r][c];
      score := if target != ' ' then CaptureValue(target) else 0;
      if Centre((r, c)) {
        score := score + 1;
      }
    }

    /** One step of update_moves: the refreshed i-th piece of the list. */
    method RefreshAt(board: seq<seq<char>>, ps: seq<Piece>, i: int) returns (q: Piece)
      requires IsBoard(board) && 0 <= i < |ps| && forall j :: 0 <= j < |ps| ==> Sane(ps[j])
      ensures q == RefreshAll(board, ps)[i]
    {
      var p := ps[i];
      RefreshAllAt(board, ps, i, p);
      var moves := GetPossibleMoves(board, p.currPos.0, p.currPos.1);
      q := p.(possibleMoves := moves);
      MovesOnBoard(board, p.currPos.0, p.currPos.1);
      q := ChooseBestSquare(board, q, q.possibleMoves);
    }

    /** The loop of update_moves on the list and best_piece it starts from. */
    method Rescan(board: seq<seq<char>>, orig: seq<Piece>, best0: Best) returns (ps: seq<Piece>, pick: Best)
      requires IsBoard(board) && forall j :: 0 <= j < |orig| ==> Sane(orig[j])
      ensures ps == RefreshAll(board, orig)
      ensures |ps| > 0 ==> pick == Listed(ArgMax(BestScores(ps)))
      ensures |ps| == 0 ==> pick == best0
    {
      ghost var want := RefreshAll(board, orig);
      ghost var ws := BestScores(want);
      ps := orig;
      pick := best0;
      var topScore := -1;
      var i := 0;
      while i < |ps|
        invariant 0 <= i <= |ps| == |want| == |ws| == |orig|
        invariant forall j :: 0 <= j < i ==> ps[j] == want[j]
        invariant i == 0 ==> topScore == -1 && pick == best0
        invariant i > 0 ==> pick.Listed? && pick.index < i && topScore == ws[pick.index]
        invariant i > 0 ==> forall j :: 0 <= j < i ==> ws[j] <= topScore
        invariant pick.Listed? && i > 0 ==> forall j :: 0 <= j < pick.index ==> ws[j] < topScore
      {
        var piece := RefreshAt(board, orig, i);
        ps := ps[i := piece];
        if piece.bestScore > topScore {
          topScore := piece.bestScore;
          pick := Listed(i);
        }
        i := i + 1;
      }
      assert ps == want;
      if |ws| > 0 {
        ArgMaxUnique(ws, pick.index);
      }
    }

    /** update_moves: recompute every piece's list and best pair on the
        current board, and point best_piece at the first piece whose best
        score is strictly greatest (every score is at least 0, above the
        starting top score of -1, so some piece is picked). It only reads
        the board. */
    method UpdateMoves(board: seq<seq<char>>)
      requires IsBoard(board) && Valid()
      modifies this
      ensures Valid()
      ensures pieces == RefreshAll(board, old(pieces))
      ensures |pieces| > 0 ==> best == Listed(ArgMax(BestScores(pieces)))
      ensures |pieces| == 0 ==> best == old(best)
    {
      pieces, best := Rescan(board, pieces, best);
    }

    /** The two board writes of move: the piece's square becomes blank, then
        its destination gets its letter. */
    static method Shift(board: array2<char>, from: Square, to: Square, c: char)
      requires board.Length0 == 8 && board.Length1 == 8
      requires OnBoard(from.0, from.1) && OnBoard(to.0, to.1)
      modifies board
      ensures Cells(board) == Put(Put(old(Cells(board)), from, ' '), to, c)
    {
      ghost var b0 := Cells(board);
      board[from.0, from.1] := ' ';
      board[to.0, to.1] := c;
      PutCells(b0, from, ' ');
      PutCells(Put(b0, from, ' '), to, c);
      CellsOf(board, Put(Put(b0, from, ' '), to, c));
    }

    /** The rest of move after update_moves: best_piece goes to its best
        move on the board, its curr_pos follows (in the list too when
        best_piece is a list element), and best_piece becomes a fresh
        Piece(). */
    method Advance(board: array2<char>)
      requires board.Length0 == 8 && board.Length1 == 8 && Valid()
      modifies this, board
      ensures Valid() && best == Detached(NewPiece())
      ensures var m := old(BestPiece());
        Cells(board) == Put(Put(old(Cells(board)), m.currPos, ' '), m.bestMove, m.kind) &&
        pieces == if old(best).Listed? then old(pieces)[old(best).index := m.(currPos := m.bestMove)] else old(pieces)
    {
      var mover := BestPiece();
      Shift(board, mover.currPos, mover.bestMove, mover.kind);
      if best.Listed? {
        pieces := pieces[best.index := mover.(currPos := mover.bestMove)];
      }
      best := Detached(NewPiece());
    }

    /** move: update_moves, then move best_piece on the board (Advance).
        The same board is returned. */
    method Move(board: array2<char>) returns (result: array2<char>)
      requires board.Length0 == 8 && board.Length1 == 8 && Valid()
      modifies this, board
      ensures result == board && Valid() && best == Detached(NewPiece())
      ensures Cells(board) == BotBoard(old(Cells(board)), old(pieces), old(best))
      ensures pieces == BotPieces(old(Cells(board)), old(pieces), old(best))
    {
      UpdateMoves(Cells(board));
      Advance(board);
      return board;
    }

    /** The body of create_pieces' loop for one square: a fresh Piece()
        given the square's letter, position and table value, its move list,
        and its best pair. */
    method MakePiece(board: seq<seq<char>>, row: int, col: int) returns (piece: Piece)
      requires IsBoard(board) && OnBoard(row, col)
      ensures piece == Created(board, (row, col))
    {
      piece := NewPiece();
      piece := piece.(kind := board[row][col]);
      piece := piece.(currPos := (row, col));
      piece := piece.(value := PieceValue(piece.kind));
      var moves := GetPossibleMoves(board, row, col);
      piece := piece.(possibleMoves := moves);
      MovesOnBoard(board, row, col);
      piece := ChooseBestSquare(board, piece, piece.possibleMoves);
    }

    /** The inner loop of create_pieces: the eight squares of one row, left
        to right, appended to the pieces made before. */
    method MakeRow(board: seq<seq<char>>, row: int, before: seq<Piece>) returns (made: seq<Piece>)
      requires IsBoard(board) && 0 <= row < 8
      ensures made == before + RowPieces(board, row, 8)
    {
      made := before;
      var col := 0;
      while col < 8
        invariant 0 <= col <= 8
        invariant made == before + RowPieces(board, row, col)
      {
        var piece := MakePiece(board, row, col);
        made := made + [piece];
        col := col + 1;
      }
    }

    /** The outer loop of create_pieces: rows 0 and 1 in order. */
    method MakeRows(board: seq<seq<char>>) returns (made: seq<Piece>)
      requires IsBoard(board)
      ensures made == CreatedRows(board, 2)
    {
      made := [];
      var row := 0;
      while row < 2
        invariant 0 <= row <= 2
        invariant made == CreatedRows(board, row)
      {
        made := MakeRow(board, row, made);
        row := row + 1;
      }
    }

    /** create_pieces: append the sixteen pieces of rows 0 and 1, each with
        its move list and best pair computed on `board`; then the length
        check, which answers false (the program quits) unless the bot had no
        pieces before. */
    method CreatePieces(board: seq<seq<char>>) returns (ok: bool)
      requires IsBoard(board) && Valid()
      modifies this
      ensures Valid() && best == old(best)
      ensures pieces == old(pieces) + CreatedRows(board, 2)
      ensures ok <==> |old(pieces)| == 0
    {
      var made := MakeRows(board);
      pieces := pieces + made;
      ok := |pieces| == 16;
    }

    /** A new bot reads rows 0 and 1 of the board: sixteen pieces, so the
        length check passes; best_piece starts as a fresh Piece(). */
    constructor(board: seq<seq<char>>)
      requires IsBoard(board)
      ensures Valid() && best == Detached(NewPiece())
      ensures pieces == CreatedRows(board, 2)
    {
      pieces := [];
      best := Detached(NewPiece());
      new;
      var ok := CreatePieces(board);
      assert ok;
    }
  }

  // ---------------------------------------------------------------------
  // The human side

  /** The player's move as Game.move writes it: the destination gets the
      chosen letter, then the start square is blanked. */
  function PlayerMove(b: seq<seq<char>>, start: Square, end: Square, c: char): (r: seq<seq<char>>)
    requires IsBoard(b) && OnBoard(start.0, start.1) && OnBoard(end.0, end.1)
    ensures IsBoard(r)
  {
    Put(Put(b, end, c), start, ' ')
  }

  /** The player's move blanks the start square, puts the letter on a
      different destination, and leaves the other squares alone. */
  lemma PlayerMoveFrame(b: seq<seq<char>>, start: Square, end: Square, c: char)
    requires IsBoard(b) && OnBoard(start.0, start.1) && OnBoard(end.0, end.1)
    ensures var r := PlayerMove(b, start, end, c);
      r[start.0][start.1] == ' ' && (end != start ==> r[end.0][end.1] == c) &&
      forall i, j :: 0 <= i < 8 && 0 <= j < 8 && (i, j) != start && (i, j) != end ==> r[i][j] == b[i][j]
  {
    PutCells(b, end, c);
    PutCells(Put(b, end, c), start, ' ');
  }

  /** The click handler of the player-against-bot game. The first click
      selects whatever stands on the square (no side check) and lists its
      moves; the second click plays the selection when the clicked square
      is one of those moves, and then the bot answers. The program's
      is_white is read only by the main loop, as a guard on the human's
      clicks; nothing ever sets it to False, so the guard always passes. */
  class Game {
    var board: array2<char>
    var chosenPiece: char
    var isWhite: bool
    var startX: int
    var startY: int
    var endX: int
    var endY: int
    var possibleMoves: seq<Square>

    /** An 8x8 board, a start square on it, and a move list of distinct
        squares on the board (get_possible_moves gives nothing else). */
    predicate Valid()
      reads this
    {
      board.Length0 == 8 && board.Length1 == 8 && OnBoard(startX, startY) &&
      AllOnBoard(possibleMoves) && Distinct(possibleMoves)
    }

    /** A new game: the starting position, nothing selected, White to move. */
    constructor()
      ensures Valid() && fresh(board) && Cells(board) == StartPosition()
      ensures chosenPiece == ' ' && isWhite && possibleMoves == []
      ensures startX == 0 && startY == 0 && endX == 0 && endY == 0
    {
      var start := StartPosition();
      board := new char[8, 8]((i, j) => if 0 <= i < 8 && 0 <= j < 8 then start[i][j] else ' ');
      chosenPiece := ' ';
      isWhite := true;
      startX, startY, endX, endY := 0, 0, 0, 0;
      possibleMoves := [];
      new;
      CellsOf(board, start);
    }

    /** move(col, row, bot). With nothing selected: select the letter on
        (row, col), remember the square and list its moves. Otherwise: scan
        the remembered list; when (row, col) is on it, play the move, clear
        the selection and let the bot move. A click off the list changes
        nothing but end_x and end_y, so a selection with no moves stays
        selected for good. */
    method Move(col: int, row: int, bot: Bot)
      requires Valid() && bot.Valid() && OnBoard(row, col)
      modifies this, board, bot
      ensures Valid() && bot.Valid() && board == old(board) && isWhite == old(isWhite)
      ensures old(chosenPiece) == ' ' ==>
        chosenPiece == old(Cells(board))[row][col] && startX == row && startY == col &&
        endX == old(endX) && endY == old(endY) &&
        possibleMoves == PossibleMoves(old(Cells(board)), row, col) &&
        Cells(board) == old(Cells(board)) && bot.pieces == old(bot.pieces) && bot.best == old(bot.best)
      ensures old(chosenPiece) != ' ' ==>
        endX == row && endY == col && startX == old(startX) && startY == old(startY)
      ensures old(chosenPiece) != ' ' && (row, col) !in old(possibleMoves) ==>
        chosenPiece == old(chosenPiece) && possibleMoves == old(possibleMoves) &&
        Cells(board) == old(Cells(board)) && bot.pieces == old(bot.pieces) && bot.best == old(bot.best)
      ensures old(chosenPiece) != ' ' && (row, col) in old(possibleMoves) ==>
        var played := PlayerMove(old(Cells(board)), (old(startX), old(startY)), (row, col), old(chosenPiece));
        chosenPiece == ' ' && possibleMoves == [] &&
        Cells(board) == BotBoard(played, old(bot.pieces), old(bot.best)) &&
        bot.pieces == BotPieces(played, old(bot.pieces), old(bot.best)) && bot.best == Detached(NewPiece())
    {
      if chosenPiece == ' ' {
        Select(row, col);
      } else {
        endX, endY := row, col;
        Play(row, col, bot);
      }
    }

    /** The first click: select the letter on (row, col), whatever it is,
        remember the square and list the letter's moves from it. */
    method Select(row: int, col: int)
      requires Valid() && OnBoard(row, col)
      modifies this
      ensures Valid() && board == old(board) && isWhite == old(isWhite)
      ensures chosenPiece == board[row, col] && startX == row && startY == col
      ensures possibleMoves == PossibleMoves(Cells(board), row, col)
      ensures endX == old(endX) && endY == old(endY)
    {
      chosenPiece := board[row, col];
      startX, startY := row, col;
      var b := Cells(board);
      possibleMoves := GetPossibleMoves(b, row, col);
      PossibleMovesShape(b, row, col);
      MovesOnBoard(b, row, col);
    }

    /** The two board writes of the player's move. */
    static method Place(board: array2<char>, start: Square, end: Square, c: char)
      requires board.Length0 == 8 && board.Length1 == 8
      requires OnBoard(start.0, start.1) && OnBoard(end.0, end.1)
      modifies board
      ensures Cells(board) == PlayerMove(old(Cells(board)), start, end, c)
    {
      ghost var b0 := Cells(board);
      board[end.0, end.1] := c;
      board[start.0, start.1] := ' ';
      PutCells(b0, end, c);
      PutCells(Put(b0, end, c), start, ' ');
      CellsOf(board, PlayerMove(b0, start, end, c));
    }

    /** The body of the second click's scan on a match: play the move,
        clear the selection, and let the bot answer on the same board. */
    method Answer(row: int, col: int, bot: Bot)
      requires Valid() && bot.Valid() && OnBoard(row, col)
      modifies this, board, bot
      ensures Valid() && bot.Valid() && board == old(board) && isWhite == old(isWhite)
      ensures startX == old(startX) && startY == old(startY) && endX == old(endX) && endY == old(endY)
      ensures var played := PlayerMove(old(Cells(board)), (old(startX), old(startY)), (row, col), old(chosenPiece));
        chosenPiece == ' ' && possibleMoves == [] &&
        Cells(board) == BotBoard(played, old(bot.pieces), old(bot.best)) &&
        bot.pieces == BotPieces(played, old(bot.pieces), old(bot.best)) && bot.best == Detached(NewPiece())
    {
      var a := board;
      Place(a, (startX, startY), (row, col), chosenPiece);
      chosenPiece := ' ';
      possibleMoves := [];
      a := bot.Move(a);
      board := a;
    }

    /** The scan of the second click: for each listed square, a match plays
        the move and calls the bot. The list is distinct, so at most one
        square matches. */
    method Play(row: int, col: int, bot: Bot)
      requires Valid() && bot.Valid() && OnBoard(row, col)
      modifies this, board, bot
      ensures Valid() && bot.Valid() && board == old(board) && isWhite == old(isWhite)
      ensures startX == old(startX) && startY == old(startY) && endX == old(endX) && endY == old(endY)
      ensures (row, col) !in old(possibleMoves) ==>
        chosenPiece == old(chosenPiece) && possibleMoves == old(possibleMoves) &&
        Cells(board) == old(Cells(board)) && bot.pieces == old(bot.pieces) && bot.best == old(bot.best)
      ensures (row, col) in old(possibleMoves) ==>
        var played := PlayerMove(old(Cells(board)), (old(startX), old(startY)), (row, col), old(chosenPiece));
        chosenPiece == ' ' && possibleMoves == [] &&
        Cells(board) == BotBoard(played, old(bot.pieces), old(bot.best)) &&
        bot.pieces == BotPieces(played, old(bot.pieces), old(bot.best)) && bot.best == Detached(NewPiece())
    {
      var ms := possibleMoves;
      ghost var played := PlayerMove(Cells(board), (startX, startY), (row, col), chosenPiece);
      ghost var ps0, best0 := bot.pieces, bot.best;
      var i := 0;
      while i < |ms|
        invariant 0 <= i <= |ms| && Valid() && bot.Valid() && board == old(board)
        invariant isWhite == old(isWhite) && startX == old(startX) && startY == old(startY)
        invariant endX == old(endX) && endY == old(endY)
        invariant (row, col) !in ms[..i] ==>
          chosenPiece == old(chosenPiece) && possibleMoves == ms &&
          Cells(board) == old(Cells(board)) && bot.pieces == ps0 && bot.best == best0
        invariant (row, col) in ms[..i] ==>
          chosenPiece == ' ' && possibleMoves == [] &&
          Cells(board) == BotBoard(played, ps0, best0) &&
          bot.pieces == BotPieces(played, ps0, best0) && bot.best == Detached(NewPiece())
      {
        assert ms[..i + 1] == ms[..i] + [ms[i]];
        if row == ms[i].0 && col == ms[i].1 {
          assert (row, col) !in ms[..i];
          Answer(row, col, bot);
        }
        i := i + 1;
      }
      assert ms[..i] == ms;
    }
  }
}
