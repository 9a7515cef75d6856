# Chattaranj in Dafny

Chattaranj is a small chess program in two variants that share one move
generator:

- `brain.py` lists the destinations of the piece on a square
  (`get_possible_moves` and one generator per kind).
- `chattaranj-pve.py` is a game against a greedy bot. The human's second
  click must name a square from the generator's list. The bot then rescans
  its own sixteen pieces and plays the move with the highest score: the
  value of the piece it captures (0 on a blank square) plus a small bonus for
  the four centre squares, the first such move on ties. With no capture
  available it plays a quiet move. Pieces it has lost stay in its list and
  are rescanned from their stale squares.
- `chattaranj-pvp.py` is a two-player game. The first click lifts a letter
  off the board and the second click names the target. `validate_move`
  decides; a rejected move puts the letter back, an accepted move passes the
  turn, and capturing a king ends the game.

The model is split by module:

- `Board`: board values, ASCII case functions, `Put` (one cell written) and
  `Cells` (an 8x8 array read as rows).
- `Brain`: the generators as functions, plus the loop methods that build the
  same lists.
- `Validation`: `validate_move`. It is stated as the function `Accepts`,
  and the method `ValidateMove` follows the source branch by branch with its
  scanning loops.
- `Agreement`: the validator and the generator agree.
- `Pve`: the bot's `Piece` records, the `Bot` and `Game` classes, and the
  specification functions their methods are proved against.
- `Pvp`: the two-player `Game` class.

Scores are integer tenths: a capture is worth 10 times the piece value and
the centre bonus is 1. Minus infinity is the `None` of `Option`. The
programs' `best_piece` alias is a `Best` value. It either names a list index,
so that writes through it reach the list, or holds a record outside the list.

## Model

| member | source | states |
|---|---|---|
| Board.ToLower | chattaranj-pve.py:200 | lower-cases exactly the upper-case ASCII letters and leaves every other character alone |
| Board.PutCells | chattaranj-pvp.py:61 | writing one cell changes that cell and no other |
| Board.OnBoardIndexes | brain.py:35-39 | is_valid_move holds exactly for the pairs that index a cell of the 8x8 board, so no negative index ever wraps around |
| Board.CellsOf | chattaranj-pve.py:152-161 | an array holding a board's letters cell by cell reads as that board |
| Board.StartWellFormed | chattaranj-pvp.py:45-54 | the starting position holds only blanks and piece letters |
| Brain.ScanShape | brain.py:120-182 | every square a ray scan lists lies beyond the scan's first step, on the board, blank or an enemy; the list has no repeats |
| Brain.RayShape | brain.py:120-182 | a ray lists only squares in its own direction (and on a diagonal for the bishop rays), without repeats, each reachable |
| Brain.Ray | brain.py:48-56 | one direction of a slider lists no more squares than lie between the piece and the edge of the board |
| Brain.RookMoves | brain.py:42-90 | the rook list is the four rays up, down, left, right in that order, and holds at most the 14 other squares of the rook's row and column |
| Brain.BishopMoves | brain.py:120-182 | the bishop list is the four diagonal rays in source order, and holds at most 13 squares wherever the bishop stands |
| Brain.QueenMoves | brain.py:185-192 | the queen list is the rook list followed by the bishop list, at most 27 squares |
| Brain.ScanAt | brain.py:120-182 | the square m steps out is on the ray exactly when it is on the board, every square before it is blank, and it is blank or an enemy |
| Brain.RayHalts | brain.py:56 | nothing beyond an occupied square is listed |
| Brain.RookShape | brain.py:42-90 | rook moves are reachable, distinct, and lie on the rook's row or its column but not both |
| Brain.BishopShape | brain.py:120-182 | bishop moves are reachable, distinct, off the bishop's row, and on its diagonals |
| Brain.LandingMembers | brain.py:109-116 | the table filter keeps exactly the listed squares that are on the board and blank or an enemy, and keeps them distinct |
| Brain.Landing | brain.py:109-116 | the table filter keeps at most as many squares as the table lists |
| Brain.KnightMoves | brain.py:93-117 | the knight list filters its eight-jump table, so it holds at most 8 squares |
| Brain.KingMoves | brain.py:195-219 | the king list filters its eight-neighbour table, so it holds at most 8 squares |
| Brain.KnightTable | brain.py:97-106 | the knight's table lists exactly the eight (2, 1) and (1, 2) jumps |
| Brain.KingTable | brain.py:199-209 | the king's table lists exactly the eight neighbouring squares |
| Brain.OffsetsDistinct | brain.py:97-106 | neither table repeats a square |
| Brain.KnightMembers | brain.py:93-117 | knight moves are exactly the on-board jumps onto a blank or enemy square, distinct, never the knight's own square |
| Brain.KingMembers | brain.py:195-219 | king moves are exactly the on-board neighbours that are blank or enemy, distinct, never the king's own square |
| Brain.WhenFour | brain.py:228-239 | the four guarded pawn appends list exactly the candidates whose guard holds, without repeats |
| Brain.BlackPawnMoves | brain.py:222-241 | the black pawn lists at most 4 squares, and the double step only from row 1 and only when the single step it passes over is listed too |
| Brain.WhitePawnMoves | brain.py:244-264 | the white pawn lists at most 4 squares, and the double step only from row 6 and only when the single step it passes over is listed too |
| Brain.BlackPawnShape | brain.py:222-241 | black pawn moves go down the board onto blank or White squares, without repeats |
| Brain.WhitePawnShape | brain.py:244-264 | white pawn moves go up the board onto blank or Black squares, without repeats |
| Brain.SliderShape | brain.py:17-24 | for rooks, bishops and queens the list is sound, distinct, and does not hold the piece's own square |
| Brain.PossibleMoves | brain.py:1-32 | dispatches on the letter as get_possible_moves does; no piece is given more than 27 squares |
| Brain.LeaperShape | brain.py:19-26 | the same for knights and kings |
| Brain.PawnShape | brain.py:27-32 | the same for pawns; a square without a piece letter gives the empty list |
| Brain.PossibleMovesShape | brain.py:1-32 | every listed destination is on the board, blank or an enemy, listed once, never the start square; a blank or unknown square gives no moves |
| Brain.ScanSwap | brain.py:48-56 | a ray scan lists the same squares, in the same order, after every piece on the board changes colour |
| Brain.LandingSwap | brain.py:109-116 | the table filter keeps the same squares, in the same order, after every piece changes colour |
| Brain.SliderSwap | brain.py:42-90 | the rook's and the bishop's lists are unchanged, order included, when every piece changes colour |
| Brain.PossibleMovesSwap | brain.py:14-30 | the list of a rook, knight, bishop, queen or king, of either colour, is unchanged, order included, when every piece on the board changes colour |
| Brain.StartRookExample | brain.py:280-284 | the rook in the corner of the starting position has no moves |
| Brain.KnightCorner | brain.py:93-117 | a black knight on (0, 1) with (1, 3) own-occupied and (2, 0), (2, 2) blank has exactly the moves (2, 0) then (2, 2) |
| Brain.StartKnightExample | brain.py:286-292 | in the starting position the knight on (0, 1) has exactly (2, 0) then (2, 2) |
| Brain.PawnCorner | brain.py:244-264 | a white pawn on (6, 0) with open squares ahead moves to (5, 0) then (4, 0) |
| Brain.StartPawnExample | brain.py:294-300 | in the starting position the pawn on (6, 0) moves to (5, 0) then (4, 0) |
| Brain.Slide | brain.py:48-56 | the loop over one direction builds exactly that direction's ray |
| Brain.GetRookMoves | brain.py:42-90 | the four loops build the rook list, whose shape RookShape states |
| Brain.GetBishopMoves | brain.py:120-182 | the four while loops build the bishop list, whose shape BishopShape states |
| Brain.FilterLandings | brain.py:109-116 | the filter loop keeps exactly the table entries LandingMembers describes, in order |
| Brain.GetKnightMoves | brain.py:93-117 | builds the knight list of KnightMembers |
| Brain.GetKingMoves | brain.py:195-219 | builds the king list of KingMembers |
| Brain.GetPossibleMoves | brain.py:1-32 | dispatches on the letter and builds the list PossibleMovesShape describes; the queen's list is the rook's followed by the bishop's |
| Validation.PawnRule | chattaranj-pve.py:199-226 | an accepted pawn move goes forward only: one row, or two rows straight from its start row over a blank square; at most one column aside; straight exactly when the target is blank |
| Validation.RookRule | chattaranj-pve.py:228-240 | an accepted rook move stays on its row or column; the null move and a single orthogonal step are always accepted |
| Validation.KnightRule | chattaranj-pve.py:242-244 | accepted exactly when the target is three squares away counting rows and columns, with both row and column changing |
| Validation.BishopRule | chattaranj-pve.py:246-256 | an accepted bishop move changes both row and column; a single diagonal step is always accepted |
| Validation.KingRule | chattaranj-pve.py:298-300 | accepted exactly for the null move, one orthogonal step or one diagonal step |
| Validation.Accepts | chattaranj-pve.py:185-302 | an accepted move is admissible (the mover's own piece, the target not its own); a move onto the start square is accepted only for a rook, queen or king; a queen is accepted iff the rook or the bishop rule accepts |
| Validation.RowClear | chattaranj-pve.py:229-234 | the horizontal scan answers True exactly when every square strictly between start and end is blank |
| Validation.ColumnClear | chattaranj-pve.py:235-240 | the vertical scan answers the same for the column |
| Validation.DiagonalClear | chattaranj-pve.py:246-257 | the diagonal scan answers True exactly for a proper diagonal with blank squares between; on a null move its wrapped walk meets a piece and answers False |
| Validation.ValidateMove | chattaranj-pve.py:185-302 | the method, loops and queen recursion included, returns exactly `Accepts` |
| Agreement.RayMember | brain.py:120-182 | a square on a direction line is on that ray iff it is on the board, the path to it is blank, and it is blank or an enemy |
| Agreement.OwnIffUnreachable | chattaranj-pve.py:196-197 | for the side's own piece, the validator's "not my own target" test and the generator's "blank or enemy" test agree |
| Agreement.RookAgree | brain.py:42-90 | the rook list holds a square iff it differs from the start, is reachable, and the rook rule accepts it |
| Agreement.BishopAgree | brain.py:120-182 | the bishop list holds a square iff it is reachable and the bishop rule accepts it |
| Agreement.WhitePawnAgree | brain.py:244-264 | the white pawn list holds a square iff the target is not White and the pawn rule accepts it |
| Agreement.BlackPawnAgree | brain.py:222-241 | the black pawn list holds a square iff the target is not Black and the pawn rule accepts it |
| Agreement.KnightShapes | chattaranj-pve.py:242-244 | the validator's knight offsets are the generator's knight jumps |
| Agreement.KingShapes | chattaranj-pve.py:298-300 | the validator's king rule is the generator's king step, plus the null move |
| Agreement.RookCase | chattaranj-pve.py:228-241 | for a rook of the side to move, validate_move accepts a target iff get_possible_moves lists it |
| Agreement.BishopCase | chattaranj-pve.py:246-257 | the same for a bishop; validation never raises for it |
| Agreement.QueenCase | chattaranj-pve.py:258-297 | the same for a queen |
| Agreement.KnightCase | chattaranj-pve.py:242-245 | the same for a knight |
| Agreement.KingCase | chattaranj-pve.py:298-300 | the same for a king (its own square is rejected by both: the validator sees an own piece on the target) |
| Agreement.WhitePawnCase | chattaranj-pve.py:200-213 | the same for a white pawn |
| Agreement.BlackPawnCase | chattaranj-pve.py:214-226 | the same for a black pawn |
| Agreement.Agreement | chattaranj-pve.py:185-302 | on a well-formed board, for a piece of the side to move, validate_move returns normally and accepts exactly the listed destinations |
| Pve.Score | chattaranj-pve.py:81-93 | a move scores between 0 and 9.1; a quiet move off the centre scores 0 |
| Pve.CaptureValue | chattaranj-pve.py:62-87 | a capture is worth 0 to 9 pawns, always a whole number of pawns |
| Pve.ArgMax | chattaranj-pve.py:95-98 | the strict `>` update picks the first index of a greatest score |
| Pve.ArgMaxUnique | chattaranj-pve.py:107-109 | an index that is greatest and strictly above every earlier score is the one the scan picks |
| Pve.ChosenIsBest | chattaranj-pve.py:80-98 | choose_best_square keeps a listed move with its own score, no listed move scores more, and every earlier-listed move scores less |
| Pve.CaptureBeatsQuiet | chattaranj-pve.py:84-93 | capturing any valued piece outscores every quiet move, centre bonus included |
| Pve.MovesOnBoard | brain.py:1-32 | every move list the bot gets can be scored |
| Pve.Refresh | chattaranj-pve.py:103-106 | one update pass recomputes the list from the piece's square and keeps kind, value and square; with no moves the best pair is kept |
| Pve.Created | chattaranj-pve.py:43-50 | a created piece has the square's letter, the value table's entry, its square, and that square's move list |
| Pve.NewPiece | chattaranj-pve.py:22-29 | a new Piece is sane (on-board square and move, score 0), has no moves and value 0 |
| Pve.PieceValue | chattaranj-pve.py:39 | every value of the creation table is positive, and a White letter has none |
| Pve.ValueTables | chattaranj-pve.py:39-75 | the creation table is defined exactly on the six Black letters; a capture is worth something exactly for pawn, knight, bishop, rook and queen of either colour; the two tables agree on those five; the king gets 1337 when created and 0 when captured |
| Pve.BotBoardFrame | chattaranj-pve.py:113-115 | the bot's move writes the mover's letter on its best square, blanks its old square, and changes nothing else |
| Pve.BotPieces | chattaranj-pve.py:100-117 | after the bot's move the list keeps its length and only sane pieces |
| Pve.RefreshAll | chattaranj-pve.py:102-106 | the pass over the list keeps its length and every piece sane |
| Pve.RefreshAllAt | chattaranj-pve.py:102-106 | the k-th refreshed piece is the k-th piece refreshed |
| Pve.RowPiecesAt | chattaranj-pve.py:42-51 | the c-th piece made for a row is the piece created for (row, c) |
| Pve.LastRowAt | chattaranj-pve.py:41-51 | the pieces of the row made last follow the 8 * (rows - 1) pieces of the rows before it |
| Pve.EarlierRowsAt | chattaranj-pve.py:41-51 | making another row leaves the pieces already made where they were |
| Pve.CreatedAt | chattaranj-pve.py:41-51 | piece 8r + c of the bot's list is the piece created for square (r, c) |
| Pve.GreedyPick | chattaranj-pve.py:100-109 | the picked piece scores at least as much as every other, and when it has moves its best move is one of them and beats all of them |
| Pve.Bot.BestPiece | chattaranj-pve.py:113-116 | the piece best_piece names is one the bot can move |
| Pve.Bot.ChooseBestSquare | chattaranj-pve.py:57-98 | the loop leaves the piece with the first best-scoring move and its score, or untouched when the list is empty |
| Pve.Bot.RefreshAt | chattaranj-pve.py:103-106 | recomputes one piece exactly as the pass does |
| Pve.Bot.Rescan | chattaranj-pve.py:100-109 | the loop refreshes every piece and, when there are pieces, points best_piece at the first with the highest score |
| Pve.Bot.UpdateMoves | chattaranj-pve.py:100-109 | update_moves: pieces refreshed, best_piece the first greatest (kept on an empty list) |
| Pve.Bot.Shift | chattaranj-pve.py:114-115 | blanks the old square, then writes the letter on the new one |
| Pve.Bot.Advance | chattaranj-pve.py:113-117 | moves the best piece on the board and, through the alias, in the list; best_piece becomes a fresh Piece |
| Pve.Bot.Move | chattaranj-pve.py:111-119 | move: the board and list become BotBoard and BotPieces of the old state, and the same array comes back |
| Pve.Bot.MakePiece | chattaranj-pve.py:43-50 | builds the created piece of a square |
| Pve.Bot.MakeRow | chattaranj-pve.py:42-51 | appends the eight pieces of one row in column order |
| Pve.Bot.MakeRows | chattaranj-pve.py:41-51 | builds the pieces of rows 0 and 1 in row-major order |
| Pve.Bot.CreatePieces | chattaranj-pve.py:38-55 | appends the sixteen created pieces; the length check passes exactly when the list was empty before |
| Pve.Bot.constructor | chattaranj-pve.py:33-36 | a new bot holds the sixteen created pieces and a detached blank best piece |
| Pve.PlayerMoveFrame | chattaranj-pve.py:178-179 | the human's move blanks the start square, writes the letter on a distinct target, and changes nothing else |
| Pve.Game.constructor | chattaranj-pve.py:143-161 | the starting position, nothing chosen, White, (0, 0) squares, no listed moves |
| Pve.Game.Select | chattaranj-pve.py:166-170 | the first click records the letter, the square and its generated move list |
| Pve.Game.Place | chattaranj-pve.py:178-179 | writes the human's move into the array |
| Pve.Game.Answer | chattaranj-pve.py:178-182 | a matched click plays the human move, clears the choice, and the board and bot become the bot's reply |
| Pve.Game.Play | chattaranj-pve.py:172-182 | a click off the list changes only end_x and end_y; a click on the list plays it once, the list being distinct |
| Pve.Game.Move | chattaranj-pve.py:165-182 | move: the first click selects; the second plays a listed target with the bot's reply, and otherwise waits |
| Pvp.PutBack | chattaranj-pvp.py:80-81 | writing the lifted letter back onto its square restores the board as it was before the first click |
| Pvp.TurnFrame | chattaranj-pvp.py:58-75 | an accepted turn leaves the letter on the target, blanks the start square and changes nothing else; a turn onto the start square changes nothing |
| Pvp.NullMoveAccepted | chattaranj-pvp.py:58-75 | with the start square blanked, a move onto it is accepted exactly for a rook, queen or king of the side to move |
| Pvp.Game.constructor | chattaranj-pvp.py:37-54 | the starting position, nothing in play, White, (0, 0) squares |
| Pvp.Game.ValidateMove | chattaranj-pvp.py:88-158 | the method on the game's fields returns exactly `Accepts`; its queen asks again with the field is_white, which decides the same way |
| Pvp.Game.Reset | chattaranj-pvp.py:80-86 | the letter in play goes back to the start square, squares become (0, 0), nothing is in play |
| Pvp.Game.Lift | chattaranj-pvp.py:59-63 | the first click puts the square's letter in play, blanks the square and records it as the start |
| Pvp.Game.Drop | chattaranj-pvp.py:73-75 | the letter in play lands on the target, nothing is in play, and the other side moves |
| Pvp.Game.Move | chattaranj-pvp.py:58-78 | move: the first click lifts; a rejected second click is reset; accepting a king capture ends the game with the board untouched; any other accepted click drops the letter and passes the turn |

## Left out

- The display: pygame, drawing, icons, timed text, `print` and the main loops
  are left out. Clicks arrive as (col, row) on the board. The 960-pixel
  window divided into 120-pixel squares gives no other values.
- The exits are left out: `quit()` after a failed piece count and the
  game-over exit of the two-player game. The former cannot happen, because
  `CreatePieces` proves the count is 16. The latter is the `GameOver`
  outcome.
- Floating point: scores are integer tenths, and the bot's minus-infinity
  start is `None`.
- Case functions are ASCII only. The boards hold nothing else.
- Brain.PossibleMovesSwap: pawns are left out of the colour-swap symmetry.
  The two colours step in opposite directions, so a swapped pawn's list
  matches only after the board is also mirrored top to bottom. That mirrored
  form is not stated.
- Validation.ScanTerminates: a bishop asked to move onto its own square
  walks off the board in the source. Python's negative indices let it wrap
  until a piece stops it or an IndexError is raised. The model requires that
  a piece stops it, so the raising case is outside the model.
- Pvp.Game.Move: its second click carries that same precondition.
- The attribute `piece.best_Score` is misspelt in the source and read by
  nothing, so it is not a field. Its consequence is modelled: `best_score`
  is not reset when a piece's move list is empty, so a piece with no moves
  keeps its old best pair. `Refresh` states this.
- Pve.Game: its `is_white` is read only by the main loop, as a guard on the
  human's clicks (chattaranj-pve.py:364). Nothing ever sets it to False, so
  the guard always passes, and the main loop is not modelled. The program's
  own validate_move is never called by it. It is modelled anyway, as the
  shared `Accepts`.
- The bot's own pieces are records looked up by index. Object identity is
  replaced by the `Best` index, so a captured bot piece stays in the list
  and is rescanned from its stale square, as in the source.
- Pve.Bot: the read-only methods (`ChooseBestSquare`, `Rescan`, `MakePiece`
  and the others) take the board as a value. Only `Shift`, `Advance` and
  `Move` write to the array.
- The source's longer methods are split into helper methods whose contracts
  compose to the original: `MoveScore`, `Rescan`, `MakeRow`, `MakeRows`, `Select`,
  `Answer`, `Play`, `Lift` and `Drop`.
