# Tic-tac-toe engine core in Dafny

A model of the core of a small Rust tic-tac-toe engine: the immutable 3x3
board and its eight winnable segments, the rules evaluator that classifies a
board as a win, a draw or a pending game, the turn loop that lets two players
alternate until the game is decided, and the scripted test player whose moves
drive that loop.

- `wrappers.dfy` (`Wrappers`): `Option` and `Result`.
- `player.dfy` (`Players`): a player identity is its marker; player equality is
  marker equality.
- `board.dfy` (`Boards`): cells, cell references and boards as values; the
  empty board, the empty-cell query, segment enumeration (for any square
  size, as the source computes it from `size`) and `OccupyCell`, which returns
  a new board and leaves the old one untouched.
- `board_text.dfy` (`BoardText`): the whitespace-separated board text used to
  set up positions, its parser, and the cell/board rendering with a
  parse-after-render round trip.
- `rules.dfy` (`Rules`): `GameState`, segment winners and the classifier.
- `mock_player.dfy` (`MockPlayers`): the scripted player, a class whose move
  list is consumed from the back; a missing move is a `Result` error.
- `game.dfy` (`GameLoop`): the game as a function of the two scripts
  (`PlayFrom`, `Play`, with the trace of turns it played) and the loop
  `PlayGame` over two scripted player objects, proved equal to it.
- `scenarios.dfy` (`Scenarios`): the concrete boards and games of the
  engine's own examples, evaluated with the model.

Loops of the source stay loops: `EmptyBoard`, `Segments`, `WithBoard`,
`MockPlayer.GetMove` and `PlayGame` are methods, each proved equal to the
function the rest of the model reasons with (`Blank`, `SegmentsOf`,
`ParsedBoard`, `NextMove`/`Pop`, `Play`).

## Model

| member | source | states |
|---|---|---|
| Players.SamePlayer | src/player.rs:10-13 | two players are equal exactly when their markers are equal |
| Players.SamePlayerIsEquivalence | src/player.rs:11-12 | player equality is reflexive, symmetric and transitive |
| Boards.Cell.Marker | src/board.rs:15-17 | a cell has a marker exactly when it is occupied, and it is the occupant's marker |
| Boards.EmptyBoard | src/board.rs:32-41 | the new board has size 3 and nine cells; cell i has reference i and no occupant |
| Boards.BlankIsEmpty | src/board.rs:32-41 | the empty board is well formed and all nine references, in order, are empty cells |
| Boards.EmptyCells | src/board.rs:43-48 | a reference is listed exactly when some unoccupied cell carries it; no more entries than cells |
| Boards.EmptyCellsOfValid | src/board.rs:43-48 | on a well-formed board, reference i is listed iff cell i is unoccupied, and the list is strictly ascending |
| Boards.SegmentsOf | src/board.rs:54-74 | there are 2·size+2 segments, each of size cells |
| Boards.Segments | src/board.rs:54-74 | the nested loop builds exactly `SegmentsOf`: row r and column r at positions 2r and 2r+1, then the main and the anti-diagonal |
| Boards.SegmentsOfThreeByThree | src/board.rs:58-72 | on a 3x3 board the segments are cells 0 1 2, 0 3 6, 3 4 5, 1 4 7, 6 7 8, 2 5 8, 0 4 8, 2 4 6 in that order |
| Boards.OccupyCell | src/board.rs:76-85 | the result keeps size and length, holds the occupant at the reference (even over an occupied cell), leaves every other cell as it was and stays well formed |
| Boards.OccupyEmptyCell | src/board.rs:76-85 | occupying an empty cell removes exactly that reference from the empty cells, so their count drops by one |
| BoardText.Tokens | src/board.rs:90 | every token is a non-empty run of non-whitespace characters |
| BoardText.TokensOfJoin | src/board.rs:90 | splitting words joined by single spaces gives the words back |
| BoardText.OccupantFor | src/board.rs:91-98 | a token is player one's when it is player one's marker, else player two's when it is theirs, else the cell is empty |
| BoardText.ParsedBoard | src/board.rs:88-102 | nine tokens give a well-formed board |
| BoardText.WithBoard | src/board.rs:88-102 | the parser builds a size-3 board with one cell per token, cell i with reference i and the occupant token i names |
| BoardText.CellText | src/board.rs:111-113 | an empty cell renders as "-", an occupied one as its occupant's marker |
| BoardText.TokensAppendSpace | src/board.rs:90 | a trailing space, as the board strings of the examples carry, adds no token |
| BoardText.FormatBoard | src/board.rs:115-120 | when every cell's text is one word, splitting the rendering gives the cells' texts back in index order |
| BoardText.ParseFormatRoundTrip | src/board.rs:115-120 | parsing a rendered 3x3 board whose two markers are printable gives the same board |
| Rules.SameState | src/rules.rs:4-10 | two game states are equal exactly when they are the same state with the same winner |
| Rules.AllMarked | src/rules.rs:30-32 | holds exactly when every cell carries the given marker |
| Rules.SegmentWinner | src/rules.rs:27-40 | a segment has a winner iff it is non-empty, its first cell is occupied and every later cell carries that occupant's marker; the winner is the first cell's occupant |
| Rules.FirstWinner | src/rules.rs:13-18 | no winner iff no segment has one; otherwise the winner of the first winning segment in order |
| Rules.AnalyzeGameState | src/rules.rs:12-25 | Win iff some segment is won, by the first winning segment's owner; Draw iff none is won and no cell is empty; Pending iff none is won and a cell is empty |
| Rules.LineFilledIsWin | src/rules.rs:13-22 | a segment filled by one player makes the board a win even when it is full, and that player's win when no earlier segment is won |
| Rules.FullBoardIsDecided | src/rules.rs:20-24 | a well-formed board with no empty cell is never pending |
| MockPlayers.Pop | src/mock_player.rs:32 | a non-empty script loses exactly its last entry; an empty one stays empty |
| MockPlayers.NextMove | src/mock_player.rs:30-38 | out of moves iff the script is empty; not found iff the last index is not below the cell count; otherwise the reference of the cell at that index, occupied or not, whatever the opponent |
| MockPlayers.NextMoveOnValidBoard | src/mock_player.rs:33-37 | on a well-formed board the move is the reference with the scripted index |
| MockPlayers.MockPlayer.constructor | src/mock_player.rs:16-18 | the player has the given marker and script |
| MockPlayers.MockPlayer.WithMarker | src/mock_player.rs:20-22 | the player has the given marker and an empty script |
| MockPlayers.MockPlayer.Boxed | src/mock_player.rs:12-14 | a fresh player with the given marker and an empty script |
| MockPlayers.MockPlayer.GetMarker | src/mock_player.rs:26-28 | returns the stored marker, the marker of the player's identity |
| MockPlayers.MockPlayer.GetMove | src/mock_player.rs:30-38 | the script loses its last entry (also when that entry names no cell) and the result is `NextMove` of the old script |
| MockPlayers.EqualityIgnoresScript | src/player.rs:11-12 | two scripted players with the same marker are equal whatever their scripts |
| GameLoop.PlayFrom | src/lib.rs:16-28 | the turns lead from the start board to the final one, every turn is played on a pending board, there are no more turns than scripted moves, a normal end is the final board's non-pending state and a failed move leaves a pending board |
| GameLoop.PlayFromStep | src/lib.rs:19-24 | on a pending board the current player occupies the chosen cell and the game continues with roles swapped |
| GameLoop.PlayFromStops | src/lib.rs:17-26 | a decided board or a failed move ends the game with no further turn; a decided board ends it with that board's state and both scripts untouched, a failed move with that move's error and the mover's last entry popped |
| GameLoop.TurnLeads | src/lib.rs:19-24 | a turn taken on a pending board, followed by turns that lead on from the board it produces, leads from that board to the same end, every turn on a pending board |
| GameLoop.ScriptsConsumedStep | src/mock_player.rs:30-32 | one more turn in front of a run uses one more entry from the back of the mover's script |
| GameLoop.ScriptsLeft | src/mock_player.rs:30-32 | after t turns the first mover's script has lost its last (t + 1) / 2 entries and the other's its last t / 2, and a run ended by an error has also lost the failing mover's last entry |
| GameLoop.PlayersAlternate | src/lib.rs:22-24 | turn i is played by the first player when i is even and by the second when odd |
| GameLoop.Play | src/lib.rs:13-24 | the game starts on the empty board with player one to move, its turns lead from the empty board to the final one, the players alternate starting with player one, and the scripts keep what `ScriptsLeft` says |
| GameLoop.LegalTurnsUseUpEmptyCells | src/lib.rs:19-21 | when every turn takes an empty cell, each turn removes one empty cell |
| GameLoop.LegalGameEndsWithinNineTurns | src/lib.rs:16-28 | a game whose moves all take empty cells lasts at most nine turns, and one that ends without an error ends in the win or draw of its last board |
| GameLoop.PlayGame | src/lib.rs:12-29 | the loop over two player objects returns `Play`'s outcome and leaves each script as `Play` says |
| Scenarios.EmptyCellsOfSample | src/board.rs:129-146 | on `X - X / O O - / - - -` the empty cells are 1, 5, 6, 7, 8 |
| Scenarios.SampleText | src/board.rs:88-102 | the example boards are what the parser builds from their tokens joined with spaces, with or without the trailing space the example strings end in |
| Scenarios.SegmentTextsExample | src/board.rs:148-176 | the segment texts of `X O X / X - O / X O O` are XOX, XXX, X-O, O-O, XOO, XOO, X-O, X-X |
| Scenarios.EmptyCellsBeforeMove | src/board.rs:179-187 | on `X O X / X - O / X O O` the only empty cell is 4 |
| Scenarios.SampleOccupy | src/board.rs:76-85 | occupying cell i of an example board with X or O gives the example board with that player's token at i |
| Scenarios.MakesAMove | src/board.rs:178-201 | X taking the first empty cell gives `X O X / X X O / X O O`, and the old board still has cell 4 empty |
| Scenarios.BlankIsPending | src/rules.rs:47-54 | the empty board is pending |
| Scenarios.XWinsFirstRow | src/rules.rs:56-69 | `X X X / O O - / - - -` is a win for X |
| Scenarios.XWinsSecondRow | src/rules.rs:71-84 | `O O - / X X X / - - -` is a win for X |
| Scenarios.XWinsThirdRow | src/rules.rs:86-99 | `O O - / - - - / X X X` is a win for X |
| Scenarios.OWinsFirstRow | src/rules.rs:101-114 | `O O O / - - - / - - -` is a win for O |
| Scenarios.OWinsSecondRow | src/rules.rs:116-129 | `X X - / O O O / - - -` is a win for O |
| Scenarios.OWinsThirdRow | src/rules.rs:131-144 | `- - - / X X - / O O O` is a win for O |
| Scenarios.XWinsFirstColumn | src/rules.rs:146-159 | `X O - / X O - / X - -` is a win for X |
| Scenarios.XWinsSecondColumn | src/rules.rs:161-174 | `O X - / O X - / - X -` is a win for X |
| Scenarios.XWinsThirdColumn | src/rules.rs:176-189 | `O - X / O - X / - - X` is a win for X |
| Scenarios.OWinsFirstColumn | src/rules.rs:191-204 | `O X - / O X - / O - -` is a win for O |
| Scenarios.OWinsSecondColumn | src/rules.rs:206-219 | `X O - / X O - / - O -` is a win for O |
| Scenarios.OWinsThirdColumn | src/rules.rs:221-234 | `- X O / - X O / - - O` is a win for O |
| Scenarios.XWinsDiagonal | src/rules.rs:236-249 | `X - - / O X O / - - X` is a win for X |
| Scenarios.XWinsAntiDiagonal | src/rules.rs:251-264 | `- - X / O X O / X - -` is a win for X |
| Scenarios.OWinsDiagonal | src/rules.rs:266-279 | `O - - / X O X / - - O` is a win for O |
| Scenarios.OWinsAntiDiagonal | src/rules.rs:281-294 | `- - O / X O X / O - -` is a win for O |
| Scenarios.FullBoardDraw | src/rules.rs:296-309 | `X X O / O O X / X O X` is a draw |
| Scenarios.OneEmptyCellPending | src/rules.rs:311-324 | `X X O / O O - / X O X` is pending |
| Scenarios.TieScriptsEndInWinForX | src/lib.rs:36-44 | the example's scripts X [0, 8, 1, 3, 6] and O [4, 7, 2, 5] end in a win for X |
| Scenarios.PlayTieScripts | src/lib.rs:36-44 | running the loop on two player objects with those scripts returns X's win |
| Scenarios.ScriptedDraw | src/lib.rs:12-29 | scripts X [8, 6, 5, 1, 0] and O [7, 4, 3, 2] fill the board without a line and end in a draw |
| Scenarios.PlayDrawScripts | src/lib.rs:12-29 | running the loop on two player objects with those scripts returns a draw |
| Scenarios.ScriptedRowWin | src/lib.rs:12-29 | X's scripted moves 0, 1, 2 complete the top row and the game ends in X's win |

## Left out

- Lifetimes, `Box<dyn Player>`, `RefCell` and `to_boxed` (src/player.rs:7, src/mock_player.rs:40-42): ownership and allocation details; a player identity is a value carrying its marker, and `Boxed` returns a fresh object.
- The `Player` trait as an open interface (src/player.rs:4-8): the scripted player is the only implementation in the code, so the loop is modelled over scripted players; other strategies (human input, search) are not part of this model.
- Panics: running out of moves and a move index with no cell (src/mock_player.rs:32-35) are the `Result` errors `OutOfMoves` and `MoveNotFound(i)`, and `PlayGame` ends with that error instead of unwinding; an out-of-range index given to `occupy_cell` (src/board.rs:78-79) is a precondition of `OccupyCell`.
- GameLoop.PlayGame: requires the two player objects to be distinct; the same scripted player passed as both players (one shared move list) is not modelled.
- `Cell::get_reference`, `Cell::get_occupant` (src/board.rs:19-25) and `Board::cells` (src/board.rs:50-52): plain field reads and an iterator over the cells; the model reads the fields and the cell sequence directly.
- BoardText.Tokens: whitespace is the Unicode White_Space property as a fixed list of characters; `trim` before splitting (src/board.rs:90) changes nothing the splitter does not already skip.
- Board sizes other than 3 in the text format: the parser always records size 3 (src/board.rs:101), as the code does, whatever the number of tokens.
- The assertion that the example at src/lib.rs:36-44 ends in a draw: the model proves the outcome of those scripts is X's win (see Findings).

## Findings

| source | as written | input that shows it | evidently intended | confidence | as-written member | corrected member |
|---|---|---|---|---|---|---|
| src/lib.rs:37-43 | the full-game example scripts X [0, 8, 1, 3, 6] and O [4, 7, 2, 5] and expects a draw | moves are taken from the back of each script: X 6, O 5, X 3, O 2, X 1, O 7, X 8, O 4, X 0; X then holds cells 0, 3 and 6, column 0 | scripts that fill the board without a line, such as X [8, 6, 5, 1, 0] and O [7, 4, 3, 2], ending in a draw | high; not executed | Scenarios.TieScriptsEndInWinForX | Scenarios.ScriptedDraw |
