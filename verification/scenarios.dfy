/**
 * Concrete positions and scripted games: the sample boards of the engine's
 * own examples, evaluated with the model.
 */
module Scenarios {
  import opened Wrappers
  import opened Players
  import opened Boards
  import opened BoardText
  import opened Rules
  import opened MockPlayers
  import opened GameLoop

  const X := Player("X")
  const O := Player("O")

  /** The 3x3 board read from nine tokens, "X" for X, "O" for O. */
  function Sample(tokens: seq<string>): (b: Board)
    requires |tokens| == 9
    ensures Valid(b) && b.size == 3 && |b.cells| == 9
  {
    ParsedBoard(X, O, tokens)
  }

  /** `X - X / O O - / - - -` has empty cells 1, 5, 6, 7 and 8, in that order. */
  lemma EmptyCellsOfSample()
    ensures EmptyCells(Sample(["X", "-", "X", "O", "O", "-", "-", "-", "-"]))
         == [CellRef(1), CellRef(5), CellRef(6), CellRef(7), CellRef(8)]
  {
    var b := Sample(["X", "-", "X", "O", "O", "-", "-", "-", "-"]);
    var c := b.cells;
    assert c == [Cell(CellRef(0), Some(X)), Cell(CellRef(1), None), Cell(CellRef(2), Some(X)),
                 Cell(CellRef(3), Some(O)), Cell(CellRef(4), Some(O)), Cell(CellRef(5), None),
                 Cell(CellRef(6), None), Cell(CellRef(7), None), Cell(CellRef(8), None)];
  }

  /** The empty board is pending. */
  lemma BlankIsPending()
    ensures AnalyzeGameState(Blank()) == Pending
  {
    BlankIsEmpty();
    var s := SegmentsOf(Blank());
    SegmentsOfThreeByThree(Blank());
    assert EmptyCells(Blank())[0] == CellRef(0);
  }

  /** The cell indices of the eight segments of a 3x3 board, in segment order. */
  const Lines: seq<seq<nat>> :=
    [[0, 1, 2], [0, 3, 6], [3, 4, 5], [1, 4, 7], [6, 7, 8], [2, 5, 8], [0, 4, 8], [2, 4, 6]]

  /** Nine tokens, each "X", "O" or "-". */
  ghost predicate SampleTokens(tokens: seq<string>) {
    |tokens| == 9 && forall i :: 0 <= i < 9 ==> tokens[i] in {"X", "O", "-"}
  }

  /** A sample board's segments, and its cells' markers, read off the tokens. */
  lemma SampleCells(tokens: seq<string>)
    requires SampleTokens(tokens)
    ensures forall k, j :: 0 <= k < 8 && 0 <= j < 3 ==>
      SegmentsOf(Sample(tokens))[k][j] == Sample(tokens).cells[Lines[k][j]]
    ensures forall i :: 0 <= i < 9 ==>
      Sample(tokens).cells[i].Marker() == (if tokens[i] == "-" then None else Some(tokens[i]))
  {
    SegmentsOfThreeByThree(Sample(tokens));
  }

  /**
   * The first |mismatch| segments of a sample board have no winner: in
   * segment k, either the first cell is empty or cell mismatch[k] of the
   * segment holds another token than the first.
   */
  lemma NoEarlyWinner(tokens: seq<string>, mismatch: seq<nat>)
    requires SampleTokens(tokens)
    requires |mismatch| <= 8
    requires forall k :: 0 <= k < |mismatch| ==>
      && 0 < mismatch[k] < 3
      && (tokens[Lines[k][0]] == "-" || tokens[Lines[k][mismatch[k]]] != tokens[Lines[k][0]])
    ensures forall k :: 0 <= k < |mismatch| ==> SegmentWinner(SegmentsOf(Sample(tokens))[k]).None?
    ensures |mismatch| == 8 ==> !HasWinningSegment(Sample(tokens))
  {
    var b := Sample(tokens);
    SampleCells(tokens);
    forall k | 0 <= k < |mismatch|
      ensures SegmentWinner(SegmentsOf(b)[k]).None?
    {
      var segment := SegmentsOf(b)[k];
      assert segment[0] == b.cells[Lines[k][0]];
      assert segment[mismatch[k]] == b.cells[Lines[k][mismatch[k]]];
    }
  }

  /** A sample board with an empty cell and no winning segment is pending. */
  lemma PendingSample(tokens: seq<string>, mismatch: seq<nat>, empty: nat)
    requires SampleTokens(tokens) && |mismatch| == 8
    requires empty < 9 && tokens[empty] == "-"
    requires forall k :: 0 <= k < 8 ==>
      && 0 < mismatch[k] < 3
      && (tokens[Lines[k][0]] == "-" || tokens[Lines[k][mismatch[k]]] != tokens[Lines[k][0]])
    ensures AnalyzeGameState(Sample(tokens)) == Pending
  {
    var b := Sample(tokens);
    NoEarlyWinner(tokens, mismatch);
    EmptyCellsOfValid(b);
    assert CellRef(empty) in EmptyCells(b);
  }

  /** `X X O / O O X / X O X` is a draw. */
  lemma FullBoardDraw()
    ensures AnalyzeGameState(Sample(["X", "X", "O", "O", "O", "X", "X", "O", "X"])) == Draw
  {
    var b := Sample(["X", "X", "O", "O", "O", "X", "X", "O", "X"]);
    NoEarlyWinner(["X", "X", "O", "O", "O", "X", "X", "O", "X"], [2, 1, 2, 1, 1, 1, 1, 2]);
    FullBoardIsDecided(b);
  }

  /** `X X O / O O - / X O X` is pending. */
  lemma OneEmptyCellPending()
    ensures AnalyzeGameState(Sample(["X", "X", "O", "O", "O", "-", "X", "O", "X"])) == Pending
  {
    var b := Sample(["X", "X", "O", "O", "O", "-", "X", "O", "X"]);
    PendingSample(["X", "X", "O", "O", "O", "-", "X", "O", "X"], [2, 1, 2, 1, 1, 1, 1, 2], 5);
  }

  /** The blank board is the sample board with nine "-" tokens. */
  lemma BlankIsSample()
    ensures Blank() == Sample(["-", "-", "-", "-", "-", "-", "-", "-", "-"])
  {
  }

  /**
   * One turn of a scripted game on a pending sample board: the current
   * script's last index is `index`, and the game continues on the board
   * with that cell taken, roles swapped.
   *
   * The board is pending because cell `empty` is blank and no segment is
   * won: `mismatch[k]` is a position (1 or 2) within segment k, whose cells
   * are `Lines[k]`, holding a token other than the segment's first one.
   * Where the segment's first cell is blank, the entry is 1 and plays no
   * part.
   */
  lemma SampleTurn(tokens: seq<string>, mismatch: seq<nat>, empty: nat,
                   current: Player, currentMoves: seq<nat>, opposing: Player, opposingMoves: seq<nat>,
                   index: nat, rest: seq<nat>, after: seq<string>)
    requires SampleTokens(tokens) && |mismatch| == 8
    requires empty < 9 && tokens[empty] == "-"
    requires forall k :: 0 <= k < 8 ==>
      && 0 < mismatch[k] < 3
      && (tokens[Lines[k][0]] == "-" || tokens[Lines[k][mismatch[k]]] != tokens[Lines[k][0]])
    requires current == X || current == O
    requires index < 9 && currentMoves == rest + [index]
    requires after == tokens[index := current.marker]
    ensures PlayFrom(Sample(tokens), current, currentMoves, opposing, opposingMoves).outcome
         == PlayFrom(Sample(after), opposing, opposingMoves, current, rest).outcome
  {
    var b := Sample(tokens);
    PendingSample(tokens, mismatch, empty);
    assert Pop(currentMoves) == rest;
    PlayFromStep(b, current, currentMoves, opposing, opposingMoves, CellRef(index));
    SampleOccupy(tokens, index, current);
  }

  /** Occupying cell `index` of a sample board with X or O writes that player's token there. */
  lemma SampleOccupy(tokens: seq<string>, index: nat, p: Player)
    requires |tokens| == 9 && index < 9
    requires p == X || p == O
    ensures OccupyCell(Sample(tokens), p, CellRef(index)) == Sample(tokens[index := p.marker])
  {
    var before, after := Sample(tokens), Sample(tokens[index := p.marker]);
    var occupied := OccupyCell(before, p, CellRef(index));
    forall i | 0 <= i < 9
      ensures occupied.cells[i] == after.cells[i]
    {
    }
  }

  /** A sample board on which segment k is p's, and no earlier segment has a winner, is p's win. */
  lemma SampleWinner(tokens: seq<string>, mismatch: seq<nat>, k: nat, p: Player)
    requires SampleTokens(tokens) && k < 8 && |mismatch| == k
    requires forall j :: 0 <= j < k ==>
      && 0 < mismatch[j] < 3
      && (tokens[Lines[j][0]] == "-" || tokens[Lines[j][mismatch[j]]] != tokens[Lines[j][0]])
    requires p == X || p == O
    requires forall j :: 0 <= j < 3 ==> tokens[Lines[k][j]] == p.marker
    ensures AnalyzeGameState(Sample(tokens)) == Win(p)
  {
    var b := Sample(tokens);
    NoEarlyWinner(tokens, mismatch);
    SampleCells(tokens);
    LineFilledIsWin(b, k, p);
  }

  /** A game that reaches a sample board won by p ends with p's win, whoever is to move. */
  lemma SampleWin(tokens: seq<string>, mismatch: seq<nat>, k: nat,
                  current: Player, currentMoves: seq<nat>, opposing: Player, opposingMoves: seq<nat>,
                  p: Player)
    requires SampleTokens(tokens) && k < 8 && |mismatch| == k
    requires forall j :: 0 <= j < k ==>
      && 0 < mismatch[j] < 3
      && (tokens[Lines[j][0]] == "-" || tokens[Lines[j][mismatch[j]]] != tokens[Lines[j][0]])
    requires p == X || p == O
    requires forall j :: 0 <= j < 3 ==> tokens[Lines[k][j]] == p.marker
    ensures PlayFrom(Sample(tokens), current, currentMoves, opposing, opposingMoves).outcome == Success(Win(p))
  {
    SampleWinner(tokens, mismatch, k, p);
  }

  /**
   * A sample board is what the text parser builds from its tokens written
   * out with single spaces, player one being X and player two O.
   */
  lemma SampleText(tokens: seq<string>)
    requires SampleTokens(tokens)
    ensures ParsedBoard(X, O, Tokens(Join(tokens))) == Sample(tokens)
    ensures ParsedBoard(X, O, Tokens(Join(tokens) + " ")) == Sample(tokens)
  {
    TokensAppendSpace(Join(tokens));
    forall i | 0 <= i < |tokens|
      ensures IsWord(tokens[i])
    {
      assert tokens[i] == "X" || tokens[i] == "O" || tokens[i] == "-";
    }
    TokensOfJoin(tokens);
  }

  /** The text of each cell of each segment of a sample board is the token at that cell. */
  lemma SampleSegmentTexts(tokens: seq<string>)
    requires SampleTokens(tokens)
    ensures forall k, j :: 0 <= k < 8 && 0 <= j < 3 ==>
      CellText(SegmentsOf(Sample(tokens))[k][j]) == tokens[Lines[k][j]]
  {
    SampleCells(tokens);
  }

  /** The texts of the cells of each segment, segment by segment. */
  function SegmentTexts(b: Board): (texts: seq<seq<string>>)
    requires |b.cells| == b.size * b.size
    ensures |texts| == 2 * b.size + 2
    ensures forall k, j :: 0 <= k < |texts| && 0 <= j < b.size ==>
      |texts[k]| == b.size && texts[k][j] == CellText(SegmentsOf(b)[k][j])
  {
    var segments := SegmentsOf(b);
    seq(|segments|, k requires 0 <= k < |segments| =>
      seq(|segments[k]|, j requires 0 <= j < |segments[k]| => CellText(segments[k][j])))
  }

  /** The segment texts of a sample board are its tokens read along the eight lines. */
  lemma SampleSegmentLines(tokens: seq<string>)
    requires SampleTokens(tokens)
    ensures SegmentTexts(Sample(tokens))
         == seq(8, k requires 0 <= k < 8 => [tokens[Lines[k][0]], tokens[Lines[k][1]], tokens[Lines[k][2]]])
  {
    var texts := SegmentTexts(Sample(tokens));
    var lines := seq(8, k requires 0 <= k < 8 => [tokens[Lines[k][0]], tokens[Lines[k][1]], tokens[Lines[k][2]]]);
    forall k | 0 <= k < 8
      ensures texts[k] == lines[k]
    {
      SampleSegmentTexts(tokens);
      assert |texts[k]| == 3;
      assert texts[k][0] == lines[k][0] && texts[k][1] == lines[k][1] && texts[k][2] == lines[k][2];
    }
  }

  /**
   * The segment texts of `X O X / X - O / X O O`: rows and columns
   * interleaved, then the two diagonals.
   */
  lemma SegmentTextsExample()
    ensures SegmentTexts(Sample(["X", "O", "X", "X", "-", "O", "X", "O", "O"]))
         == [["X", "O", "X"], ["X", "X", "X"], ["X", "-", "O"], ["O", "-", "O"],
             ["X", "O", "O"], ["X", "O", "O"], ["X", "-", "O"], ["X", "-", "X"]]
  {
    SampleSegmentLines(["X", "O", "X", "X", "-", "O", "X", "O", "O"]);
  }

  /** On `X O X / X - O / X O O` the only empty cell is cell 4. */
  lemma EmptyCellsBeforeMove()
    ensures EmptyCells(Sample(["X", "O", "X", "X", "-", "O", "X", "O", "O"])) == [CellRef(4)]
  {
    var b := Sample(["X", "O", "X", "X", "-", "O", "X", "O", "O"]);
    assert b.cells == [Cell(CellRef(0), Some(X)), Cell(CellRef(1), Some(O)), Cell(CellRef(2), Some(X)),
                       Cell(CellRef(3), Some(X)), Cell(CellRef(4), None), Cell(CellRef(5), Some(O)),
                       Cell(CellRef(6), Some(X)), Cell(CellRef(7), Some(O)), Cell(CellRef(8), Some(O))];
  }

  /**
   * X taking the first empty cell of `X O X / X - O / X O O` gives
   * `X O X / X X O / X O O`, and the board it was taken on still has cell 4
   * empty.
   */
  lemma MakesAMove()
    ensures var b := Sample(["X", "O", "X", "X", "-", "O", "X", "O", "O"]);
      && EmptyCells(b) == [CellRef(4)]
      && OccupyCell(b, X, EmptyCells(b)[0]) == Sample(["X", "O", "X", "X", "X", "O", "X", "O", "O"])
      && b.cells[4].occupant == None
  {
    EmptyCellsBeforeMove();
    var tokens := ["X", "O", "X", "X", "-", "O", "X", "O", "O"];
    SampleOccupy(tokens, 4, X);
    assert tokens[4 := "X"] == ["X", "O", "X", "X", "X", "O", "X", "O", "O"];
  }

  /** A full sample board with no winning segment ends the game in a draw. */
  lemma SampleDraw(tokens: seq<string>, mismatch: seq<nat>,
                   current: Player, currentMoves: seq<nat>, opposing: Player, opposingMoves: seq<nat>)
    requires SampleTokens(tokens) && |mismatch| == 8
    requires forall k :: 0 <= k < 8 ==>
      && 0 < mismatch[k] < 3
      && (tokens[Lines[k][0]] == "-" || tokens[Lines[k][mismatch[k]]] != tokens[Lines[k][0]])
    requires forall i :: 0 <= i < 9 ==> tokens[i] != "-"
    ensures PlayFrom(Sample(tokens), current, currentMoves, opposing, opposingMoves).outcome == Success(Draw)
  {
    var b := Sample(tokens);
    NoEarlyWinner(tokens, mismatch);
    FullBoardIsDecided(b);
  }

  /** `X X X / O O - / - - -` is a win for X. */
  lemma XWinsFirstRow()
    ensures AnalyzeGameState(Sample(["X", "X", "X", "O", "O", "-", "-", "-", "-"])) == Win(X)
  {
    SampleWinner(["X", "X", "X", "O", "O", "-", "-", "-", "-"], [], 0, X);
  }

  /** `O O - / X X X / - - -` is a win for X. */
  lemma XWinsSecondRow()
    ensures AnalyzeGameState(Sample(["O", "O", "-", "X", "X", "X", "-", "-", "-"])) == Win(X)
  {
    SampleWinner(["O", "O", "-", "X", "X", "X", "-", "-", "-"], [2, 1], 2, X);
  }

  /** `O O - / - - - / X X X` is a win for X. */
  lemma XWinsThirdRow()
    ensures AnalyzeGameState(Sample(["O", "O", "-", "-", "-", "-", "X", "X", "X"])) == Win(X)
  {
    SampleWinner(["O", "O", "-", "-", "-", "-", "X", "X", "X"], [2, 1, 1, 1], 4, X);
  }

  /** `O O O / - - - / - - -` is a win for O. */
  lemma OWinsFirstRow()
    ensures AnalyzeGameState(Sample(["O", "O", "O", "-", "-", "-", "-", "-", "-"])) == Win(O)
  {
    SampleWinner(["O", "O", "O", "-", "-", "-", "-", "-", "-"], [], 0, O);
  }

  /** `X X - / O O O / - - -` is a win for O. */
  lemma OWinsSecondRow()
    ensures AnalyzeGameState(Sample(["X", "X", "-", "O", "O", "O", "-", "-", "-"])) == Win(O)
  {
    SampleWinner(["X", "X", "-", "O", "O", "O", "-", "-", "-"], [2, 1], 2, O);
  }

  /** `- - - / X X - / O O O` is a win for O. */
  lemma OWinsThirdRow()
    ensures AnalyzeGameState(Sample(["-", "-", "-", "X", "X", "-", "O", "O", "O"])) == Win(O)
  {
    SampleWinner(["-", "-", "-", "X", "X", "-", "O", "O", "O"], [1, 1, 2, 1], 4, O);
  }

  /** `X O - / X O - / X - -` is a win for X. */
  lemma XWinsFirstColumn()
    ensures AnalyzeGameState(Sample(["X", "O", "-", "X", "O", "-", "X", "-", "-"])) == Win(X)
  {
    SampleWinner(["X", "O", "-", "X", "O", "-", "X", "-", "-"], [1], 1, X);
  }

  /** `O X - / O X - / - X -` is a win for X. */
  lemma XWinsSecondColumn()
    ensures AnalyzeGameState(Sample(["O", "X", "-", "O", "X", "-", "-", "X", "-"])) == Win(X)
  {
    SampleWinner(["O", "X", "-", "O", "X", "-", "-", "X", "-"], [1, 2, 1], 3, X);
  }

  /** `O - X / O - X / - - X` is a win for X. */
  lemma XWinsThirdColumn()
    ensures AnalyzeGameState(Sample(["O", "-", "X", "O", "-", "X", "-", "-", "X"])) == Win(X)
  {
    SampleWinner(["O", "-", "X", "O", "-", "X", "-", "-", "X"], [1, 2, 1, 1, 1], 5, X);
  }

  /** `O X - / O X - / O - -` is a win for O. */
  lemma OWinsFirstColumn()
    ensures AnalyzeGameState(Sample(["O", "X", "-", "O", "X", "-", "O", "-", "-"])) == Win(O)
  {
    SampleWinner(["O", "X", "-", "O", "X", "-", "O", "-", "-"], [1], 1, O);
  }

  /** `X O - / X O - / - O -` is a win for O. */
  lemma OWinsSecondColumn()
    ensures AnalyzeGameState(Sample(["X", "O", "-", "X", "O", "-", "-", "O", "-"])) == Win(O)
  {
    SampleWinner(["X", "O", "-", "X", "O", "-", "-", "O", "-"], [1, 2, 1], 3, O);
  }

  /** `- X O / - X O / - - O` is a win for O. */
  lemma OWinsThirdColumn()
    ensures AnalyzeGameState(Sample(["-", "X", "O", "-", "X", "O", "-", "-", "O"])) == Win(O)
  {
    SampleWinner(["-", "X", "O", "-", "X", "O", "-", "-", "O"], [1, 1, 1, 2, 1], 5, O);
  }

  /** `X - - / O X O / - - X` is a win for X. */
  lemma XWinsDiagonal()
    ensures AnalyzeGameState(Sample(["X", "-", "-", "O", "X", "O", "-", "-", "X"])) == Win(X)
  {
    SampleWinner(["X", "-", "-", "O", "X", "O", "-", "-", "X"], [1, 1, 1, 1, 1, 1], 6, X);
  }

  /** `- - X / O X O / X - -` is a win for X. */
  lemma XWinsAntiDiagonal()
    ensures AnalyzeGameState(Sample(["-", "-", "X", "O", "X", "O", "X", "-", "-"])) == Win(X)
  {
    SampleWinner(["-", "-", "X", "O", "X", "O", "X", "-", "-"], [1, 1, 1, 1, 1, 1, 1], 7, X);
  }

  /** `O - - / X O X / - - O` is a win for O. */
  lemma OWinsDiagonal()
    ensures AnalyzeGameState(Sample(["O", "-", "-", "X", "O", "X", "-", "-", "O"])) == Win(O)
  {
    SampleWinner(["O", "-", "-", "X", "O", "X", "-", "-", "O"], [1, 1, 1, 1, 1, 1], 6, O);
  }

  /** `- - O / X O X / O - -` is a win for O. */
  lemma OWinsAntiDiagonal()
    ensures AnalyzeGameState(Sample(["-", "-", "O", "X", "O", "X", "O", "-", "-"])) == Win(O)
  {
    SampleWinner(["-", "-", "O", "X", "O", "X", "O", "-", "-"], [1, 1, 1, 1, 1, 1, 1], 7, O);
  }

  // The turns of TieScriptsEndInWinForX, one lemma per turn.
  // Every mismatch entry is 1 (the segment's second cell differs from its
  // first, or the first is blank) except two: entry 5 is 2 from the fifth turn, since column
  // 2 reads O O and then cell 8 is blank or X; entry 7 is 2 on the ninth
  // turn, since the anti-diagonal reads O O X (cells 2, 4, 6). The final
  // board is won through column 0 (segment 1), with row 0 refuted at
  // position 2 (X X O).

  lemma TieTurnStart()
    ensures Play(X, [0, 8, 1, 3, 6], O, [4, 7, 2, 5]) == PlayFrom(Sample(["-", "-", "-", "-", "-", "-", "-", "-", "-"]), X, [0, 8, 1, 3, 6], O, [4, 7, 2, 5])
  {
    BlankIsSample();
  }

  lemma TieTurn1()
    ensures PlayFrom(Sample(["-", "-", "-", "-", "-", "-", "-", "-", "-"]), X, [0, 8, 1, 3, 6], O, [4, 7, 2, 5]).outcome
         == PlayFrom(Sample(["-", "-", "-", "-", "-", "-", "X", "-", "-"]), O, [4, 7, 2, 5], X, [0, 8, 1, 3]).outcome
  {
    SampleTurn(["-", "-", "-", "-", "-", "-", "-", "-", "-"], [1, 1, 1, 1, 1, 1, 1, 1], 0, X, [0, 8, 1, 3, 6], O, [4, 7, 2, 5], 6, [0, 8, 1, 3], ["-", "-", "-", "-", "-", "-", "X", "-", "-"]);
  }

  lemma TieTurn2()
    ensures PlayFrom(Sample(["-", "-", "-", "-", "-", "-", "X", "-", "-"]), O, [4, 7, 2, 5], X, [0, 8, 1, 3]).outcome
         == PlayFrom(Sample(["-", "-", "-", "-", "-", "O", "X", "-", "-"]), X, [0, 8, 1, 3], O, [4, 7, 2]).outcome
  {
    SampleTurn(["-", "-", "-", "-", "-", "-", "X", "-", "-"], [1, 1, 1, 1, 1, 1, 1, 1], 0, O, [4, 7, 2, 5], X, [0, 8, 1, 3], 5, [4, 7, 2], ["-", "-", "-", "-", "-", "O", "X", "-", "-"]);
  }

  lemma TieTurn3()
    ensures PlayFrom(Sample(["-", "-", "-", "-", "-", "O", "X", "-", "-"]), X, [0, 8, 1, 3], O, [4, 7, 2]).outcome
         == PlayFrom(Sample(["-", "-", "-", "X", "-", "O", "X", "-", "-"]), O, [4, 7, 2], X, [0, 8, 1]).outcome
  {
    SampleTurn(["-", "-", "-", "-", "-", "O", "X", "-", "-"], [1, 1, 1, 1, 1, 1, 1, 1], 0, X, [0, 8, 1, 3], O, [4, 7, 2], 3, [0, 8, 1], ["-", "-", "-", "X", "-", "O", "X", "-", "-"]);
  }

  lemma TieTurn4()
    ensures PlayFrom(Sample(["-", "-", "-", "X", "-", "O", "X", "-", "-"]), O, [4, 7, 2], X, [0, 8, 1]).outcome
         == PlayFrom(Sample(["-", "-", "O", "X", "-", "O", "X", "-", "-"]), X, [0, 8, 1], O, [4, 7]).outcome
  {
    SampleTurn(["-", "-", "-", "X", "-", "O", "X", "-", "-"], [1, 1, 1, 1, 1, 1, 1, 1], 0, O, [4, 7, 2], X, [0, 8, 1], 2, [4, 7], ["-", "-", "O", "X", "-", "O", "X", "-", "-"]);
  }

  lemma TieTurn5()
    ensures PlayFrom(Sample(["-", "-", "O", "X", "-", "O", "X", "-", "-"]), X, [0, 8, 1], O, [4, 7]).outcome
         == PlayFrom(Sample(["-", "X", "O", "X", "-", "O", "X", "-", "-"]), O, [4, 7], X, [0, 8]).outcome
  {
    SampleTurn(["-", "-", "O", "X", "-", "O", "X", "-", "-"], [1, 1, 1, 1, 1, 2, 1, 1], 0, X, [0, 8, 1], O, [4, 7], 1, [0, 8], ["-", "X", "O", "X", "-", "O", "X", "-", "-"]);
  }

  lemma TieTurn6()
    ensures PlayFrom(Sample(["-", "X", "O", "X", "-", "O", "X", "-", "-"]), O, [4, 7], X, [0, 8]).outcome
         == PlayFrom(Sample(["-", "X", "O", "X", "-", "O", "X", "O", "-"]), X, [0, 8], O, [4]).outcome
  {
    SampleTurn(["-", "X", "O", "X", "-", "O", "X", "-", "-"], [1, 1, 1, 1, 1, 2, 1, 1], 0, O, [4, 7], X, [0, 8], 7, [4], ["-", "X", "O", "X", "-", "O", "X", "O", "-"]);
  }

  lemma TieTurn7()
    ensures PlayFrom(Sample(["-", "X", "O", "X", "-", "O", "X", "O", "-"]), X, [0, 8], O, [4]).outcome
         == PlayFrom(Sample(["-", "X", "O", "X", "-", "O", "X", "O", "X"]), O, [4], X, [0]).outcome
  {
    SampleTurn(["-", "X", "O", "X", "-", "O", "X", "O", "-"], [1, 1, 1, 1, 1, 2, 1, 1], 0, X, [0, 8], O, [4], 8, [0], ["-", "X", "O", "X", "-", "O", "X", "O", "X"]);
  }

  lemma TieTurn8()
    ensures PlayFrom(Sample(["-", "X", "O", "X", "-", "O", "X", "O", "X"]), O, [4], X, [0]).outcome
         == PlayFrom(Sample(["-", "X", "O", "X", "O", "O", "X", "O", "X"]), X, [0], O, []).outcome
  {
    SampleTurn(["-", "X", "O", "X", "-", "O", "X", "O", "X"], [1, 1, 1, 1, 1, 2, 1, 1], 0, O, [4], X, [0], 4, [], ["-", "X", "O", "X", "O", "O", "X", "O", "X"]);
  }

  lemma TieTurn9()
    ensures PlayFrom(Sample(["-", "X", "O", "X", "O", "O", "X", "O", "X"]), X, [0], O, []).outcome
         == PlayFrom(Sample(["X", "X", "O", "X", "O", "O", "X", "O", "X"]), O, [], X, []).outcome
  {
    SampleTurn(["-", "X", "O", "X", "O", "O", "X", "O", "X"], [1, 1, 1, 1, 1, 2, 1, 2], 0, X, [0], O, [], 0, [], ["X", "X", "O", "X", "O", "O", "X", "O", "X"]);
  }

  lemma TieTurnEnd()
    ensures PlayFrom(Sample(["X", "X", "O", "X", "O", "O", "X", "O", "X"]), O, [], X, []).outcome == Success(Win(X))
  {
    SampleWin(["X", "X", "O", "X", "O", "O", "X", "O", "X"], [2], 1, O, [], X, [], X);
  }

  /** The scripts X [0, 8, 1, 3, 6] and O [4, 7, 2, 5], consumed from the back, give X column 0 on the ninth turn: the game ends in a win for X, not a draw. */
  lemma TieScriptsEndInWinForX()
    ensures Play(X, [0, 8, 1, 3, 6], O, [4, 7, 2, 5]).outcome == Success(Win(X))
  {
    TieTurnStart();
    TieTurn1();
    TieTurn2();
    TieTurn3();
    TieTurn4();
    TieTurn5();
    TieTurn6();
    TieTurn7();
    TieTurn8();
    TieTurn9();
    TieTurnEnd();
  }

  // The turns of ScriptedDraw, one lemma per turn.
  // Every mismatch entry is 1 except three: entry 0 is 2 from the fourth
  // turn, since row 0 reads X X O; entry 2 is 2 from the seventh turn, since
  // row 1 reads O O X; entry 7 is 2 from the seventh turn, since the
  // anti-diagonal reads O O and then cell 6 is blank or X.

  lemma DrawTurnStart()
    ensures Play(X, [8, 6, 5, 1, 0], O, [7, 4, 3, 2]) == PlayFrom(Sample(["-", "-", "-", "-", "-", "-", "-", "-", "-"]), X, [8, 6, 5, 1, 0], O, [7, 4, 3, 2])
  {
    BlankIsSample();
  }

  lemma DrawTurn1()
    ensures PlayFrom(Sample(["-", "-", "-", "-", "-", "-", "-", "-", "-"]), X, [8, 6, 5, 1, 0], O, [7, 4, 3, 2]).outcome
         == PlayFrom(Sample(["X", "-", "-", "-", "-", "-", "-", "-", "-"]), O, [7, 4, 3, 2], X, [8, 6, 5, 1]).outcome
  {
    SampleTurn(["-", "-", "-", "-", "-", "-", "-", "-", "-"], [1, 1, 1, 1, 1, 1, 1, 1], 0, X, [8, 6, 5, 1, 0], O, [7, 4, 3, 2], 0, [8, 6, 5, 1], ["X", "-", "-", "-", "-", "-", "-", "-", "-"]);
  }

  lemma DrawTurn2()
    ensures PlayFrom(Sample(["X", "-", "-", "-", "-", "-", "-", "-", "-"]), O, [7, 4, 3, 2], X, [8, 6, 5, 1]).outcome
         == PlayFrom(Sample(["X", "-", "O", "-", "-", "-", "-", "-", "-"]), X, [8, 6, 5, 1], O, [7, 4, 3]).outcome
  {
    SampleTurn(["X", "-", "-", "-", "-", "-", "-", "-", "-"], [1, 1, 1, 1, 1, 1, 1, 1], 1, O, [7, 4, 3, 2], X, [8, 6, 5, 1], 2, [7, 4, 3], ["X", "-", "O", "-", "-", "-", "-", "-", "-"]);
  }

  lemma DrawTurn3()
    ensures PlayFrom(Sample(["X", "-", "O", "-", "-", "-", "-", "-", "-"]), X, [8, 6, 5, 1], O, [7, 4, 3]).outcome
         == PlayFrom(Sample(["X", "X", "O", "-", "-", "-", "-", "-", "-"]), O, [7, 4, 3], X, [8, 6, 5]).outcome
  {
    SampleTurn(["X", "-", "O", "-", "-", "-", "-", "-", "-"], [1, 1, 1, 1, 1, 1, 1, 1], 1, X, [8, 6, 5, 1], O, [7, 4, 3], 1, [8, 6, 5], ["X", "X", "O", "-", "-", "-", "-", "-", "-"]);
  }

  lemma DrawTurn4()
    ensures PlayFrom(Sample(["X", "X", "O", "-", "-", "-", "-", "-", "-"]), O, [7, 4, 3], X, [8, 6, 5]).outcome
         == PlayFrom(Sample(["X", "X", "O", "O", "-", "-", "-", "-", "-"]), X, [8, 6, 5], O, [7, 4]).outcome
  {
    SampleTurn(["X", "X", "O", "-", "-", "-", "-", "-", "-"], [2, 1, 1, 1, 1, 1, 1, 1], 3, O, [7, 4, 3], X, [8, 6, 5], 3, [7, 4], ["X", "X", "O", "O", "-", "-", "-", "-", "-"]);
  }

  lemma DrawTurn5()
    ensures PlayFrom(Sample(["X", "X", "O", "O", "-", "-", "-", "-", "-"]), X, [8, 6, 5], O, [7, 4]).outcome
         == PlayFrom(Sample(["X", "X", "O", "O", "-", "X", "-", "-", "-"]), O, [7, 4], X, [8, 6]).outcome
  {
    SampleTurn(["X", "X", "O", "O", "-", "-", "-", "-", "-"], [2, 1, 1, 1, 1, 1, 1, 1], 4, X, [8, 6, 5], O, [7, 4], 5, [8, 6], ["X", "X", "O", "O", "-", "X", "-", "-", "-"]);
  }

  lemma DrawTurn6()
    ensures PlayFrom(Sample(["X", "X", "O", "O", "-", "X", "-", "-", "-"]), O, [7, 4], X, [8, 6]).outcome
         == PlayFrom(Sample(["X", "X", "O", "O", "O", "X", "-", "-", "-"]), X, [8, 6], O, [7]).outcome
  {
    SampleTurn(["X", "X", "O", "O", "-", "X", "-", "-", "-"], [2, 1, 1, 1, 1, 1, 1, 1], 4, O, [7, 4], X, [8, 6], 4, [7], ["X", "X", "O", "O", "O", "X", "-", "-", "-"]);
  }

  lemma DrawTurn7()
    ensures PlayFrom(Sample(["X", "X", "O", "O", "O", "X", "-", "-", "-"]), X, [8, 6], O, [7]).outcome
         == PlayFrom(Sample(["X", "X", "O", "O", "O", "X", "X", "-", "-"]), O, [7], X, [8]).outcome
  {
    SampleTurn(["X", "X", "O", "O", "O", "X", "-", "-", "-"], [2, 1, 2, 1, 1, 1, 1, 2], 6, X, [8, 6], O, [7], 6, [8], ["X", "X", "O", "O", "O", "X", "X", "-", "-"]);
  }

  lemma DrawTurn8()
    ensures PlayFrom(Sample(["X", "X", "O", "O", "O", "X", "X", "-", "-"]), O, [7], X, [8]).outcome
         == PlayFrom(Sample(["X", "X", "O", "O", "O", "X", "X", "O", "-"]), X, [8], O, []).outcome
  {
    SampleTurn(["X", "X", "O", "O", "O", "X", "X", "-", "-"], [2, 1, 2, 1, 1, 1, 1, 2], 7, O, [7], X, [8], 7, [], ["X", "X", "O", "O", "O", "X", "X", "O", "-"]);
  }

  lemma DrawTurn9()
    ensures PlayFrom(Sample(["X", "X", "O", "O", "O", "X", "X", "O", "-"]), X, [8], O, []).outcome
         == PlayFrom(Sample(["X", "X", "O", "O", "O", "X", "X", "O", "X"]), O, [], X, []).outcome
  {
    SampleTurn(["X", "X", "O", "O", "O", "X", "X", "O", "-"], [2, 1, 2, 1, 1, 1, 1, 2], 8, X, [8], O, [], 8, [], ["X", "X", "O", "O", "O", "X", "X", "O", "X"]);
  }

  lemma DrawTurnEnd()
    ensures PlayFrom(Sample(["X", "X", "O", "O", "O", "X", "X", "O", "X"]), O, [], X, []).outcome == Success(Draw)
  {
    SampleDraw(["X", "X", "O", "O", "O", "X", "X", "O", "X"], [2, 1, 2, 1, 1, 1, 1, 2], O, [], X, []);
  }

  /** Scripts that fill the board as `X X O / O O X / X O X` end the game in a draw. */
  lemma ScriptedDraw()
    ensures Play(X, [8, 6, 5, 1, 0], O, [7, 4, 3, 2]).outcome == Success(Draw)
  {
    DrawTurnStart();
    DrawTurn1();
    DrawTurn2();
    DrawTurn3();
    DrawTurn4();
    DrawTurn5();
    DrawTurn6();
    DrawTurn7();
    DrawTurn8();
    DrawTurn9();
    DrawTurnEnd();
  }


  // The turns of ScriptedRowWin, one lemma per turn.
  // Every mismatch entry is 1 except two: entry 0 is 2 from the fourth turn,
  // since row 0 reads X X and cell 2 is still blank; entry 2 is 2 on the
  // fifth turn, since row 1 reads O O and cell 5 is blank.

  lemma RowTurnStart()
    ensures Play(X, [2, 1, 0], O, [4, 3]) == PlayFrom(Sample(["-", "-", "-", "-", "-", "-", "-", "-", "-"]), X, [2, 1, 0], O, [4, 3])
  {
    BlankIsSample();
  }

  lemma RowTurn1()
    ensures PlayFrom(Sample(["-", "-", "-", "-", "-", "-", "-", "-", "-"]), X, [2, 1, 0], O, [4, 3]).outcome
         == PlayFrom(Sample(["X", "-", "-", "-", "-", "-", "-", "-", "-"]), O, [4, 3], X, [2, 1]).outcome
  {
    SampleTurn(["-", "-", "-", "-", "-", "-", "-", "-", "-"], [1, 1, 1, 1, 1, 1, 1, 1], 0, X, [2, 1, 0], O, [4, 3], 0, [2, 1], ["X", "-", "-", "-", "-", "-", "-", "-", "-"]);
  }

  lemma RowTurn2()
    ensures PlayFrom(Sample(["X", "-", "-", "-", "-", "-", "-", "-", "-"]), O, [4, 3], X, [2, 1]).outcome
         == PlayFrom(Sample(["X", "-", "-", "O", "-", "-", "-", "-", "-"]), X, [2, 1], O, [4]).outcome
  {
    SampleTurn(["X", "-", "-", "-", "-", "-", "-", "-", "-"], [1, 1, 1, 1, 1, 1, 1, 1], 1, O, [4, 3], X, [2, 1], 3, [4], ["X", "-", "-", "O", "-", "-", "-", "-", "-"]);
  }

  lemma RowTurn3()
    ensures PlayFrom(Sample(["X", "-", "-", "O", "-", "-", "-", "-", "-"]), X, [2, 1], O, [4]).outcome
         == PlayFrom(Sample(["X", "X", "-", "O", "-", "-", "-", "-", "-"]), O, [4], X, [2]).outcome
  {
    SampleTurn(["X", "-", "-", "O", "-", "-", "-", "-", "-"], [1, 1, 1, 1, 1, 1, 1, 1], 1, X, [2, 1], O, [4], 1, [2], ["X", "X", "-", "O", "-", "-", "-", "-", "-"]);
  }

  lemma RowTurn4()
    ensures PlayFrom(Sample(["X", "X", "-", "O", "-", "-", "-", "-", "-"]), O, [4], X, [2]).outcome
         == PlayFrom(Sample(["X", "X", "-", "O", "O", "-", "-", "-", "-"]), X, [2], O, []).outcome
  {
    SampleTurn(["X", "X", "-", "O", "-", "-", "-", "-", "-"], [2, 1, 1, 1, 1, 1, 1, 1], 2, O, [4], X, [2], 4, [], ["X", "X", "-", "O", "O", "-", "-", "-", "-"]);
  }

  lemma RowTurn5()
    ensures PlayFrom(Sample(["X", "X", "-", "O", "O", "-", "-", "-", "-"]), X, [2], O, []).outcome
         == PlayFrom(Sample(["X", "X", "X", "O", "O", "-", "-", "-", "-"]), O, [], X, []).outcome
  {
    SampleTurn(["X", "X", "-", "O", "O", "-", "-", "-", "-"], [2, 1, 2, 1, 1, 1, 1, 1], 2, X, [2], O, [], 2, [], ["X", "X", "X", "O", "O", "-", "-", "-", "-"]);
  }

  lemma RowTurnEnd()
    ensures PlayFrom(Sample(["X", "X", "X", "O", "O", "-", "-", "-", "-"]), O, [], X, []).outcome == Success(Win(X))
  {
    SampleWin(["X", "X", "X", "O", "O", "-", "-", "-", "-"], [], 0, O, [], X, [], X);
  }

  /** X's three scripted moves 0, 1, 2 complete the top row: the game ends in a win for X. */
  lemma ScriptedRowWin()
    ensures Play(X, [2, 1, 0], O, [4, 3]).outcome == Success(Win(X))
  {
    RowTurnStart();
    RowTurn1();
    RowTurn2();
    RowTurn3();
    RowTurn4();
    RowTurn5();
    RowTurnEnd();
  }

  /**
   * The full-game example as written: X with script [0, 8, 1, 3, 6] plays O
   * with script [4, 7, 2, 5]. The result is X's win, not the draw the
   * example expects.
   */
  method PlayTieScripts() returns (result: Result<GameState, MoveError>)
    ensures result == Success(Win(X))
  {
    var one := new MockPlayer("X", [0, 8, 1, 3, 6]);
    var two := new MockPlayer("O", [4, 7, 2, 5]);
    result := PlayGame(one, two);
    TieScriptsEndInWinForX();
  }

  /** Two scripted players whose scripts fill the board without a line play to a draw. */
  method PlayDrawScripts() returns (result: Result<GameState, MoveError>)
    ensures result == Success(Draw)
  {
    var one := new MockPlayer("X", [8, 6, 5, 1, 0]);
    var two := new MockPlayer("O", [7, 4, 3, 2]);
    result := PlayGame(one, two);
    ScriptedDraw();
  }
}
