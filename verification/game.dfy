/**
 * The game loop: classify the board; while the game is pending, let the
 * current player move, occupy the chosen cell with that player and swap
 * roles; return the first state that is not pending.
 *
 * The scripted player is the only player implementation, so the loop is
 * specified over the two scripts: `PlayFrom` is the game as a function of
 * the board, the two identities and the two scripts, and `PlayGame` runs it
 * on two player objects.
 */
module GameLoop {
  import opened Wrappers
  import opened Players
  import opened Boards
  import opened Rules
  import opened MockPlayers

  /** One move: who moved, the cell chosen, and the board it was chosen on. */
  datatype Turn = Turn(player: Player, cell: CellRef, before: Board)

  /**
   * A finished run: its outcome, the turns played, the last board, and what
   * is left of the scripts of the player who moved first and second.
   */
  datatype Game = Game(
    outcome: Result<GameState, MoveError>,
    turns: seq<Turn>,
    board: Board,
    firstMoves: seq<nat>,
    secondMoves: seq<nat>)

  /**
   * The turns lead from board `start` to board `end`: each turn is played
   * on the board the previous one produced, by occupying its cell with its
   * player.
   */
  ghost predicate Leads(start: Board, turns: seq<Turn>, end: Board)
    decreases |turns|
  {
    if turns == [] then end == start
    else
      && turns[0].before == start
      && turns[0].cell.index < |start.cells|
      && Leads(OccupyCell(start, turns[0].player, turns[0].cell), turns[1..], end)
  }

  /** Every turn took a cell that was empty on the board it was played on. */
  ghost predicate OnlyEmptyCells(turns: seq<Turn>) {
    forall i :: 0 <= i < |turns| ==> turns[i].cell in EmptyCells(turns[i].before)
  }

  /**
   * The game played from `board` with `current` to move. Each pending board
   * asks the current script for a move; a script that fails ends the run
   * with its error.
   */
  function PlayFrom(board: Board, current: Player, currentMoves: seq<nat>,
                    opposing: Player, opposingMoves: seq<nat>): (g: Game)
    requires Valid(board)
    ensures Valid(g.board)
    ensures Leads(board, g.turns, g.board)
    ensures |g.turns| <= |currentMoves| + |opposingMoves|
    ensures forall i :: 0 <= i < |g.turns| ==>
      Valid(g.turns[i].before) && AnalyzeGameState(g.turns[i].before) == Pending
    ensures g.outcome.Success? ==>
      g.outcome.value == AnalyzeGameState(g.board) && g.outcome.value != Pending
    ensures g.outcome.Failure? ==> AnalyzeGameState(g.board) == Pending
    decreases |currentMoves| + |opposingMoves|
  {
    var state := AnalyzeGameState(board);
    if state != Pending then
      Game(Success(state), [], board, currentMoves, opposingMoves)
    else
      match NextMove(currentMoves, board)
      case Failure(e) =>
        Game(Failure(e), [], board, Pop(currentMoves), opposingMoves)
      case Success(cell) =>
        NextMoveOnValidBoard(currentMoves, board);
        var next := PlayFrom(OccupyCell(board, current, cell), opposing, opposingMoves,
                             current, Pop(currentMoves));
        TurnLeads(board, current, cell, next.turns, next.board);
        Game(next.outcome, [Turn(current, cell, board)] + next.turns, next.board,
             next.secondMoves, next.firstMoves)
  }

  /** A pending turn in front of turns that lead on from the board it produces. */
  lemma TurnLeads(board: Board, current: Player, cell: CellRef, rest: seq<Turn>, end: Board)
    requires Valid(board) && AnalyzeGameState(board) == Pending && cell.index < |board.cells|
    requires Leads(OccupyCell(board, current, cell), rest, end)
    requires forall i :: 0 <= i < |rest| ==>
      Valid(rest[i].before) && AnalyzeGameState(rest[i].before) == Pending
    ensures var turns := [Turn(current, cell, board)] + rest;
      && Leads(board, turns, end)
      && forall i :: 0 <= i < |turns| ==>
           Valid(turns[i].before) && AnalyzeGameState(turns[i].before) == Pending
  {
    var turns := [Turn(current, cell, board)] + rest;
    assert turns[1..] == rest;
    assert forall i :: 1 <= i < |turns| ==> turns[i] == rest[i - 1];
  }

  /** One pending turn: the current script's move, then the rest of the game with roles swapped. */
  lemma PlayFromStep(board: Board, current: Player, currentMoves: seq<nat>,
                     opposing: Player, opposingMoves: seq<nat>, cell: CellRef)
    requires Valid(board)
    requires AnalyzeGameState(board) == Pending
    requires NextMove(currentMoves, board) == Success(cell)
    ensures cell.index < |board.cells|
    ensures var next := PlayFrom(OccupyCell(board, current, cell), opposing, opposingMoves, current, Pop(currentMoves));
      PlayFrom(board, current, currentMoves, opposing, opposingMoves)
        == Game(next.outcome, [Turn(current, cell, board)] + next.turns, next.board, next.secondMoves, next.firstMoves)
  {
    NextMoveOnValidBoard(currentMoves, board);
  }

  /** A board that is decided, or a script that cannot move, ends the game with no further turn. */
  lemma PlayFromStops(board: Board, current: Player, currentMoves: seq<nat>,
                      opposing: Player, opposingMoves: seq<nat>)
    requires Valid(board)
    requires AnalyzeGameState(board) != Pending || NextMove(currentMoves, board).Failure?
    ensures PlayFrom(board, current, currentMoves, opposing, opposingMoves).turns == []
    ensures AnalyzeGameState(board) != Pending ==>
      var g := PlayFrom(board, current, currentMoves, opposing, opposingMoves);
      && g.outcome == Success(AnalyzeGameState(board))
      && g.firstMoves == currentMoves && g.secondMoves == opposingMoves
    ensures AnalyzeGameState(board) == Pending ==>
      var g := PlayFrom(board, current, currentMoves, opposing, opposingMoves);
      && g.outcome == Failure(NextMove(currentMoves, board).error)
      && g.firstMoves == Pop(currentMoves) && g.secondMoves == opposingMoves
  {
  }

  /** `moves` without its last k entries: what is left of a script after k moves. */
  function Remaining(moves: seq<nat>, k: nat): (rest: seq<nat>)
    ensures k <= |moves| ==> |rest| == |moves| - k && rest <= moves
  {
    if k <= |moves| then moves[..|moves| - k] else []
  }

  lemma RemainingPop(moves: seq<nat>, k: nat)
    requires moves != []
    ensures Remaining(Pop(moves), k) == Remaining(moves, k + 1)
  {
  }

  /**
   * Each turn takes one entry from the back of its mover's script: after t
   * turns the player who moved first has used (t + 1) / 2 entries and the
   * other t / 2, and a run that ends in an error has also popped the script
   * of the player due to move next.
   */
  ghost predicate ScriptsConsumed(g: Game, firstMoves: seq<nat>, secondMoves: seq<nat>) {
    var t := |g.turns|;
    && (t + 1) / 2 <= |firstMoves| && t / 2 <= |secondMoves|
    && (g.outcome.Success? ==>
          g.firstMoves == Remaining(firstMoves, (t + 1) / 2)
          && g.secondMoves == Remaining(secondMoves, t / 2))
    && (g.outcome.Failure? && t % 2 == 0 ==>
          g.firstMoves == Pop(Remaining(firstMoves, t / 2))
          && g.secondMoves == Remaining(secondMoves, t / 2))
    && (g.outcome.Failure? && t % 2 == 1 ==>
          g.firstMoves == Remaining(firstMoves, (t + 1) / 2)
          && g.secondMoves == Pop(Remaining(secondMoves, t / 2)))
  }

  /** A turn in front of a run with roles swapped uses one more entry of the mover's script. */
  lemma ScriptsConsumedStep(g: Game, next: Game, turn: Turn, currentMoves: seq<nat>, opposingMoves: seq<nat>)
    requires currentMoves != []
    requires ScriptsConsumed(next, opposingMoves, Pop(currentMoves))
    requires g == Game(next.outcome, [turn] + next.turns, next.board, next.secondMoves, next.firstMoves)
    ensures ScriptsConsumed(g, currentMoves, opposingMoves)
  {
    var t := |next.turns|;
    assert |g.turns| == t + 1;
    RemainingPop(currentMoves, t / 2);
    if t % 2 == 0 {
      assert (t + 2) / 2 == t / 2 + 1 && (t + 1) / 2 == t / 2;
    } else {
      assert (t + 2) / 2 == t / 2 + 1 && (t + 1) / 2 == t / 2 + 1;
    }
  }

  /** What a run leaves of the two scripts, counted from its number of turns. */
  lemma {:induction false} ScriptsLeft(board: Board, current: Player, currentMoves: seq<nat>,
                                       opposing: Player, opposingMoves: seq<nat>)
    requires Valid(board)
    ensures ScriptsConsumed(PlayFrom(board, current, currentMoves, opposing, opposingMoves),
                            currentMoves, opposingMoves)
    decreases |currentMoves| + |opposingMoves|
  {
    if AnalyzeGameState(board) != Pending || NextMove(currentMoves, board).Failure? {
      PlayFromStops(board, current, currentMoves, opposing, opposingMoves);
      assert currentMoves[..|currentMoves|] == currentMoves;
      assert opposingMoves[..|opposingMoves|] == opposingMoves;
    } else {
      var cell := NextMove(currentMoves, board).value;
      PlayFromStep(board, current, currentMoves, opposing, opposingMoves, cell);
      var after := OccupyCell(board, current, cell);
      ScriptsLeft(after, opposing, opposingMoves, current, Pop(currentMoves));
      ScriptsConsumedStep(PlayFrom(board, current, currentMoves, opposing, opposingMoves),
                          PlayFrom(after, opposing, opposingMoves, current, Pop(currentMoves)),
                          Turn(current, cell, board), currentMoves, opposingMoves);
    }
  }

  /** Player of turn i when `first` moves first and `second` second. */
  function Mover(i: nat, first: Player, second: Player): (p: Player) {
    if i % 2 == 0 then first else second
  }

  /** Turn i is played by `first` when i is even and by `second` when i is odd. */
  ghost predicate Alternates(turns: seq<Turn>, first: Player, second: Player) {
    forall i :: 0 <= i < |turns| ==> turns[i].player == Mover(i, first, second)
  }

  lemma AlternatesCons(t: Turn, rest: seq<Turn>, first: Player, second: Player)
    requires t.player == first && Alternates(rest, second, first)
    ensures Alternates([t] + rest, first, second)
  {
    var turns := [t] + rest;
    forall i | 1 <= i < |turns|
      ensures turns[i].player == Mover(i, first, second)
    {
      assert turns[i] == rest[i - 1];
    }
  }

  /**
   * The players alternate strictly: turn 0 is the current player's, turn 1
   * the opposing player's, and so on, with no turn skipped.
   */
  lemma {:induction false} PlayersAlternate(board: Board, current: Player, currentMoves: seq<nat>,
                                            opposing: Player, opposingMoves: seq<nat>)
    requires Valid(board)
    ensures Alternates(PlayFrom(board, current, currentMoves, opposing, opposingMoves).turns, current, opposing)
    decreases |currentMoves| + |opposingMoves|
  {
    if AnalyzeGameState(board) == Pending && NextMove(currentMoves, board).Success? {
      var cell := NextMove(currentMoves, board).value;
      PlayFromStep(board, current, currentMoves, opposing, opposingMoves, cell);
      var after := OccupyCell(board, current, cell);
      PlayersAlternate(after, opposing, opposingMoves, current, Pop(currentMoves));
      AlternatesCons(Turn(current, cell, board),
                     PlayFrom(after, opposing, opposingMoves, current, Pop(currentMoves)).turns,
                     current, opposing);
    } else {
      PlayFromStops(board, current, currentMoves, opposing, opposingMoves);
    }
  }

  /** A game between two scripts, from the blank board, player one first. */
  function Play(one: Player, oneMoves: seq<nat>, two: Player, twoMoves: seq<nat>): (g: Game)
    ensures g.turns != [] ==> g.turns[0].player == one && g.turns[0].before == Blank()
    ensures g.turns == [] ==> g.board == Blank()
    ensures Leads(Blank(), g.turns, g.board)
    ensures Alternates(g.turns, one, two)
    ensures ScriptsConsumed(g, oneMoves, twoMoves)
  {
    BlankIsEmpty();
    PlayersAlternate(Blank(), one, oneMoves, two, twoMoves);
    ScriptsLeft(Blank(), one, oneMoves, two, twoMoves);
    PlayFrom(Blank(), one, oneMoves, two, twoMoves)
  }

  /**
   * When every turn takes an empty cell, each turn removes one empty cell:
   * the run has no more turns than the start board has empty cells.
   */
  lemma {:induction false} LegalTurnsUseUpEmptyCells(start: Board, turns: seq<Turn>, end: Board)
    requires Valid(start)
    requires Leads(start, turns, end)
    requires OnlyEmptyCells(turns)
    ensures |EmptyCells(end)| + |turns| == |EmptyCells(start)|
    decreases |turns|
  {
    if turns != [] {
      var t := turns[0];
      OccupyEmptyCell(start, t.player, t.cell);
      var next := OccupyCell(start, t.player, t.cell);
      assert forall i :: 0 <= i < |turns[1..]| ==> turns[1..][i] == turns[i + 1];
      LegalTurnsUseUpEmptyCells(next, turns[1..], end);
    }
  }

  /**
   * A game in which every move takes an empty cell lasts at most nine
   * turns, and a game that ends without an error then ends in a win or a
   * draw decided on its last board.
   */
  lemma LegalGameEndsWithinNineTurns(one: Player, oneMoves: seq<nat>, two: Player, twoMoves: seq<nat>)
    requires OnlyEmptyCells(Play(one, oneMoves, two, twoMoves).turns)
    ensures |Play(one, oneMoves, two, twoMoves).turns| <= 9
    ensures var g := Play(one, oneMoves, two, twoMoves);
      g.outcome.Success? ==> g.outcome.value == AnalyzeGameState(g.board) && g.outcome.value != Pending
  {
    var g := Play(one, oneMoves, two, twoMoves);
    BlankIsEmpty();
    LegalTurnsUseUpEmptyCells(Blank(), g.turns, g.board);
  }

  /** Runs a game between two distinct scripted players. */
  method PlayGame(one: MockPlayer, two: MockPlayer) returns (result: Result<GameState, MoveError>)
    requires one != two
    modifies one, two
    ensures var g := Play(one.Identity(), old(one.moves), two.Identity(), old(two.moves));
      && result == g.outcome
      && one.moves == g.firstMoves
      && two.moves == g.secondMoves
  {
    ghost var whole := Play(one.Identity(), one.moves, two.Identity(), two.moves);
    var current, opposing := one, two;
    var board := EmptyBoard();
    BlankIsEmpty();
    while true
      invariant (current == one && opposing == two) || (current == two && opposing == one)
      invariant Valid(board)
      invariant var g := PlayFrom(board, current.Identity(), current.moves, opposing.Identity(), opposing.moves);
        && g.outcome == whole.outcome
        && (current == one ==> g.firstMoves == whole.firstMoves && g.secondMoves == whole.secondMoves)
        && (current == two ==> g.firstMoves == whole.secondMoves && g.secondMoves == whole.firstMoves)
      decreases |current.moves| + |opposing.moves|
    {
      ghost var currentMoves := current.moves;
      var state := AnalyzeGameState(board);
      if state != Pending {
        return Success(state);
      }
      var move := current.GetMove(opposing.Identity(), board);
      if move.Failure? {
        return Failure(move.error);
      }
      NextMoveOnValidBoard(currentMoves, board);
      board := OccupyCell(board, current.Identity(), move.value);
      current, opposing := opposing, current;
    }
  }
}
