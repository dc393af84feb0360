/**
 * The scripted player: a marker and a list of cell indices, consumed from
 * the back of the list, one per move.
 */
module MockPlayers {
  import opened Wrappers
  import opened Players
  import opened Boards

  /** Why a scripted player could not produce a move. */
  datatype MoveError =
    | OutOfMoves                 // the script is exhausted
    | MoveNotFound(index: nat)   // the scripted index names no cell of the board

  /** The script after one move is taken from its back (unchanged when empty). */
  function Pop(moves: seq<nat>): (rest: seq<nat>)
    ensures moves != [] ==> |rest| == |moves| - 1 && moves == rest + [moves[|moves| - 1]]
    ensures moves == [] ==> rest == []
  {
    if moves == [] then [] else moves[..|moves| - 1]
  }

  /**
   * The move a script produces on a board: the reference of the cell whose
   * index is the script's last entry. The opponent plays no part, and the
   * cell may already be occupied.
   */
  function NextMove(moves: seq<nat>, board: Board): (move: Result<CellRef, MoveError>)
    ensures move == Failure(OutOfMoves) <==> moves == []
    ensures move.Failure? && move != Failure(OutOfMoves) <==>
      moves != [] && moves[|moves| - 1] >= |board.cells|
    ensures move.Failure? && moves != [] ==> move.error == MoveNotFound(moves[|moves| - 1])
    ensures move.Success? ==> moves != [] && moves[|moves| - 1] < |board.cells|
                              && move.value == board.cells[moves[|moves| - 1]].reference
  {
    if moves == [] then Failure(OutOfMoves)
    else
      var index := moves[|moves| - 1];
      if index < |board.cells| then Success(board.cells[index].reference)
      else Failure(MoveNotFound(index))
  }

  /** On a well-formed board a scripted move names the cell its index says. */
  lemma NextMoveOnValidBoard(moves: seq<nat>, board: Board)
    requires Valid(board)
    ensures NextMove(moves, board).Success? ==>
      NextMove(moves, board).value == CellRef(moves[|moves| - 1])
      && NextMove(moves, board).value.index < |board.cells|
  {
  }

  class MockPlayer {
    const marker: string
    var moves: seq<nat>

    /** A player with the given marker and script. */
    constructor (marker: string, moves: seq<nat>)
      ensures this.marker == marker && this.moves == moves
    {
      this.marker := marker;
      this.moves := moves;
    }

    /** A player with the given marker and an empty script. */
    constructor WithMarker(marker: string)
      ensures this.marker == marker && moves == []
    {
      this.marker := marker;
      this.moves := [];
    }

    /** A fresh player handle with the given marker and an empty script. */
    static method Boxed(marker: string) returns (p: MockPlayer)
      ensures fresh(p)
      ensures p.marker == marker && p.moves == []
    {
      p := new MockPlayer.WithMarker(marker);
    }

    /** The marker the player was created with. */
    function GetMarker(): (m: string)
      ensures m == marker && m == Identity().marker
    {
      marker
    }

    /** The identity cells and game states record for this player. */
    function Identity(): (p: Player)
      ensures p.marker == marker
    {
      Player(marker)
    }

    /**
     * Takes the last scripted index off the script and returns the reference
     * of the board cell at that index. The index is removed even when no
     * such cell exists.
     */
    method GetMove(opponent: Player, board: Board) returns (move: Result<CellRef, MoveError>)
      modifies this
      ensures moves == Pop(old(moves))
      ensures move == NextMove(old(moves), board)
    {
      if moves == [] {
        return Failure(OutOfMoves);
      }
      var moveIndex := moves[|moves| - 1];
      moves := moves[..|moves| - 1];
      // search the enumerated cells for the one at moveIndex
      var index := 0;
      while index < |board.cells| && index != moveIndex
        invariant index <= |board.cells| && index <= moveIndex
      {
        index := index + 1;
      }
      if index < |board.cells| {
        move := Success(board.cells[index].reference);
      } else {
        move := Failure(MoveNotFound(moveIndex));
      }
    }
  }

  /** Two scripted players are equal when their markers are; scripts do not matter. */
  lemma EqualityIgnoresScript(a: MockPlayer, b: MockPlayer)
    requires a.marker == b.marker
    ensures SamePlayer(a.Identity(), b.Identity())
  {
  }
}
