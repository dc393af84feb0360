/**
 * The rules evaluator: a pure classification of a board as a win for some
 * player, a draw, or a game still pending.
 */
module Rules {
  import opened Wrappers
  import opened Players
  import opened Boards

  /** The state of a game as read off one board. */
  datatype GameState = Pending | Draw | Win(winner: Player)

  /**
   * Game-state equality: `Pending` and `Draw` equal only themselves, and two
   * wins are equal when their winners are the same player (same marker).
   */
  function SameState(a: GameState, b: GameState): (same: bool)
    ensures same <==> a == b
  {
    match (a, b)
    case (Pending, Pending) => true
    case (Draw, Draw) => true
    case (Win(p), Win(q)) => SamePlayer(p, q)
    case _ => false
  }

  /** Every cell in `cells` is occupied by a player whose marker is `marker`. */
  function AllMarked(cells: seq<Cell>, marker: string): (all: bool)
    ensures all <==> forall i :: 0 <= i < |cells| ==> cells[i].Marker() == Some(marker)
  {
    if cells == [] then true
    else cells[0].Marker() == Some(marker) && AllMarked(cells[1..], marker)
  }

  /**
   * The winner of one segment: the first cell's occupant, when that cell is
   * occupied and every later cell carries the same marker.
   */
  function SegmentWinner(segment: seq<Cell>): (winner: Option<Player>)
    ensures winner.Some? <==>
      && |segment| > 0
      && segment[0].occupant.Some?
      && forall i :: 1 <= i < |segment| ==> segment[i].Marker() == Some(segment[0].occupant.value.marker)
    ensures winner.Some? ==> winner == segment[0].occupant
  {
    if |segment| == 0 then None
    else match segment[0].occupant
      case None => None
      case Some(first) =>
        assert forall i :: 1 <= i < |segment| ==> segment[i] == segment[1..][i - 1];
        if AllMarked(segment[1..], first.marker) then Some(first) else None
  }

  /** Segment k is the first one, in the given order, that has a winner. */
  ghost predicate FirstWinning(segments: seq<seq<Cell>>, k: int) {
    && 0 <= k < |segments|
    && SegmentWinner(segments[k]).Some?
    && forall j :: 0 <= j < k ==> SegmentWinner(segments[j]).None?
  }

  /** The winner of the first segment, in order, that has one. */
  function FirstWinner(segments: seq<seq<Cell>>): (winner: Option<Player>)
    ensures winner.None? <==> forall k :: 0 <= k < |segments| ==> SegmentWinner(segments[k]).None?
    ensures winner.Some? ==> exists k :: FirstWinning(segments, k) && SegmentWinner(segments[k]) == winner
  {
    if segments == [] then None
    else match SegmentWinner(segments[0])
      case Some(w) =>
        assert FirstWinning(segments, 0);
        Some(w)
      case None =>
        var rest := FirstWinner(segments[1..]);
        assert forall k :: 1 <= k < |segments| ==> segments[k] == segments[1..][k - 1];
        assert rest.Some? ==> exists k :: FirstWinning(segments, k) && SegmentWinner(segments[k]) == rest by {
          if rest.Some? {
            var k :| FirstWinning(segments[1..], k) && SegmentWinner(segments[1..][k]) == rest;
            assert FirstWinning(segments, k + 1);
          }
        }
        rest
  }

  /** Some segment of the board has a winner. */
  ghost predicate HasWinningSegment(b: Board)
    requires |b.cells| == b.size * b.size
  {
    exists k :: 0 <= k < |SegmentsOf(b)| && SegmentWinner(SegmentsOf(b)[k]).Some?
  }

  /**
   * Classifies a board: a win for the winner of the first winning segment in
   * segment order; otherwise a draw when no cell is empty; otherwise pending.
   */
  function AnalyzeGameState(b: Board): (state: GameState)
    requires |b.cells| == b.size * b.size
    ensures state.Win? <==> HasWinningSegment(b)
    ensures state.Win? ==> exists k :: FirstWinning(SegmentsOf(b), k) && SegmentWinner(SegmentsOf(b)[k]) == Some(state.winner)
    ensures state == Draw <==> !HasWinningSegment(b) && EmptyCells(b) == []
    ensures state == Pending <==> !HasWinningSegment(b) && EmptyCells(b) != []
  {
    match FirstWinner(SegmentsOf(b))
    case Some(w) => Win(w)
    case None => if EmptyCells(b) == [] then Draw else Pending
  }

  /**
   * A segment whose cells are all occupied by player p makes the board a
   * win, whether or not empty cells remain; the win is p's unless an
   * earlier segment already has a winner.
   */
  lemma LineFilledIsWin(b: Board, k: nat, p: Player)
    requires |b.cells| == b.size * b.size && b.size > 0
    requires k < 2 * b.size + 2
    requires forall j :: 0 <= j < b.size ==> SegmentsOf(b)[k][j].occupant == Some(p)
    ensures AnalyzeGameState(b).Win?
    ensures (forall j :: 0 <= j < k ==> SegmentWinner(SegmentsOf(b)[j]).None?) ==> AnalyzeGameState(b) == Win(p)
  {
    var segments := SegmentsOf(b);
    assert SegmentWinner(segments[k]) == Some(p);
    assert HasWinningSegment(b);
    var state := AnalyzeGameState(b);
    var w :| FirstWinning(segments, w) && SegmentWinner(segments[w]) == Some(state.winner);
    if forall j :: 0 <= j < k ==> SegmentWinner(segments[j]).None? {
      assert !(w < k) && !(k < w);
    }
  }

  /** A board on which no cell is empty is never pending. */
  lemma FullBoardIsDecided(b: Board)
    requires Valid(b)
    requires forall i :: 0 <= i < |b.cells| ==> b.cells[i].occupant.Some?
    ensures AnalyzeGameState(b) != Pending
  {
    if EmptyCells(b) != [] {
      assert EmptyCells(b)[0] in EmptyCells(b);
    }
  }
}
