/**
 * The 3x3 board: an immutable snapshot of cells. Every operation that
 * "changes" a board returns a new value; a holder of an older board keeps
 * seeing the old cells.
 */
module Boards {
  import opened Wrappers
  import opened Players

  /** A handle on one board position: its zero-based index. */
  datatype CellRef = CellRef(index: nat)

  /** One board position and the player occupying it, if any. */
  datatype Cell = Cell(reference: CellRef, occupant: Option<Player>) {

    /** The occupant's marker, or nothing for an unoccupied cell. */
    function Marker(): (m: Option<string>)
      ensures m.Some? <==> occupant.Some?
      ensures m.Some? ==> m.value == occupant.value.marker
    {
      match occupant
      case None => None
      case Some(p) => Some(p.marker)
    }
  }

  /** The side length and the cells, row-major. */
  datatype Board = Board(size: nat, cells: seq<Cell>)

  /** A well-formed board: size*size cells, and cell i carries reference i. */
  ghost predicate Valid(b: Board) {
    && |b.cells| == b.size * b.size
    && forall i :: 0 <= i < |b.cells| ==> b.cells[i].reference == CellRef(i)
  }

  /** The board a game starts from: nine unoccupied cells. */
  function Blank(): (b: Board) {
    Board(3, seq(9, i requires 0 <= i < 9 => Cell(CellRef(i), None)))
  }

  /** Builds the empty 3x3 board cell by cell. */
  method EmptyBoard() returns (b: Board)
    ensures b.size == 3 && |b.cells| == 9
    ensures forall i :: 0 <= i < 9 ==> b.cells[i] == Cell(CellRef(i), None)
    ensures b == Blank()
  {
    var cells: seq<Cell> := [];
    for i := 0 to 9
      invariant |cells| == i
      invariant forall k :: 0 <= k < i ==> cells[k] == Cell(CellRef(k), None)
    {
      cells := cells + [Cell(CellRef(i), None)];
    }
    b := Board(3, cells);
  }

  /** The blank board is well formed, and every one of its cells is empty. */
  lemma BlankIsEmpty()
    ensures Valid(Blank())
    ensures EmptyCells(Blank()) == seq(9, i requires 0 <= i < 9 => CellRef(i))
  {
    AllUnoccupied(Blank().cells);
  }

  /** When no cell is occupied, every reference is listed, in cell order. */
  lemma {:induction false} AllUnoccupied(cells: seq<Cell>)
    requires forall i :: 0 <= i < |cells| ==> cells[i].occupant.None?
    ensures UnoccupiedRefs(cells) == seq(|cells|, i requires 0 <= i < |cells| => cells[i].reference)
  {
    if cells != [] {
      AllUnoccupied(cells[1..]);
    }
  }

  /** The references of the unoccupied cells among `cells`, in their order. */
  function UnoccupiedRefs(cells: seq<Cell>): (refs: seq<CellRef>)
    ensures |refs| <= |cells|
    ensures forall r :: r in refs <==>
      exists i :: 0 <= i < |cells| && cells[i].occupant.None? && cells[i].reference == r
  {
    if cells == [] then []
    else
      var rest := UnoccupiedRefs(cells[1..]);
      assert forall r :: r in rest <==>
        exists i :: 1 <= i < |cells| && cells[i].occupant.None? && cells[i].reference == r by {
        forall r | r in rest
          ensures exists i :: 1 <= i < |cells| && cells[i].occupant.None? && cells[i].reference == r
        {
          var i :| 0 <= i < |cells[1..]| && cells[1..][i].occupant.None? && cells[1..][i].reference == r;
          assert cells[i + 1] == cells[1..][i];
        }
      }
      (if cells[0].occupant.None? then [cells[0].reference] else []) + rest
  }

  /** The references of the board's unoccupied cells, in index order. */
  function EmptyCells(b: Board): (refs: seq<CellRef>)
    ensures |refs| <= |b.cells|
    ensures forall r :: r in refs <==>
      exists i :: 0 <= i < |b.cells| && b.cells[i].occupant.None? && b.cells[i].reference == r
  {
    UnoccupiedRefs(b.cells)
  }

  /**
   * Over cells numbered consecutively from `lo`, the unoccupied references
   * come out strictly ascending.
   */
  lemma {:induction false} UnoccupiedRefsAscending(cells: seq<Cell>, lo: nat)
    requires forall i :: 0 <= i < |cells| ==> cells[i].reference == CellRef(lo + i)
    ensures forall r :: r in UnoccupiedRefs(cells) ==> lo <= r.index < lo + |cells|
    ensures forall i, j :: 0 <= i < j < |UnoccupiedRefs(cells)| ==>
      UnoccupiedRefs(cells)[i].index < UnoccupiedRefs(cells)[j].index
  {
    if cells != [] {
      UnoccupiedRefsAscending(cells[1..], lo + 1);
    }
  }

  /**
   * On a well-formed board, `EmptyCells` lists exactly the indices of the
   * unoccupied cells, each once, in ascending order.
   */
  lemma EmptyCellsOfValid(b: Board)
    requires Valid(b)
    ensures forall i :: 0 <= i < |b.cells| ==> (CellRef(i) in EmptyCells(b) <==> b.cells[i].occupant.None?)
    ensures forall r :: r in EmptyCells(b) ==> r.index < |b.cells|
    ensures forall i, j :: 0 <= i < j < |EmptyCells(b)| ==> EmptyCells(b)[i].index < EmptyCells(b)[j].index
  {
    UnoccupiedRefsAscending(b.cells, 0);
  }

  /** Grid position (row, column) of an n-by-n board, as a cell index. */
  function GridIndex(n: nat, row: nat, column: nat): (i: nat)
    requires row < n && column < n
    ensures i < n * n
  {
    assert row * n <= (n - 1) * n by {
      MulMonotone(row, n - 1, n);
    }
    row * n + column
  }

  lemma MulMonotone(a: nat, b: nat, n: nat)
    requires a <= b
    ensures a * n <= b * n
  {
  }

  /** Row r: cells r*n + c for c = 0 .. n-1. */
  function Row(b: Board, r: nat): (row: seq<Cell>)
    requires |b.cells| == b.size * b.size && r < b.size
    ensures |row| == b.size
  {
    seq(b.size, c requires 0 <= c < b.size => b.cells[GridIndex(b.size, r, c)])
  }

  /** Column r: cells r + c*n for c = 0 .. n-1. */
  function Column(b: Board, r: nat): (column: seq<Cell>)
    requires |b.cells| == b.size * b.size && r < b.size
    ensures |column| == b.size
  {
    seq(b.size, c requires 0 <= c < b.size => b.cells[GridIndex(b.size, c, r)])
  }

  /** The main diagonal: cells r*n + r. */
  function Diagonal(b: Board): (diagonal: seq<Cell>)
    requires |b.cells| == b.size * b.size
    ensures |diagonal| == b.size
  {
    seq(b.size, r requires 0 <= r < b.size => b.cells[GridIndex(b.size, r, r)])
  }

  /** The anti-diagonal: cells r*n + (n - r - 1). */
  function AntiDiagonal(b: Board): (diagonal: seq<Cell>)
    requires |b.cells| == b.size * b.size
    ensures |diagonal| == b.size
  {
    seq(b.size, r requires 0 <= r < b.size => b.cells[GridIndex(b.size, r, b.size - r - 1)])
  }

  /**
   * Segment k of the fixed order: for k < 2n, row k/2 when k is even and
   * column k/2 when k is odd; then the main diagonal (k = 2n) and the
   * anti-diagonal (k = 2n + 1).
   */
  function Segment(b: Board, k: nat): (segment: seq<Cell>)
    requires |b.cells| == b.size * b.size && k < 2 * b.size + 2
    ensures |segment| == b.size
  {
    if k < 2 * b.size then
      (if k % 2 == 0 then Row(b, k / 2) else Column(b, k / 2))
    else if k == 2 * b.size then Diagonal(b)
    else AntiDiagonal(b)
  }

  /**
   * The winnable segments in their fixed order: row 0, column 0, row 1,
   * column 1, ..., then the main diagonal and the anti-diagonal.
   */
  function SegmentsOf(b: Board): (segments: seq<seq<Cell>>)
    requires |b.cells| == b.size * b.size
    ensures |segments| == 2 * b.size + 2
    ensures forall k :: 0 <= k < |segments| ==> |segments[k]| == b.size
  {
    seq(2 * b.size + 2, k requires 0 <= k < 2 * b.size + 2 => Segment(b, k))
  }

  /** Builds the segments with the row/column loops and the two diagonals. */
  method Segments(b: Board) returns (segments: seq<seq<Cell>>)
    requires |b.cells| == b.size * b.size
    ensures |segments| == 2 * b.size + 2
    ensures forall k :: 0 <= k < |segments| ==> |segments[k]| == b.size
    ensures segments == SegmentsOf(b)
  {
    var n := b.size;
    segments := [];
    var firstDiagonal: seq<Cell> := [];
    var secondDiagonal: seq<Cell> := [];
    for rowIndex := 0 to n
      invariant |segments| == 2 * rowIndex
      invariant forall k :: 0 <= k < 2 * rowIndex ==> segments[k] == SegmentsOf(b)[k]
      invariant firstDiagonal == Diagonal(b)[..rowIndex]
      invariant secondDiagonal == AntiDiagonal(b)[..rowIndex]
    {
      var row: seq<Cell> := [];
      var column: seq<Cell> := [];
      for columnIndex := 0 to n
        invariant row == Row(b, rowIndex)[..columnIndex]
        invariant column == Column(b, rowIndex)[..columnIndex]
      {
        // Vec::insert at the current length, which appends
        row := row[..columnIndex] + [b.cells[GridIndex(n, rowIndex, columnIndex)]] + row[columnIndex..];
        column := column[..columnIndex] + [b.cells[GridIndex(n, columnIndex, rowIndex)]] + column[columnIndex..];
      }
      assert row == Row(b, rowIndex) && column == Column(b, rowIndex);
      segments := segments + [row, column];
      firstDiagonal := firstDiagonal + [b.cells[GridIndex(n, rowIndex, rowIndex)]];
      secondDiagonal := secondDiagonal + [b.cells[GridIndex(n, rowIndex, n - rowIndex - 1)]];
    }
    assert firstDiagonal == Diagonal(b) && secondDiagonal == AntiDiagonal(b);
    segments := segments + [firstDiagonal, secondDiagonal];
  }

  /**
   * On the 3x3 board the eight segments are, in order: row 0, column 0,
   * row 1, column 1, row 2, column 2, main diagonal, anti-diagonal.
   */
  lemma SegmentsOfThreeByThree(b: Board)
    requires b.size == 3 && |b.cells| == 9
    ensures var c := b.cells;
      SegmentsOf(b) == [[c[0], c[1], c[2]], [c[0], c[3], c[6]],
                        [c[3], c[4], c[5]], [c[1], c[4], c[7]],
                        [c[6], c[7], c[8]], [c[2], c[5], c[8]],
                        [c[0], c[4], c[8]], [c[2], c[4], c[6]]]
  {
    var c := b.cells;
    var s := SegmentsOf(b);
    assert s[0] == Row(b, 0) == [c[0], c[1], c[2]];
    assert s[1] == Column(b, 0) == [c[0], c[3], c[6]];
    assert s[2] == Row(b, 1) == [c[3], c[4], c[5]];
    assert s[3] == Column(b, 1) == [c[1], c[4], c[7]];
    assert s[4] == Row(b, 2) == [c[6], c[7], c[8]];
    assert s[5] == Column(b, 2) == [c[2], c[5], c[8]];
    assert s[6] == Diagonal(b) == [c[0], c[4], c[8]];
    assert s[7] == AntiDiagonal(b) == [c[2], c[4], c[6]];
  }

  /**
   * A new board in which the referenced cell holds `occupant`. There is no
   * occupancy check: an occupied cell is overwritten. The reference must
   * index an existing cell.
   */
  function OccupyCell(b: Board, occupant: Player, ref: CellRef): (r: Board)
    requires ref.index < |b.cells|
    ensures r.size == b.size && |r.cells| == |b.cells|
    ensures r.cells[ref.index] == Cell(ref, Some(occupant))
    ensures forall i :: 0 <= i < |b.cells| && i != ref.index ==> r.cells[i] == b.cells[i]
    ensures Valid(b) ==> Valid(r)
  {
    Board(b.size, b.cells[ref.index := Cell(CellRef(ref.index), Some(occupant))])
  }

  lemma {:induction false} UnoccupiedRefsAfterOccupying(cells: seq<Cell>, i: nat, c: Cell)
    requires i < |cells| && cells[i].occupant.None? && c.occupant.Some?
    ensures |UnoccupiedRefs(cells[i := c])| == |UnoccupiedRefs(cells)| - 1
  {
    if i == 0 {
      assert cells[i := c][1..] == cells[1..];
    } else {
      UnoccupiedRefsAfterOccupying(cells[1..], i - 1, c);
      assert cells[i := c][1..] == cells[1..][i - 1 := c];
    }
  }

  /**
   * Occupying one of the board's empty cells removes exactly that reference
   * from `EmptyCells`, so the count of empty cells drops by one.
   */
  lemma OccupyEmptyCell(b: Board, p: Player, ref: CellRef)
    requires Valid(b) && ref in EmptyCells(b)
    ensures ref.index < |b.cells|
    ensures forall r :: r in EmptyCells(OccupyCell(b, p, ref)) <==> r in EmptyCells(b) && r != ref
    ensures |EmptyCells(OccupyCell(b, p, ref))| == |EmptyCells(b)| - 1
  {
    EmptyCellsOfValid(b);
    var after := OccupyCell(b, p, ref);
    EmptyCellsOfValid(after);
    assert b.cells[ref.index].occupant.None?;
    assert after.cells == b.cells[ref.index := Cell(ref, Some(p))];
    UnoccupiedRefsAfterOccupying(b.cells, ref.index, Cell(ref, Some(p)));
  }
}
