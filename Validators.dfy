/**
  The three worker routines of validSudoku.c, validRow, validColumn and
  threeBlock: each checks the descriptor it is given, scans one region of
  the board with a 9-slot seen array, and on success writes 1 into its own
  slot of the shared 27-slot array `valid`.

  Every routine is modelled twice over the same code, selected by a
  Version: AsWritten follows the source line by line (row guard `row > 0`,
  column guard `col > 0`, block scan starting at row 0); Intended uses the
  guards the source's comments describe (`row > 8`, `col > 8`) and starts
  the block scan at `row`.
 */
module Validators {
  import opened Digits

  /** numThreads: one worker and one slot of `valid` per region. */
  const NumThreads := 27

  /** The board `sudoku[9][9]`; it is never written, so a value stands for it. */
  predicate IsGrid(b: seq<seq<int>>) {
    |b| == 9 && forall r :: 0 <= r < 9 ==> |b[r]| == 9
  }

  datatype Version = AsWritten | Intended

  /** Which start routine a thread runs. */
  datatype Kind = BlockTask | ColumnTask | RowTask

  /** A thread's work: its start routine and the `parameters` struct (row, column) it is passed. */
  datatype Task = Task(kind: Kind, row: int, col: int)

  /** The guard of validRow: true when the routine exits without scanning. */
  predicate RowRejected(v: Version, row: int, col: int) {
    (if v == AsWritten then row > 0 else row > 8) || col != 0
  }

  /** The guard of validColumn. */
  predicate ColumnRejected(v: Version, row: int, col: int) {
    (if v == AsWritten then col > 0 else col > 8) || row != 0
  }

  /**
    The guard of threeBlock. C's `%` truncates toward zero and Dafny's is
    Euclidean, but the two agree on whether the remainder is zero.
   */
  predicate BlockRejected(row: int, col: int) {
    row > 6 || col > 6 || row % 3 != 0 || col % 3 != 0
  }

  /** The descriptor gets past its routine's guard. */
  predicate Passes(v: Version, t: Task) {
    match t.kind
    case RowTask => !RowRejected(v, t.row, t.col)
    case ColumnTask => !ColumnRejected(v, t.row, t.col)
    case BlockTask => !BlockRejected(t.row, t.col)
  }

  /**
    What the routines need of their callers: a descriptor the guard lets
    through has no negative coordinate (the guards test only the upper
    bounds, so a negative one would index the board out of bounds).
   */
  predicate Safe(v: Version, t: Task) {
    Passes(v, t) ==> 0 <= t.row && 0 <= t.col
  }

  /** The slot of `valid` a descriptor's worker writes: `row + col / 3`, `18 + col` or `9 + row`. */
  function Slot(t: Task): int {
    match t.kind
    case BlockTask => t.row + t.col / 3
    case ColumnTask => 18 + t.col
    case RowTask => 9 + t.row
  }

  /** The row threeBlock's outer loop starts at: `i = 0` as written. */
  function ScanStart(v: Version, row: int): int {
    if v == AsWritten then 0 else row
  }

  /** The cells of column col, top to bottom, as validColumn reads them. */
  function ColumnCells(b: seq<seq<int>>, col: int): seq<int>
    requires IsGrid(b) && 0 <= col < 9
  {
    seq(9, i requires 0 <= i < 9 => b[i][col])
  }

  /**
    The cells threeBlock reads, in its loop order: rows start..row+2, and in
    each the columns col..col+2.
   */
  function BlockScanCells(b: seq<seq<int>>, start: int, row: int, col: int): seq<int>
    requires IsGrid(b) && 0 <= start <= row <= 6 && 0 <= col <= 6
  {
    seq(3 * (row + 3 - start), k requires 0 <= k < 3 * (row + 3 - start) => b[start + k / 3][col + k % 3])
  }

  /** Cell (i, j) of the block scan sits at position 3 * (i - start) + (j - col). */
  lemma BlockScanAt(b: seq<seq<int>>, start: int, row: int, col: int, i: int, j: int)
    requires IsGrid(b) && 0 <= start <= row <= 6 && 0 <= col <= 6
    requires start <= i < row + 3 && col <= j < col + 3
    ensures 3 * (i - start) + (j - col) < 3 * (row + 3 - start)
    ensures BlockScanCells(b, start, row, col)[3 * (i - start) + (j - col)] == b[i][j]
  {
    var k := 3 * (i - start) + (j - col);
    assert k / 3 == i - start && k % 3 == j - col;
  }

  /** The cells the worker of a descriptor scans once past its guard. */
  function Cells(v: Version, b: seq<seq<int>>, t: Task): seq<int>
    requires IsGrid(b) && Passes(v, t) && Safe(v, t)
  {
    match t.kind
    case RowTask => b[t.row]
    case ColumnTask => ColumnCells(b, t.col)
    case BlockTask => BlockScanCells(b, ScanStart(v, t.row), t.row, t.col)
  }

  /** The descriptor's worker writes its slot: its guard passes and its scan accepts every cell. */
  predicate Writes(v: Version, b: seq<seq<int>>, t: Task)
    requires IsGrid(b) && Safe(v, t)
  {
    Passes(v, t) && Acceptable(Cells(v, b, t))
  }

  /**
    The effect of one worker on the contents of `valid`: 1 in its slot if
    it writes, nothing otherwise.
   */
  function Effect(v: Version, b: seq<seq<int>>, t: Task, s: seq<int>): (r: seq<int>)
    requires IsGrid(b) && Safe(v, t) && |s| == NumThreads
    ensures |r| == NumThreads
    ensures forall k :: 0 <= k < NumThreads && k != Slot(t) ==> r[k] == s[k]
    ensures Writes(v, b, t) ==> r[Slot(t)] == 1
    ensures !Writes(v, b, t) ==> r == s
  {
    if Writes(v, b, t) then s[Slot(t) := 1] else s
  }

  /**
    One cell of a scan, shared by the three routines: the test
    `num < 1 || num > 9 || seen[num - 1] == 1` (the range test comes first,
    so `seen[num - 1]` is only read for a digit) and, when it fails, the
    mark `seen[num - 1] = 1`. With seen holding the marks of an accepted
    prefix, the cell is taken exactly when the longer prefix is still
    acceptable, and seen then holds the marks of the longer prefix.
   */
  method Mark(seen: array<int>, ghost prefix: seq<int>, num: int) returns (taken: bool)
    requires seen.Length == 9 && Acceptable(prefix) && seen[..] == Marks(prefix)
    modifies seen
    ensures taken <==> Acceptable(prefix + [num])
    ensures taken ==> seen[..] == Marks(prefix + [num])
    ensures !taken ==> seen[..] == old(seen[..])
  {
    ScanStep(prefix, num);
    if num < 1 || num > 9 || seen[num - 1] == 1 {
      return false;
    }
    seen[num - 1] := 1;
    return true;
  }

  /**
    validRow: exits on its guard; otherwise scans row `row` left to right,
    exiting at the first value outside 1..9 or already seen, and writes 1
    into slot 9 + row when all nine cells pass. After i accepted cells the
    seen array marks exactly those i values.
   */
  method ValidRow(v: Version, board: seq<seq<int>>, valid: array<int>, row: int, col: int)
    requires IsGrid(board) && valid.Length == NumThreads
    requires Safe(v, Task(RowTask, row, col))
    modifies valid
    ensures valid[..] == Effect(v, board, Task(RowTask, row, col), old(valid[..]))
  {
    if RowRejected(v, row, col) {
      return;
    }
    var seen := new int[9](_ => 0);
    ghost var cells := board[row];
    MarksEmpty();
    assert seen[..] == Marks(cells[..0]);
    for i := 0 to 9
      invariant Acceptable(cells[..i]) && seen[..] == Marks(cells[..i])
      invariant valid[..] == old(valid[..])
    {
      var num := board[row][i];
      assert cells[..i + 1] == cells[..i] + [num];
      var taken := Mark(seen, cells[..i], num);
      if !taken {
        RejectedPrefix(cells, i + 1);
        return;
      }
    }
    assert cells[..9] == cells;
    valid[9 + row] := 1;
  }

  /**
    validColumn: exits on its guard; otherwise scans column `col` top to
    bottom with the same early exits and writes 1 into slot 18 + col.
   */
  method ValidColumn(v: Version, board: seq<seq<int>>, valid: array<int>, row: int, col: int)
    requires IsGrid(board) && valid.Length == NumThreads
    requires Safe(v, Task(ColumnTask, row, col))
    modifies valid
    ensures valid[..] == Effect(v, board, Task(ColumnTask, row, col), old(valid[..]))
  {
    if ColumnRejected(v, row, col) {
      return;
    }
    var seen := new int[9](_ => 0);
    ghost var cells := ColumnCells(board, col);
    MarksEmpty();
    assert seen[..] == Marks(cells[..0]);
    for i := 0 to 9
      invariant Acceptable(cells[..i]) && seen[..] == Marks(cells[..i])
      invariant valid[..] == old(valid[..])
    {
      var num := board[i][col];
      assert cells[..i + 1] == cells[..i] + [num];
      var taken := Mark(seen, cells[..i], num);
      if !taken {
        RejectedPrefix(cells, i + 1);
        return;
      }
    }
    assert cells[..9] == cells;
    valid[18 + col] := 1;
  }

  /**
    threeBlock: exits unless row and col are 0, 3 or 6; otherwise scans
    rows ScanStart(v, row) .. row + 2, columns col .. col + 2, with the same
    early exits, and writes 1 into slot row + col / 3.
   */
  method ThreeBlock(v: Version, board: seq<seq<int>>, valid: array<int>, row: int, col: int)
    requires IsGrid(board) && valid.Length == NumThreads
    requires Safe(v, Task(BlockTask, row, col))
    modifies valid
    ensures valid[..] == Effect(v, board, Task(BlockTask, row, col), old(valid[..]))
  {
    if BlockRejected(row, col) {
      return;
    }
    var seen := new int[9](_ => 0);
    var start := ScanStart(v, row);
    ghost var cells := BlockScanCells(board, start, row, col);
    MarksEmpty();
    assert seen[..] == Marks(cells[..0]);
    for i := start to row + 3
      invariant Acceptable(cells[..3 * (i - start)]) && seen[..] == Marks(cells[..3 * (i - start)])
      invariant valid[..] == old(valid[..])
    {
      for j := col to col + 3
        invariant Acceptable(cells[..3 * (i - start) + (j - col)])
        invariant seen[..] == Marks(cells[..3 * (i - start) + (j - col)])
        invariant valid[..] == old(valid[..])
      {
        var num := board[i][j];
        ghost var k := 3 * (i - start) + (j - col);
        BlockScanAt(board, start, row, col, i, j);
        assert cells[..k + 1] == cells[..k] + [num];
        var taken := Mark(seen, cells[..k], num);
        if !taken {
          RejectedPrefix(cells, k + 1);
          return;
        }
      }
    }
    assert cells[..3 * (row + 3 - start)] == cells;
    valid[row + col / 3] := 1;
  }
}
