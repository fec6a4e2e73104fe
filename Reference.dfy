/**
  The board validSudoku.c is compiled with, as a test instance of the
  model: it is solved, yet the program as written reports it not valid.
 */
module Reference {
  import opened Digits
  import opened Validators
  import opened Driver

  /** The board `sudoku` that validSudoku.c is compiled with. */
  const Board: seq<seq<int>> := [
    [6, 2, 4, 5, 3, 9, 1, 8, 7],
    [5, 1, 9, 7, 2, 8, 6, 3, 4],
    [8, 3, 7, 6, 1, 4, 2, 9, 5],
    [1, 4, 3, 8, 6, 5, 7, 2, 9],
    [9, 5, 8, 2, 4, 7, 3, 6, 1],
    [7, 6, 2, 3, 9, 1, 4, 5, 8],
    [3, 7, 1, 9, 5, 6, 8, 4, 2],
    [4, 9, 6, 1, 8, 2, 5, 7, 3],
    [2, 8, 5, 4, 7, 3, 9, 1, 6]
  ]

  lemma RowSolved(r: int)
    requires 0 <= r < 9
    ensures IsGrid(Board) && IsDigitPermutation(Board[r])
  {
  }

  lemma ColumnSolved(c: int)
    requires 0 <= c < 9
    ensures IsGrid(Board) && IsDigitPermutation(ColumnCells(Board, c))
  {
    if c == 0 {
      assert ColumnCells(Board, 0) == [6, 5, 8, 1, 9, 7, 3, 4, 2];
    } else if c == 1 {
      assert ColumnCells(Board, 1) == [2, 1, 3, 4, 5, 6, 7, 9, 8];
    } else if c == 2 {
      assert ColumnCells(Board, 2) == [4, 9, 7, 3, 8, 2, 1, 6, 5];
    } else if c == 3 {
      assert ColumnCells(Board, 3) == [5, 7, 6, 8, 2, 3, 9, 1, 4];
    } else if c == 4 {
      assert ColumnCells(Board, 4) == [3, 2, 1, 6, 4, 9, 5, 8, 7];
    } else if c == 5 {
      assert ColumnCells(Board, 5) == [9, 8, 4, 5, 7, 1, 6, 2, 3];
    } else if c == 6 {
      assert ColumnCells(Board, 6) == [1, 6, 2, 7, 3, 4, 8, 5, 9];
    } else if c == 7 {
      assert ColumnCells(Board, 7) == [8, 3, 9, 2, 6, 5, 4, 7, 1];
    } else {
      assert ColumnCells(Board, 8) == [7, 4, 5, 9, 1, 8, 2, 3, 6];
    }
  }

  lemma TopBoxSolved(bc: int)
    requires 0 <= bc < 3
    ensures IsGrid(Board) && IsDigitPermutation(Box(Board, 0, bc))
  {
    if bc == 0 {
      assert Board[0][0..3] == [6, 2, 4];
      assert Board[1][0..3] == [5, 1, 9];
      assert Board[2][0..3] == [8, 3, 7];
      assert Box(Board, 0, 0) == [6, 2, 4, 5, 1, 9, 8, 3, 7];
    } else if bc == 1 {
      assert Board[0][3..6] == [5, 3, 9];
      assert Board[1][3..6] == [7, 2, 8];
      assert Board[2][3..6] == [6, 1, 4];
      assert Box(Board, 0, 1) == [5, 3, 9, 7, 2, 8, 6, 1, 4];
    } else {
      assert Board[0][6..9] == [1, 8, 7];
      assert Board[1][6..9] == [6, 3, 4];
      assert Board[2][6..9] == [2, 9, 5];
      assert Box(Board, 0, 2) == [1, 8, 7, 6, 3, 4, 2, 9, 5];
    }
  }

  lemma MiddleBoxSolved(bc: int)
    requires 0 <= bc < 3
    ensures IsGrid(Board) && IsDigitPermutation(Box(Board, 1, bc))
  {
    if bc == 0 {
      assert Board[3][0..3] == [1, 4, 3];
      assert Board[4][0..3] == [9, 5, 8];
      assert Board[5][0..3] == [7, 6, 2];
      assert Box(Board, 1, 0) == [1, 4, 3, 9, 5, 8, 7, 6, 2];
    } else if bc == 1 {
      assert Board[3][3..6] == [8, 6, 5];
      assert Board[4][3..6] == [2, 4, 7];
      assert Board[5][3..6] == [3, 9, 1];
      assert Box(Board, 1, 1) == [8, 6, 5, 2, 4, 7, 3, 9, 1];
    } else {
      assert Board[3][6..9] == [7, 2, 9];
      assert Board[4][6..9] == [3, 6, 1];
      assert Board[5][6..9] == [4, 5, 8];
      assert Box(Board, 1, 2) == [7, 2, 9, 3, 6, 1, 4, 5, 8];
    }
  }

  lemma BottomBoxSolved(bc: int)
    requires 0 <= bc < 3
    ensures IsGrid(Board) && IsDigitPermutation(Box(Board, 2, bc))
  {
    if bc == 0 {
      assert Board[6][0..3] == [3, 7, 1];
      assert Board[7][0..3] == [4, 9, 6];
      assert Board[8][0..3] == [2, 8, 5];
      assert Box(Board, 2, 0) == [3, 7, 1, 4, 9, 6, 2, 8, 5];
    } else if bc == 1 {
      assert Board[6][3..6] == [9, 5, 6];
      assert Board[7][3..6] == [1, 8, 2];
      assert Board[8][3..6] == [4, 7, 3];
      assert Box(Board, 2, 1) == [9, 5, 6, 1, 8, 2, 4, 7, 3];
    } else {
      assert Board[6][6..9] == [8, 4, 2];
      assert Board[7][6..9] == [5, 7, 3];
      assert Board[8][6..9] == [9, 1, 6];
      assert Box(Board, 2, 2) == [8, 4, 2, 5, 7, 3, 9, 1, 6];
    }
  }

  lemma BoxSolved(br: int, bc: int)
    requires 0 <= br < 3 && 0 <= bc < 3
    ensures IsGrid(Board) && IsDigitPermutation(Box(Board, br, bc))
  {
    if br == 0 {
      TopBoxSolved(bc);
    } else if br == 1 {
      MiddleBoxSolved(bc);
    } else {
      BottomBoxSolved(bc);
    }
  }

  /** The board main runs on is solved: every row, column and block holds 1..9. */
  lemma ReferenceSolved()
    ensures IsGrid(Board) && BoardSolved(Board)
  {
    forall r | 0 <= r < 9 ensures IsDigitPermutation(Board[r]) {
      RowSolved(r);
    }
    forall c | 0 <= c < 9 ensures IsDigitPermutation(ColumnCells(Board, c)) {
      ColumnSolved(c);
    }
    forall br, bc | 0 <= br < 3 && 0 <= bc < 3 ensures IsDigitPermutation(Box(Board, br, bc)) {
      BoxSolved(br, bc);
    }
  }

  /**
    On this solved board the intended program says "Sudoku is valid."; as
    written every region does not pass and it says "Sudoku is not valid.".
   */
  lemma ReferenceVerdicts()
    ensures IsGrid(Board)
    ensures AllRegionsPass(Intended, Board) && !AllRegionsPass(AsWritten, Board)
  {
    ReferenceSolved();
    IntendedPassesIffSolved(Board);
    AsWrittenNeverPasses(Board);
  }

  /** The program as compiled: the as-written routines on this board. */
  method Program() returns (verdict: bool)
    ensures !verdict
  {
    ReferenceSolved();
    verdict := Run(AsWritten, Board);
  }

  /** The board with cell (0, 0) changed from 6 to 2, a second 2 in row 0 and in block 0. */
  const Mutated: seq<seq<int>> := Board[0 := Board[0][0 := 2]]

  /**
    The intended row and block workers reject the repeated 2, so the
    intended verdict on the changed board is "not valid".
   */
  lemma MutatedRejected()
    ensures IsGrid(Mutated)
    ensures !Writes(Intended, Mutated, Task(RowTask, 0, 0)) && !Writes(Intended, Mutated, Task(BlockTask, 0, 0))
    ensures !AllRegionsPass(Intended, Mutated)
  {
    assert Mutated[0][0] == 2 && Mutated[0][1] == 2;
    BlockScanAt(Mutated, 0, 0, 0, 0, 0);
    BlockScanAt(Mutated, 0, 0, 0, 0, 1);
    assert Dispatched(Task(RowTask, 0, 0));
  }
}
