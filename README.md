# validSudoku in Dafny

A model of `validSudoku.c`, a program that decides whether a 9x9 Sudoku
board is solved. `main` walks the 81 board positions and starts one worker
per region: 9 blocks, 9 columns and 9 rows. It counts them with
`threadIndex`. Each worker (`validRow`, `validColumn`, `threeBlock`):

- checks its `(row, column)` descriptor against a guard;
- scans its region with a 9-slot "seen" array, stopping at the first value
  outside 1..9 or the first repeat;
- on success writes 1 into its own slot of the 27-slot global `valid`.

`main` then reduces `valid` to the verdict and stops at the first zero slot.

The model has four modules:

- `Digits` holds what a scan accepts (`Acceptable`: digits 1..9 without
  repeats) and what the seen array holds (`Marks`). It also has the
  pigeonhole facts: an accepted region has at most nine cells, and nine
  accepted cells are a permutation of 1..9.
- `Validators` holds the three workers as methods over the shared
  `valid: array<int>`. Each scan is a `for` loop whose invariant says that
  the seen array marks exactly the values accepted so far. Every worker is
  also stated as a pure `Effect` on the contents of `valid`.
- `Driver` holds `main`'s dispatch loop (`Dispatch`, `Visit`, `Test`,
  `Start`) and its reduction loop (`AllSlotsSet`). It also covers the slot
  mapping bijection, the counts of descriptors, the order-independence of
  the workers, and the verdict theorems.
- `Reference` holds the board the program is compiled with, as a test
  instance.

The code as written has three defects.

- The row guard tests `row > 0` (validSudoku.c:82), where its comment says
  `row > 8`.
- The column guard tests `col > 0` (validSudoku.c:121), where `col > 8` is
  evidently meant.
- The block scan starts at row 0 (validSudoku.c:172) instead of `row`.

Each worker is therefore written once, over a `Version`:

- `AsWritten` follows the code;
- `Intended` uses the guards `row > 8` and `col > 8` and starts the block
  scan at `row`.

With `AsWritten` the verdict is "not valid" on every board. With `Intended`
it is "valid" exactly when every row, column and block holds 1..9 once.

The model follows the code where it differs from the program's stated
purpose (lines 3-4): a checker that accepts a solved board. The board the
program is compiled with is solved, and the intended code accepts it. As
written, the program reports it "not valid" (`Reference.ReferenceSolved`,
`Reference.Program`).

## Model

| member | source | states |
|---|---|---|
| Digits.ScanStep | validSudoku.c:94-97 | With seen marking an accepted prefix: seen[num-1] is read only for num in 1..9, and it is 1 exactly when num was already accepted. The cell is taken exactly when the longer prefix is still acceptable. Marking slot num-1 gives the marks of the longer prefix. |
| Digits.RejectedPrefix | validSudoku.c:94-95 | Once a prefix of a region is rejected (early exit), the whole region is rejected. |
| Digits.AcceptableBound | validSudoku.c:92-99 | A scan that accepts every cell has seen at most nine cells, each a distinct digit. |
| Digits.LongRejected | validSudoku.c:172-181 | A region of more than nine cells is always rejected. |
| Digits.ScanIsPermutation | validSudoku.c:92-102 | A nine-cell scan succeeds exactly when the cells are a permutation of 1..9, in both directions. |
| Validators.BlockScanAt | validSudoku.c:172-174 | The nested block loop reads cell (i, j) as entry 3*(i-start)+(j-col) of the region it scans. |
| Validators.Effect | validSudoku.c:102-185 | The writes of lines 102, 143 and 185: a worker changes no slot but its own. It sets its slot to 1 when its guard passes and its region is accepted. Otherwise it changes nothing. |
| Validators.Mark | validSudoku.c:94-97 | One cell's test and mark on the seen array. The result is true exactly when the longer prefix is acceptable, and the array then holds its marks. When the cell is refused the array is unchanged. |
| Validators.ValidRow | validSudoku.c:74-104 | After validRow, `valid` is the old contents with slot 9+row set to 1 exactly when the guard passes and the row is accepted. Otherwise it is unchanged. |
| Validators.ValidColumn | validSudoku.c:113-145 | The same for validColumn and slot 18+col. |
| Validators.ThreeBlock | validSudoku.c:154-187 | The same for threeBlock and slot row+col/3. The scanned rows are `ScanStart(v, row)`..row+2: 0 as written, row when intended. |
| Driver.CreationOrderDistinct | validSudoku.c:206-228 | Descriptors listed in main's creation order are distinct. |
| Driver.PosInjective | validSudoku.c:206-207 | Two positions of the row-major walk coincide only for the same cell. |
| Driver.NextTest | validSudoku.c:209-226 | After one of the three tests at a position, the created descriptors are those before it, plus its own if it holds. |
| Driver.AppendInOrder | validSudoku.c:213 | Storing a descriptor created after all stored ones keeps `threads` in creation order. |
| Driver.CreateStep | validSudoku.c:209-226 | When a test holds, threadIndex is below numThreads, and appending the descriptor keeps the listing complete and ordered. |
| Driver.SlotRanges | validSudoku.c:102-185 | The slots written at lines 102, 143 and 185: block slots are 0..8, row slots (9+row) are 9..17, column slots (18+col) are 18..26. |
| Driver.SlotInjective | validSudoku.c:102-185 | No two dispatched descriptors share a slot of `valid` among those written at lines 102, 143 and 185. |
| Driver.TaskForSlot | validSudoku.c:36 | Every slot 0..26 belongs to some dispatched descriptor, so the mapping covers `valid`. |
| Driver.SlotsDistinct | validSudoku.c:102-185 | Distinct dispatched descriptors have distinct slots (lines 102, 143 and 185). |
| Driver.ListingBound | validSudoku.c:200 | At most numThreads = 27 distinct descriptors can be dispatched, so `threads[numThreads]` has room for all of them. |
| Driver.ListingLength | validSudoku.c:206-228 | A listing of every dispatched descriptor, without repeats, has exactly 27 entries. |
| Driver.OfKind | validSudoku.c:209-226 | The entries of one kind are exactly the listed descriptors of that kind. |
| Driver.OfKindDistinct | validSudoku.c:209-226 | Selecting one kind keeps a listing free of repeats. |
| Driver.TaskAt | validSudoku.c:209-221 | For every kind and index 0..8 there is a dispatched descriptor of that kind at that index. |
| Driver.OffsetInjective | validSudoku.c:209-221 | Within one kind, the index 0..8 determines the dispatched descriptor. |
| Driver.KindCount | validSudoku.c:209-226 | Main creates exactly 9 block, 9 column and 9 row descriptors. |
| Driver.ApplyAt | validSudoku.c:36 | After a run of workers, slot k is 1 if some worker writes it and keeps its old value otherwise. |
| Driver.ApplyOrderIrrelevant | validSudoku.c:230-233 | Any two schedules of the same set of workers leave the same `valid`. Thread order does not matter. |
| Driver.FinalSlots | validSudoku.c:236-244 | After all 27 workers on a zeroed `valid`, every slot is non-zero exactly when every region passes. |
| Driver.AllSlotsSet | validSudoku.c:236-244 | The reduction loop returns true exactly when no slot of `valid` is 0. |
| Driver.Skip | validSudoku.c:209-226 | A test that fails creates nothing, and the walk goes on to the next test. |
| Driver.NextPosition | validSudoku.c:206-207 | After the three tests at position n, the walk continues at n+1. |
| Driver.Start | validSudoku.c:213 | pthread_create for a test that holds, modelled as a sequential call: threadIndex < numThreads before the store. The descriptor is appended and its routine's effect applied. |
| Driver.Test | validSudoku.c:209-214 | One `if` of the dispatch loop, with its condition equivalent to the descriptor being one main dispatches. |
| Driver.Visit | validSudoku.c:207-227 | The body of the dispatch loop at (i, j) moves the listing and `valid` from position 9i+j to 9i+j+1. |
| Driver.Dispatch | validSudoku.c:206-228 | threadIndex ends at numThreads. `threads` holds every dispatched descriptor once, in creation order, 9 of each kind. `valid` holds their workers' effect on its old contents. |
| Driver.Run | validSudoku.c:197-246 | The verdict is true exactly when every region passes. As written it is always false. Intended, it is true exactly when the board is solved. |
| Driver.BlockScanIsBox | validSudoku.c:172-173 | With the scan starting at `row`, the block worker reads exactly the cells of its 3x3 block. |
| Driver.BlockCorner | validSudoku.c:209 | The corner of every 3x3 block is a position where main creates a block descriptor. |
| Driver.RowGuardAccepts | validSudoku.c:82 | On coordinates 0..8, the row guard as written lets through only (0, 0). The intended one lets through every (i, 0). |
| Driver.ColumnGuardAccepts | validSudoku.c:121 | On coordinates 0..8, the column guard as written lets through only (0, 0). The intended one lets through every (0, j). |
| Driver.BlockGuardAccepts | validSudoku.c:162 | On coordinates 0..8, the block guard lets through exactly rows and columns 0, 3 and 6. |
| Driver.IntendedGuardsPass | validSudoku.c:81-162 | Under the intended guards (rows at lines 81-82, columns at 120-121, blocks at 162), every descriptor main creates gets past its guard. |
| Driver.AsWrittenLowerBlocksFail | validSudoku.c:172-181 | As written, the blocks at rows 3 and 6 scan 18 or 27 cells and never write their slot, on any board. |
| Driver.AsWrittenReachableSlots | validSudoku.c:172-185 | As written, only slots 0, 1, 2, 9 and 18 can become non-zero, on any board. |
| Driver.OutOfRangeCellFails | validSudoku.c:94-95 | A cell outside 1..9 makes its row and its column fail, in either version, so such a board never passes. |
| Driver.AsWrittenNeverPasses | validSudoku.c:82 | As written, the row descriptor (1, 0) never passes, so on every board some region fails. |
| Driver.RegionsByKind | validSudoku.c:209-226 | Every dispatched region passes exactly when all 9 row, all 9 column and all 9 block workers write. |
| Driver.IntendedRows | validSudoku.c:92-102 | With the intended guard, all row workers write exactly when every row is a permutation of 1..9. |
| Driver.IntendedColumns | validSudoku.c:132-143 | With the intended guard, all column workers write exactly when every column is a permutation of 1..9. |
| Driver.IntendedBlock | validSudoku.c:172-185 | With the scan starting at `row`, the worker of block (br, bc) writes exactly when that block is a permutation of 1..9. |
| Driver.IntendedBlocks | validSudoku.c:172-185 | With the scan starting at `row`, all block workers write exactly when every 3x3 block is a permutation of 1..9. |
| Driver.IntendedPassesIffSolved | validSudoku.c:3-4 | With the intended guards and block scan, every region passes exactly when every row, column and 3x3 block is a permutation of 1..9. |
| Reference.RowSolved | validSudoku.c:55-65 | Each row of the compiled-in board is a permutation of 1..9. |
| Reference.ColumnSolved | validSudoku.c:55-65 | Each column of the compiled-in board is a permutation of 1..9. |
| Reference.BoxSolved | validSudoku.c:55-65 | Each 3x3 block of the compiled-in board is a permutation of 1..9. |
| Reference.ReferenceSolved | validSudoku.c:55-65 | The compiled-in board is solved. |
| Reference.ReferenceVerdicts | validSudoku.c:55-65 | On the compiled-in board, every region passes under the intended code, and some region fails as written. |
| Reference.MutatedRejected | validSudoku.c:55-56 | With cell (0, 0) changed from 6 to 2, the intended row-0 and block-0 workers reject the repeated 2, and the intended verdict is "not valid". |
| Reference.Program | validSudoku.c:197-246 | The program as compiled reports "Sudoku is not valid." |

## Left out

- Threads: `pthread_create`, `pthread_join` and `pthread_exit` are not modelled as concurrency. Each worker runs to completion where main creates it, and `pthread_exit` becomes an early return. The workers write disjoint slots (`Driver.SlotInjective`), and the final `valid` does not depend on their order (`Driver.ApplyOrderIrrelevant`). The thread handles become an array of the descriptors passed to them.
- `malloc` of the `parameters` structs is left out, and so is the fact that they are never freed. The descriptor is passed by value as `Task(kind, row, col)`.
- `fprintf(stderr, ...)` on a rejected descriptor, the `printf` of the verdict and the exit status are left out. The verdict is a returned bool.
- The global `valid` (line 36) is zero-initialised and `main` runs once, so `Driver.Run` allocates a fresh zeroed array in its place and passes it to the workers. Nothing else can alias it.
- The global `sudoku` array is never written, so it is a value (`seq<seq<int>>`). `Driver.Run` takes any 9x9 board. The literal board of lines 55-65 appears only as `Reference.Board`.
- C `int` is modelled as an unbounded integer. No value in the program comes near the 32-bit limits. C's `/` and `%` truncate toward zero and Dafny's are Euclidean. The program uses them in three places, and the two agree in each. In threeBlock's guard (line 162) and main's block test (line 209), a remainder is only compared with 0, and the two remainders are zero for the same operands. The slot `row + col / 3` (line 185) is computed only for a `col` that has passed the guard, and `Validators.Safe` makes that `col` non-negative, where the two quotients are equal.
- The workers require that a descriptor which gets past its guard has non-negative coordinates (`Validators.Safe`). Main never creates negative ones. In C a negative one would read outside `sudoku`.

## Findings

| source | as written | input that shows it | evidently intended | confidence | as-written member | corrected member |
|---|---|---|---|---|---|---|
| validSudoku.c:82 | `if (row > 0 \|\| col != 0)` turns away every row but row 0 | any board, e.g. the solved board of lines 55-65: the row descriptor (1, 0) is turned away, slot 10 stays 0 and the verdict is "not valid" | `row > 8 \|\| col != 0`, as the comment on line 81 says | not executed | Driver.AsWrittenNeverPasses | Driver.IntendedPassesIffSolved |
| validSudoku.c:121 | `if (col > 0 \|\| row != 0)` turns away every column but column 0 | any board: the column descriptor (0, 1) is turned away and slot 19 stays 0 | `col > 8 \|\| row != 0` | not executed | Driver.AsWrittenReachableSlots | Driver.IntendedPassesIffSolved |
| validSudoku.c:172 | `for (int i = 0; i < row + 3; i++)` scans rows 0..row+2 | any board: block (3, 0) scans 18 cells, so a digit repeats and slot 3 stays 0 | `int i = row` | not executed | Driver.AsWrittenLowerBlocksFail | Driver.BlockScanIsBox |
