/**
  The `main` driver of validSudoku.c: a nested loop over the 81 board
  positions that starts one worker per region descriptor, counting them with
  threadIndex, then a loop that reduces `valid` to the verdict, stopping at
  the first zero slot.

  Threads are modelled as sequential calls made where pthread_create is
  called; ApplyOrderIrrelevant shows that any other order of the same
  workers leaves `valid` the same, and SlotInjective that no two
  descriptors share a slot.
 */
module Driver {
  import opened Digits
  import opened Validators

  /** A descriptor main creates: blocks at rows and columns 0, 3, 6; column (0, j); row (i, 0). */
  predicate Dispatched(t: Task) {
    0 <= t.row < 9 && 0 <= t.col < 9 &&
    match t.kind
    case BlockTask => t.row % 3 == 0 && t.col % 3 == 0
    case ColumnTask => t.row == 0
    case RowTask => t.col == 0
  }

  /** Position of a descriptor in main's row-major walk over the board. */
  function Pos(t: Task): int {
    9 * t.row + t.col
  }

  /** The order of main's three tests at one position: block, then column, then row. */
  function Rank(k: Kind): int {
    match k
    case BlockTask => 0
    case ColumnTask => 1
    case RowTask => 2
  }

  /** x is created before y. */
  predicate Before(x: Task, y: Task) {
    Pos(x) < Pos(y) || (Pos(x) == Pos(y) && Rank(x.kind) < Rank(y.kind))
  }

  /** The descriptors are listed in creation order (so none is listed twice). */
  predicate InCreationOrder(ts: seq<Task>) {
    forall a, b :: 0 <= a < b < |ts| ==> Before(ts[a], ts[b])
  }

  lemma CreationOrderDistinct(ts: seq<Task>)
    requires InCreationOrder(ts)
    ensures Distinct(ts)
  {
    forall a, b | 0 <= a < b < |ts| ensures ts[a] != ts[b] {
      assert Before(ts[a], ts[b]);
    }
  }

  /** t is dispatched and its test in main comes before test r at position n. */
  predicate CreatedBefore(t: Task, n: int, r: int) {
    Dispatched(t) && (Pos(t) < n || (Pos(t) == n && Rank(t.kind) < r))
  }

  /** Two board positions in main's walk are equal only for the same cell. */
  lemma PosInjective(t: Task, u: Task)
    requires 0 <= t.col < 9 && 0 <= u.col < 9 && Pos(t) == Pos(u)
    ensures t.row == u.row && t.col == u.col
  {
  }

  /**
    Test u of main comes right after the tests before it: the descriptors
    created before the next test are those created before u, plus u itself
    when it is dispatched.
   */
  lemma NextTest(u: Task, r: int)
    requires 0 <= u.row < 9 && 0 <= u.col < 9 && r == Rank(u.kind) + 1
    ensures forall t :: CreatedBefore(t, Pos(u), r) <==> CreatedBefore(t, Pos(u), Rank(u.kind)) || (Dispatched(u) && t == u)
  {
    forall t | CreatedBefore(t, Pos(u), r) && !CreatedBefore(t, Pos(u), Rank(u.kind)) ensures t == u {
      PosInjective(t, u);
    }
  }

  /** Appending a descriptor created after all listed ones keeps the creation order. */
  lemma AppendInOrder(pre: seq<Task>, u: Task)
    requires InCreationOrder(pre) && forall t :: t in pre ==> Before(t, u)
    ensures InCreationOrder(pre + [u])
  {
    var post := pre + [u];
    forall a, b | 0 <= a < b < |post| ensures Before(post[a], post[b]) {
      if b == |pre| {
        assert post[a] in pre;
      } else {
        assert post[a] == pre[a] && post[b] == pre[b];
      }
    }
  }

  /**
    One of main's three tests that holds, for descriptor u: there is room
    for it (threadIndex is still below numThreads), and appending it keeps
    the listing in creation order and complete up to the next test.
   */
  lemma CreateStep(pre: seq<Task>, u: Task, r: int)
    requires 0 <= u.row < 9 && 0 <= u.col < 9 && r == Rank(u.kind) + 1 && Dispatched(u)
    requires forall t :: t in pre <==> CreatedBefore(t, Pos(u), Rank(u.kind))
    requires InCreationOrder(pre)
    ensures |pre| < NumThreads
    ensures forall t :: t in pre + [u] <==> CreatedBefore(t, Pos(u), r)
    ensures InCreationOrder(pre + [u])
  {
    NextTest(u, r);
    AppendInOrder(pre, u);
    assert forall t :: t in pre + [u] ==> Dispatched(t);
    CreationOrderDistinct(pre + [u]);
    ListingBound(pre + [u]);
  }

  /**
    The slot mapping: blocks use slots 0..8, rows 9..17, columns 18..26,
    and no two descriptors share one.
   */
  lemma SlotRanges(t: Task)
    requires Dispatched(t)
    ensures t.kind == BlockTask ==> 0 <= Slot(t) < 9
    ensures t.kind == RowTask ==> 9 <= Slot(t) < 18
    ensures t.kind == ColumnTask ==> 18 <= Slot(t) < 27
  {
  }

  lemma SlotInjective(t1: Task, t2: Task)
    requires Dispatched(t1) && Dispatched(t2) && Slot(t1) == Slot(t2)
    ensures t1 == t2
  {
    SlotRanges(t1);
    SlotRanges(t2);
    if t1.kind == BlockTask && t2.kind == BlockTask {
      assert t1.row / 3 * 3 == t1.row && t2.row / 3 * 3 == t2.row;
      assert t1.col / 3 * 3 == t1.col && t2.col / 3 * 3 == t2.col;
    }
  }

  /** Every slot 0..26 belongs to a dispatched descriptor. */
  function TaskForSlot(k: int): (t: Task)
    requires 0 <= k < NumThreads
    ensures Dispatched(t) && Slot(t) == k
  {
    if k < 9 then Task(BlockTask, 3 * (k / 3), 3 * (k % 3))
    else if k < 18 then Task(RowTask, k - 9, 0)
    else Task(ColumnTask, 0, k - 18)
  }

  /** The sequence 0, 1, ..., n - 1. */
  function Indices(n: nat): seq<int>
  {
    seq(n, i => i)
  }

  /** The integers 0 .. n - 1. */
  function Span(n: nat): set<int> {
    set k | k in Indices(n)
  }

  lemma SpanMembers(n: nat)
    ensures forall k :: k in Span(n) <==> 0 <= k < n
  {
    forall k | 0 <= k < n ensures k in Span(n) {
      assert Indices(n)[k] == k;
    }
  }

  lemma {:induction false} SpanSize(n: nat)
    ensures |Span(n)| == n && forall k :: k in Span(n) <==> 0 <= k < n
  {
    SpanMembers(n);
    if n > 0 {
      SpanSize(n - 1);
      assert Span(n) == Span(n - 1) + {n - 1};
    }
  }

  /** The slots of the descriptors ts, in order. */
  function Slots(ts: seq<Task>): seq<int>
  {
    seq(|ts|, a requires 0 <= a < |ts| => Slot(ts[a]))
  }

  /** Dispatched descriptors listed without repeats have slots without repeats. */
  lemma SlotsDistinct(ts: seq<Task>)
    requires Distinct(ts) && forall t :: t in ts ==> Dispatched(t)
    ensures Distinct(Slots(ts))
  {
    forall a, b | 0 <= a < b < |ts| ensures Slots(ts)[a] != Slots(ts)[b] {
      if Slot(ts[a]) == Slot(ts[b]) {
        SlotInjective(ts[a], ts[b]);
      }
    }
  }

  /** At most 27 distinct descriptors can be dispatched, one per slot. */
  lemma ListingBound(ts: seq<Task>)
    requires Distinct(ts) && forall t :: t in ts ==> Dispatched(t)
    ensures |ts| <= NumThreads
  {
    SlotsDistinct(ts);
    SpanSize(NumThreads);
    forall k | k in Slots(ts) ensures k in Span(NumThreads) {
      var a :| 0 <= a < |ts| && Slots(ts)[a] == k;
      SlotRanges(ts[a]);
    }
    DistinctBound(Slots(ts), Span(NumThreads));
    SpanSize(NumThreads);
  }

  /** A listing of all dispatched descriptors without repeats has exactly 27 entries. */
  lemma ListingLength(ts: seq<Task>)
    requires Distinct(ts) && forall t :: t in ts <==> Dispatched(t)
    ensures |ts| == NumThreads
  {
    ListingBound(ts);
    SpanSize(NumThreads);
    forall k | k in Span(NumThreads) ensures k in Slots(ts) {
      var t := TaskForSlot(k);
      var a :| 0 <= a < |ts| && ts[a] == t;
      assert Slots(ts)[a] == k;
    }
    CoverBound(Slots(ts), Span(NumThreads));
    SpanSize(NumThreads);
  }

  /** The entries of ts of kind k, in order. */
  function OfKind(ts: seq<Task>, k: Kind): (r: seq<Task>)
    ensures forall t :: t in r <==> t in ts && t.kind == k
  {
    if ts == [] then []
    else
      var init, last := ts[..|ts| - 1], ts[|ts| - 1];
      assert ts == init + [last];
      OfKind(init, k) + (if last.kind == k then [last] else [])
  }

  lemma {:induction false} OfKindDistinct(ts: seq<Task>, k: Kind)
    requires Distinct(ts)
    ensures Distinct(OfKind(ts, k))
  {
    if ts != [] {
      var init, last := ts[..|ts| - 1], ts[|ts| - 1];
      assert ts == init + [last];
      forall a, b | 0 <= a < b < |init| ensures init[a] != init[b] {
        assert init[a] == ts[a] && init[b] == ts[b];
      }
      OfKindDistinct(init, k);
      forall x | x in OfKind(init, k) ensures x !in [last] {
        var a :| 0 <= a < |init| && init[a] == x;
        assert ts[a] == x;
      }
      DistinctConcat(OfKind(init, k), if last.kind == k then [last] else []);
    }
  }

  /**
    Where a descriptor sits among those of its kind: the block's slot, the
    row's index or the column's index.
   */
  function Offset(t: Task): int {
    match t.kind
    case BlockTask => Slot(t)
    case RowTask => t.row
    case ColumnTask => t.col
  }

  /** The dispatched descriptor of kind k at offset o. */
  function TaskAt(k: Kind, o: int): (t: Task)
    requires 0 <= o < 9
    ensures Dispatched(t) && t.kind == k && Offset(t) == o
  {
    match k
    case BlockTask => TaskForSlot(o)
    case RowTask => Task(RowTask, o, 0)
    case ColumnTask => Task(ColumnTask, 0, o)
  }

  /** Among dispatched descriptors of one kind, the offsets 0..8 are a bijection. */
  lemma OffsetInjective(t1: Task, t2: Task)
    requires Dispatched(t1) && Dispatched(t2) && t1.kind == t2.kind && Offset(t1) == Offset(t2)
    ensures t1 == t2 && 0 <= Offset(t1) < 9
  {
    SlotRanges(t1);
    if t1.kind == BlockTask {
      SlotInjective(t1, t2);
    }
  }

  /**
    A listing of all dispatched descriptors holds exactly 9 of each kind:
    9 blocks, 9 columns and 9 rows.
   */
  lemma KindCount(ts: seq<Task>, k: Kind)
    requires Distinct(ts) && forall t :: t in ts <==> Dispatched(t)
    ensures |OfKind(ts, k)| == 9
  {
    var r := OfKind(ts, k);
    OfKindDistinct(ts, k);
    var offs := seq(|r|, a requires 0 <= a < |r| => Offset(r[a]));
    forall a, b | 0 <= a < b < |r| ensures offs[a] != offs[b] {
      if offs[a] == offs[b] {
        OffsetInjective(r[a], r[b]);
      }
    }
    SpanSize(9);
    forall o | o in offs ensures o in Span(9) {
      var a :| 0 <= a < |r| && offs[a] == o;
      OffsetInjective(r[a], r[a]);
    }
    DistinctBound(offs, Span(9));
    forall o | o in Span(9) ensures o in offs {
      var t := TaskAt(k, o);
      var a :| 0 <= a < |r| && r[a] == t;
      assert offs[a] == o;
    }
    CoverBound(offs, Span(9));
  }

  /** Every descriptor in ts meets what its routine needs of its caller. */
  predicate AllSafe(v: Version, ts: seq<Task>) {
    forall t :: t in ts ==> Safe(v, t)
  }

  /** The contents of `valid` after the workers ts have run one after another, in order. */
  function Apply(v: Version, b: seq<seq<int>>, ts: seq<Task>, s: seq<int>): (r: seq<int>)
    requires IsGrid(b) && AllSafe(v, ts) && |s| == NumThreads
    ensures |r| == NumThreads
  {
    if ts == [] then s
    else
      var init := ts[..|ts| - 1];
      assert forall t :: t in init ==> t in ts;
      Effect(v, b, ts[|ts| - 1], Apply(v, b, init, s))
  }

  /** Some worker among ts writes slot k. */
  predicate Written(v: Version, b: seq<seq<int>>, ts: seq<Task>, k: int)
    requires IsGrid(b) && AllSafe(v, ts)
  {
    exists t :: t in ts && Writes(v, b, t) && Slot(t) == k
  }

  /** Slot k ends at 1 if some worker writes it and keeps its old value otherwise. */
  lemma {:induction false} ApplyAt(v: Version, b: seq<seq<int>>, ts: seq<Task>, s: seq<int>, k: int)
    requires IsGrid(b) && AllSafe(v, ts) && |s| == NumThreads && 0 <= k < NumThreads
    ensures Apply(v, b, ts, s)[k] == if Written(v, b, ts, k) then 1 else s[k]
  {
    if ts != [] {
      var init, last := ts[..|ts| - 1], ts[|ts| - 1];
      assert ts == init + [last];
      assert forall t :: t in init ==> t in ts;
      ApplyAt(v, b, init, s, k);
      assert Written(v, b, ts, k) <==> Written(v, b, init, k) || (Writes(v, b, last) && Slot(last) == k);
    }
  }

  /**
    The final `valid` depends only on which workers ran, not on their
    order: any schedule of the same threads gives the same array.
   */
  lemma ApplyOrderIrrelevant(v: Version, b: seq<seq<int>>, ts: seq<Task>, us: seq<Task>, s: seq<int>)
    requires IsGrid(b) && AllSafe(v, ts) && |s| == NumThreads
    requires forall t :: t in ts <==> t in us
    ensures AllSafe(v, us) && Apply(v, b, ts, s) == Apply(v, b, us, s)
  {
    var r1, r2 := Apply(v, b, ts, s), Apply(v, b, us, s);
    forall k | 0 <= k < NumThreads ensures r1[k] == r2[k] {
      ApplyAt(v, b, ts, s, k);
      ApplyAt(v, b, us, s, k);
      assert Written(v, b, ts, k) <==> Written(v, b, us, k);
    }
  }

  /** Every region's worker gets past its guard and accepts its cells. */
  ghost predicate AllRegionsPass(v: Version, b: seq<seq<int>>)
    requires IsGrid(b)
  {
    forall t :: Dispatched(t) ==> Writes(v, b, t)
  }

  /** The contents of `valid` before any worker runs: it is a zero-initialised global. */
  function Zeros(): seq<int>
  {
    seq(NumThreads, _ => 0)
  }

  /** No slot of `valid` holds 0. */
  predicate AllSet(s: seq<int>) {
    forall k :: 0 <= k < |s| ==> s[k] != 0
  }

  /** After all 27 workers, every slot of a zeroed `valid` is set exactly when every region passes. */
  lemma FinalSlots(v: Version, b: seq<seq<int>>, ts: seq<Task>)
    requires IsGrid(b) && forall t :: t in ts <==> Dispatched(t)
    ensures AllSafe(v, ts)
    ensures AllSet(Apply(v, b, ts, Zeros())) <==> AllRegionsPass(v, b)
  {
    var zero := Zeros();
    var r := Apply(v, b, ts, zero);
    if AllSet(r) {
      forall t | Dispatched(t) ensures Writes(v, b, t) {
        var k := Slot(t);
        SlotRanges(t);
        ApplyAt(v, b, ts, zero, k);
        var u :| u in ts && Writes(v, b, u) && Slot(u) == k;
        SlotInjective(t, u);
      }
      assert AllRegionsPass(v, b);
    }
    if AllRegionsPass(v, b) {
      forall k | 0 <= k < NumThreads ensures r[k] != 0 {
        var t := TaskForSlot(k);
        ApplyAt(v, b, ts, zero, k);
        assert t in ts && Writes(v, b, t);
      }
    }
  }

  /**
    The reduction loop of main: the verdict is "valid" exactly when no
    slot of `valid` is 0, and it stops at the first slot that is.
   */
  method AllSlotsSet(valid: array<int>) returns (ok: bool)
    requires valid.Length == NumThreads
    ensures ok <==> AllSet(valid[..])
  {
    for i := 0 to NumThreads
      invariant forall k :: 0 <= k < i ==> valid[k] != 0
    {
      if valid[i] == 0 {
        return false;
      }
    }
    return true;
  }

  /**
    The state of main's dispatch loop before test r at position n: the
    descriptors ts stored so far are exactly those created before it, in
    creation order, and s, the contents of `valid`, is what their workers
    made of the initial contents s0.
   */
  ghost predicate Progress(v: Version, board: seq<seq<int>>, ts: seq<Task>, n: int, r: int, s: seq<int>, s0: seq<int>)
    requires IsGrid(board) && |s0| == NumThreads
  {
    && (forall t :: t in ts <==> CreatedBefore(t, n, r))
    && InCreationOrder(ts)
    && AllSafe(v, ts)
    && s == Apply(v, board, ts, s0)
  }

  /** A test of main that fails creates nothing, and the walk moves on to the next test. */
  lemma Skip(v: Version, board: seq<seq<int>>, ts: seq<Task>, u: Task, r: int, s: seq<int>, s0: seq<int>)
    requires IsGrid(board) && |s0| == NumThreads
    requires 0 <= u.row < 9 && 0 <= u.col < 9 && r == Rank(u.kind) + 1 && !Dispatched(u)
    requires Progress(v, board, ts, Pos(u), Rank(u.kind), s, s0)
    ensures Progress(v, board, ts, Pos(u), r, s, s0)
  {
    NextTest(u, r);
  }

  /** After the three tests at position n, the walk goes on at position n + 1. */
  lemma NextPosition(v: Version, board: seq<seq<int>>, ts: seq<Task>, n: int, m: int, s: seq<int>, s0: seq<int>)
    requires IsGrid(board) && |s0| == NumThreads && m == n + 1
    requires Progress(v, board, ts, n, 3, s, s0)
    ensures Progress(v, board, ts, m, 0, s, s0)
  {
    assert forall t :: CreatedBefore(t, n, 3) <==> CreatedBefore(t, m, 0);
  }

  /**
    `pthread_create(&threads[threadIndex++], ...)` for a test of main that
    holds: descriptor u is stored at threadIndex, which is still below
    numThreads, and its start routine, chosen by its kind, runs to
    completion.
   */
  method Start(v: Version, board: seq<seq<int>>, valid: array<int>, threads: array<Task>, threadIndex: int, u: Task, r: int, ghost valid0: seq<int>)
    returns (next: int)
    requires IsGrid(board) && valid.Length == NumThreads && threads.Length == NumThreads && |valid0| == NumThreads
    requires 0 <= u.row < 9 && 0 <= u.col < 9 && r == Rank(u.kind) + 1 && Dispatched(u)
    requires 0 <= threadIndex <= NumThreads
    requires Progress(v, board, threads[..threadIndex], Pos(u), Rank(u.kind), valid[..], valid0)
    modifies valid, threads
    ensures threadIndex < NumThreads && next == threadIndex + 1
    ensures threads[..next] == old(threads[..threadIndex]) + [u]
    ensures Progress(v, board, threads[..next], Pos(u), r, valid[..], valid0)
  {
    ghost var pre := threads[..threadIndex];
    CreateStep(pre, u, r);
    threads[threadIndex] := u;
    next := threadIndex + 1;
    assert threads[..next] == pre + [u];
    assert (pre + [u])[..next - 1] == pre;
    match u.kind
    case BlockTask => ThreeBlock(v, board, valid, u.row, u.col);
    case ColumnTask => ValidColumn(v, board, valid, u.row, u.col);
    case RowTask => ValidRow(v, board, valid, u.row, u.col);
  }

  /**
    One of main's three tests at a position: when the condition `holds`
    (exactly when u is a dispatched descriptor) the worker for u starts.
   */
  method Test(v: Version, board: seq<seq<int>>, valid: array<int>, threads: array<Task>, threadIndex: int, u: Task, r: int, holds: bool, ghost valid0: seq<int>)
    returns (next: int)
    requires IsGrid(board) && valid.Length == NumThreads && threads.Length == NumThreads && |valid0| == NumThreads
    requires 0 <= u.row < 9 && 0 <= u.col < 9 && r == Rank(u.kind) + 1 && (holds <==> Dispatched(u))
    requires 0 <= threadIndex <= NumThreads
    requires Progress(v, board, threads[..threadIndex], Pos(u), Rank(u.kind), valid[..], valid0)
    modifies valid, threads
    ensures 0 <= next <= NumThreads
    ensures Progress(v, board, threads[..next], Pos(u), r, valid[..], valid0)
  {
    if holds {
      next := Start(v, board, valid, threads, threadIndex, u, r, valid0);
    } else {
      Skip(v, board, threads[..threadIndex], u, r, valid[..], valid0);
      next := threadIndex;
    }
  }

  /**
    The body of main's dispatch loop at position (i, j): the block test,
    the column test and the row test, each starting its worker when it
    holds.
   */
  method Visit(v: Version, board: seq<seq<int>>, valid: array<int>, threads: array<Task>, threadIndex: int, i: int, j: int, ghost valid0: seq<int>)
    returns (next: int)
    requires IsGrid(board) && valid.Length == NumThreads && threads.Length == NumThreads && |valid0| == NumThreads
    requires 0 <= i < 9 && 0 <= j < 9 && 0 <= threadIndex <= NumThreads
    requires Progress(v, board, threads[..threadIndex], 9 * i + j, 0, valid[..], valid0)
    modifies valid, threads
    ensures 0 <= next <= NumThreads
    ensures Progress(v, board, threads[..next], 9 * i + j + 1, 0, valid[..], valid0)
  {
    next := Test(v, board, valid, threads, threadIndex, Task(BlockTask, i, j), 1, i % 3 == 0 && j % 3 == 0, valid0);
    next := Test(v, board, valid, threads, next, Task(ColumnTask, i, j), 2, i == 0, valid0);
    next := Test(v, board, valid, threads, next, Task(RowTask, i, j), 3, j == 0, valid0);
    NextPosition(v, board, threads[..next], 9 * i + j, 9 * i + j + 1, valid[..], valid0);
  }

  /**
    The dispatch loop of main: it visits the 81 positions row by row,
    recording each descriptor at threads[threadIndex++]. threadIndex stays
    below numThreads at every store and ends at it; the threads hold every
    dispatched descriptor once, in creation order, and `valid` holds the
    effect of running their workers.
   */
  method Dispatch(v: Version, board: seq<seq<int>>, valid: array<int>) returns (threads: array<Task>, threadIndex: int)
    requires IsGrid(board) && valid.Length == NumThreads
    modifies valid
    ensures fresh(threads) && threads.Length == NumThreads && threadIndex == NumThreads
    ensures forall t :: t in threads[..] <==> Dispatched(t)
    ensures InCreationOrder(threads[..])
    ensures AllSafe(v, threads[..])
    ensures valid[..] == Apply(v, board, threads[..], old(valid[..]))
    ensures forall k :: |OfKind(threads[..], k)| == 9
  {
    threads := new Task[NumThreads](_ => Task(RowTask, 0, 0));
    threadIndex := 0;
    ghost var valid0 := valid[..];
    for i := 0 to 9
      invariant 0 <= threadIndex <= NumThreads
      invariant Progress(v, board, threads[..threadIndex], 9 * i, 0, valid[..], valid0)
    {
      for j := 0 to 9
        invariant 0 <= threadIndex <= NumThreads
        invariant Progress(v, board, threads[..threadIndex], 9 * i + j, 0, valid[..], valid0)
      {
        threadIndex := Visit(v, board, valid, threads, threadIndex, i, j, valid0);
      }
    }
    assert forall t :: CreatedBefore(t, 81, 0) <==> Dispatched(t);
    CreationOrderDistinct(threads[..threadIndex]);
    ListingLength(threads[..threadIndex]);
    assert threads[..] == threads[..threadIndex];
    forall k ensures |OfKind(threads[..], k)| == 9 {
      KindCount(threads[..], k);
    }
  }

  /**
    The whole program on a board: `valid` starts all zero, the 27 workers
    run, and the reduction gives the verdict. The verdict is true exactly
    when every region passes its worker; as written that never happens, and
    with the intended guards and block scan it happens exactly when every
    row, column and 3x3 block is a permutation of 1..9.
   */
  method Run(v: Version, board: seq<seq<int>>) returns (verdict: bool)
    requires IsGrid(board)
    ensures verdict <==> AllRegionsPass(v, board)
    ensures v == AsWritten ==> !verdict
    ensures v == Intended ==> (verdict <==> BoardSolved(board))
  {
    var valid := new int[NumThreads](_ => 0);
    assert valid[..] == Zeros();
    var threads, threadIndex := Dispatch(v, board, valid);
    // pthread_join: every worker has already run to completion here.
    FinalSlots(v, board, threads[..]);
    verdict := AllSlotsSet(valid);
    AsWrittenNeverPasses(board);
    IntendedPassesIffSolved(board);
  }

  /** The 3x3 block (br, bc) of a board, row by row. */
  function Box(b: seq<seq<int>>, br: int, bc: int): seq<int>
    requires IsGrid(b) && 0 <= br < 3 && 0 <= bc < 3
  {
    b[3 * br][3 * bc..3 * bc + 3] + b[3 * br + 1][3 * bc..3 * bc + 3] + b[3 * br + 2][3 * bc..3 * bc + 3]
  }

  /** A solved board: every row, column and 3x3 block holds each digit 1..9 once. */
  predicate BoardSolved(b: seq<seq<int>>)
    requires IsGrid(b)
  {
    && (forall r :: 0 <= r < 9 ==> IsDigitPermutation(b[r]))
    && (forall c :: 0 <= c < 9 ==> IsDigitPermutation(ColumnCells(b, c)))
    && (forall br, bc :: 0 <= br < 3 && 0 <= bc < 3 ==> IsDigitPermutation(Box(b, br, bc)))
  }

  /** The intended block scan reads exactly the cells of the block. */
  lemma BlockScanIsBox(b: seq<seq<int>>, br: int, bc: int)
    requires IsGrid(b) && 0 <= br < 3 && 0 <= bc < 3
    ensures BlockScanCells(b, 3 * br, 3 * br, 3 * bc) == Box(b, br, bc)
  {
    var s, x := BlockScanCells(b, 3 * br, 3 * br, 3 * bc), Box(b, br, bc);
    forall k | 0 <= k < 9 ensures s[k] == x[k] {
      BlockScanAt(b, 3 * br, 3 * br, 3 * bc, 3 * br + k / 3, 3 * bc + k % 3);
    }
  }

  /** The corner of block (br, bc) is the position of a block descriptor main dispatches. */
  lemma BlockCorner(br: int, bc: int)
    requires 0 <= br < 3 && 0 <= bc < 3
    ensures Dispatched(Task(BlockTask, 3 * br, 3 * bc))
  {
    assert br == 0 || br == 1 || br == 2;
    assert bc == 0 || bc == 1 || bc == 2;
  }

  /**
    validRow's guard on the coordinates main passes (0..8): as written it
    lets through only (0, 0); the intended guard lets through every (i, 0).
   */
  lemma RowGuardAccepts(row: int, col: int)
    requires 0 <= row < 9 && 0 <= col < 9
    ensures Passes(AsWritten, Task(RowTask, row, col)) <==> row == 0 && col == 0
    ensures Passes(Intended, Task(RowTask, row, col)) <==> col == 0
  {
  }

  /**
    validColumn's guard on the coordinates main passes: as written it lets
    through only (0, 0); the intended guard lets through every (0, j).
   */
  lemma ColumnGuardAccepts(row: int, col: int)
    requires 0 <= row < 9 && 0 <= col < 9
    ensures Passes(AsWritten, Task(ColumnTask, row, col)) <==> row == 0 && col == 0
    ensures Passes(Intended, Task(ColumnTask, row, col)) <==> row == 0
  {
  }

  /** threeBlock's guard on the coordinates main passes accepts exactly rows and columns 0, 3 and 6. */
  lemma BlockGuardAccepts(row: int, col: int)
    requires 0 <= row < 9 && 0 <= col < 9
    ensures Passes(AsWritten, Task(BlockTask, row, col)) <==> row in {0, 3, 6} && col in {0, 3, 6}
    ensures Passes(Intended, Task(BlockTask, row, col)) <==> Passes(AsWritten, Task(BlockTask, row, col))
  {
  }

  /** Under the intended guards every descriptor main creates gets past its guard. */
  lemma IntendedGuardsPass(t: Task)
    requires Dispatched(t)
    ensures Passes(Intended, t)
  {
  }

  /**
    As written, threeBlock scans rows 0 .. row + 2, so the blocks at rows 3
    and 6 read 18 and 27 cells; nine digits cannot fill them without a
    repeat, and those blocks never write.
   */
  lemma AsWrittenLowerBlocksFail(b: seq<seq<int>>, t: Task)
    requires IsGrid(b) && Dispatched(t) && t.kind == BlockTask && t.row >= 3
    ensures !Writes(AsWritten, b, t)
  {
    LongRejected(Cells(AsWritten, b, t));
  }

  /**
    As written, the only slots of `valid` that can become non-zero, on any
    board, are 0, 1 and 2 (the top blocks), 9 (row 0) and 18 (column 0).
   */
  lemma AsWrittenReachableSlots(b: seq<seq<int>>, ts: seq<Task>, k: int)
    requires IsGrid(b) && (forall t :: t in ts <==> Dispatched(t)) && 0 <= k < NumThreads
    ensures AllSafe(AsWritten, ts)
    ensures Apply(AsWritten, b, ts, Zeros())[k] != 0 ==> k in {0, 1, 2, 9, 18}
  {
    ApplyAt(AsWritten, b, ts, Zeros(), k);
    if Written(AsWritten, b, ts, k) {
      var u :| u in ts && Writes(AsWritten, b, u) && Slot(u) == k;
      match u.kind
      case RowTask => RowGuardAccepts(u.row, u.col);
      case ColumnTask => ColumnGuardAccepts(u.row, u.col);
      case BlockTask =>
        BlockGuardAccepts(u.row, u.col);
        if u.row >= 3 {
          AsWrittenLowerBlocksFail(b, u);
        }
    }
  }

  /**
    A cell outside 1..9 makes the scans of its row and its column exit
    early, so on such a board some region fails in either version.
   */
  lemma OutOfRangeCellFails(v: Version, b: seq<seq<int>>, r: int, c: int)
    requires IsGrid(b) && 0 <= r < 9 && 0 <= c < 9 && !InRange(b[r][c])
    ensures !Writes(v, b, Task(RowTask, r, 0)) && !Writes(v, b, Task(ColumnTask, 0, c))
    ensures !AllRegionsPass(v, b)
  {
    assert b[r][c] in b[r];
    assert ColumnCells(b, c)[r] == b[r][c];
    assert Dispatched(Task(RowTask, r, 0));
  }

  /**
    As written, validRow's guard `row > 0` turns away the descriptor (1, 0),
    so slot 10 is never set and the verdict is "not valid" on every board.
   */
  lemma AsWrittenNeverPasses(b: seq<seq<int>>)
    requires IsGrid(b)
    ensures !AllRegionsPass(AsWritten, b)
  {
    var t := Task(RowTask, 1, 0);
    assert Dispatched(t) && !Writes(AsWritten, b, t);
  }

  /** Every row worker writes. */
  predicate RowsPass(v: Version, b: seq<seq<int>>)
    requires IsGrid(b)
  {
    forall r :: 0 <= r < 9 ==> Writes(v, b, Task(RowTask, r, 0))
  }

  /** Every column worker writes. */
  predicate ColumnsPass(v: Version, b: seq<seq<int>>)
    requires IsGrid(b)
  {
    forall c :: 0 <= c < 9 ==> Writes(v, b, Task(ColumnTask, 0, c))
  }

  /** Every block worker writes. */
  predicate BlocksPass(v: Version, b: seq<seq<int>>)
    requires IsGrid(b)
  {
    forall br, bc :: 0 <= br < 3 && 0 <= bc < 3 ==> Writes(v, b, Task(BlockTask, 3 * br, 3 * bc))
  }

  /** Every region passes exactly when every row, every column and every block worker writes. */
  lemma RegionsByKind(v: Version, b: seq<seq<int>>)
    requires IsGrid(b)
    ensures AllRegionsPass(v, b) <==> RowsPass(v, b) && ColumnsPass(v, b) && BlocksPass(v, b)
  {
    if RowsPass(v, b) && ColumnsPass(v, b) && BlocksPass(v, b) {
      forall t | Dispatched(t) ensures Writes(v, b, t) {
        if t.kind == BlockTask {
          assert t == Task(BlockTask, 3 * (t.row / 3), 3 * (t.col / 3));
        } else if t.kind == RowTask {
          assert t == Task(RowTask, t.row, 0);
        } else {
          assert t == Task(ColumnTask, 0, t.col);
        }
      }
    }
    if AllRegionsPass(v, b) {
      forall r | 0 <= r < 9 ensures Writes(v, b, Task(RowTask, r, 0)) {
        assert Dispatched(Task(RowTask, r, 0));
      }
      forall c | 0 <= c < 9 ensures Writes(v, b, Task(ColumnTask, 0, c)) {
        assert Dispatched(Task(ColumnTask, 0, c));
      }
      forall br, bc | 0 <= br < 3 && 0 <= bc < 3 ensures Writes(v, b, Task(BlockTask, 3 * br, 3 * bc)) {
        BlockCorner(br, bc);
      }
    }
  }

  /** Intended, the row workers all write exactly when every row is a permutation of 1..9. */
  lemma IntendedRows(b: seq<seq<int>>)
    requires IsGrid(b)
    ensures RowsPass(Intended, b) <==> forall r :: 0 <= r < 9 ==> IsDigitPermutation(b[r])
  {
    forall r | 0 <= r < 9 ensures Writes(Intended, b, Task(RowTask, r, 0)) <==> IsDigitPermutation(b[r]) {
      ScanIsPermutation(b[r]);
    }
  }

  /** Intended, the column workers all write exactly when every column is a permutation of 1..9. */
  lemma IntendedColumns(b: seq<seq<int>>)
    requires IsGrid(b)
    ensures ColumnsPass(Intended, b) <==> forall c :: 0 <= c < 9 ==> IsDigitPermutation(ColumnCells(b, c))
  {
    forall c | 0 <= c < 9 ensures Writes(Intended, b, Task(ColumnTask, 0, c)) <==> IsDigitPermutation(ColumnCells(b, c)) {
      ScanIsPermutation(ColumnCells(b, c));
    }
  }

  /** Intended, the worker of block (br, bc) writes exactly when the block is a permutation of 1..9. */
  lemma IntendedBlock(b: seq<seq<int>>, br: int, bc: int)
    requires IsGrid(b) && 0 <= br < 3 && 0 <= bc < 3
    ensures Writes(Intended, b, Task(BlockTask, 3 * br, 3 * bc)) <==> IsDigitPermutation(Box(b, br, bc))
  {
    BlockCorner(br, bc);
    BlockScanIsBox(b, br, bc);
    ScanIsPermutation(Box(b, br, bc));
  }

  /** Intended, the block workers all write exactly when every 3x3 block is a permutation of 1..9. */
  lemma IntendedBlocks(b: seq<seq<int>>)
    requires IsGrid(b)
    ensures BlocksPass(Intended, b) <==> forall br, bc :: 0 <= br < 3 && 0 <= bc < 3 ==> IsDigitPermutation(Box(b, br, bc))
  {
    forall br, bc | 0 <= br < 3 && 0 <= bc < 3
      ensures Writes(Intended, b, Task(BlockTask, 3 * br, 3 * bc)) <==> IsDigitPermutation(Box(b, br, bc))
    {
      IntendedBlock(b, br, bc);
    }
  }

  /**
    With the guards `row > 8` and `col > 8` and the block scan starting at
    `row`, every region passes exactly when the board is solved.
   */
  lemma IntendedPassesIffSolved(b: seq<seq<int>>)
    requires IsGrid(b)
    ensures AllRegionsPass(Intended, b) <==> BoardSolved(b)
  {
    RegionsByKind(Intended, b);
    IntendedRows(b);
    IntendedColumns(b);
    IntendedBlocks(b);
  }
}
