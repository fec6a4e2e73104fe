/**
  Digit-level facts behind the region scans of validSudoku.c: what a scan
  accepts, what its 9-slot "seen" array holds, and why nine accepted cells
  are exactly the digits 1..9.
 */
module Digits {

  /** A cell value a scan accepts: 1..9. */
  predicate InRange(v: int) {
    1 <= v <= 9
  }

  /** The nine Sudoku digits. */
  const DigitSet: set<int> := {1, 2, 3, 4, 5, 6, 7, 8, 9}

  lemma DigitSetFacts()
    ensures |DigitSet| == 9
    ensures forall v :: v in DigitSet <==> InRange(v)
  {
  }

  /** No element occurs twice. */
  predicate Distinct<T(==)>(s: seq<T>) {
    forall i, j :: 0 <= i < j < |s| ==> s[i] != s[j]
  }

  /** What a region scan lets through: every value is a digit and none repeats. */
  predicate Acceptable(s: seq<int>) {
    (forall x :: x in s ==> InRange(x)) && Distinct(s)
  }

  /** The region holds each digit 1..9 exactly once. */
  predicate IsDigitPermutation(s: seq<int>) {
    |s| == 9 && (forall x :: x in s ==> InRange(x)) && (forall v :: 1 <= v <= 9 ==> v in s)
  }

  /**
    The seen array of a scan after it has accepted the values of s:
    slot d holds 1 when digit d + 1 is among them and 0 otherwise.
   */
  function Marks(s: seq<int>): seq<int>
  {
    seq(9, d => if d + 1 in s then 1 else 0)
  }

  /** The empty scan leaves the seen array as it was initialised, all zero. */
  lemma MarksEmpty()
    ensures Marks([]) == seq(9, _ => 0)
  {
  }

  /**
    One step of a scan. With the seen array equal to Marks(prefix), the
    test `seen[num - 1] == 1` is reached only for a digit and then says
    exactly whether num was seen before; the scan goes on precisely when
    prefix + [num] is still acceptable, and marking slot num - 1 gives the
    seen array of the longer prefix.
   */
  lemma ScanStep(prefix: seq<int>, num: int)
    requires Acceptable(prefix)
    ensures InRange(num) ==> (Marks(prefix)[num - 1] == 1 <==> num in prefix)
    ensures Acceptable(prefix + [num]) <==> InRange(num) && num !in prefix
    ensures InRange(num) && num !in prefix ==> Marks(prefix + [num]) == Marks(prefix)[num - 1 := 1]
  {
    var s := prefix + [num];
    if InRange(num) && num !in prefix {
      forall i, j | 0 <= i < j < |s| ensures s[i] != s[j] {
        if j == |prefix| {
          assert s[i] in prefix;
        } else {
          assert s[i] == prefix[i] && s[j] == prefix[j];
        }
      }
      forall d | 0 <= d < 9 ensures Marks(s)[d] == Marks(prefix)[num - 1 := 1][d] {
        assert d + 1 in s <==> d + 1 in prefix || d + 1 == num;
      }
    }
    if Acceptable(s) {
      assert num == s[|prefix|] && InRange(num);
      forall k | 0 <= k < |prefix| ensures prefix[k] != num {
        assert s[k] == prefix[k];
      }
    }
  }

  /** A scan that rejects a prefix rejects the whole region. */
  lemma AcceptablePrefix(s: seq<int>, k: nat)
    requires k <= |s| && Acceptable(s)
    ensures Acceptable(s[..k])
  {
    forall x | x in s[..k] ensures x in s {
      var i :| 0 <= i < k && s[..k][i] == x;
      assert s[i] == x;
    }
  }

  /** The same fact read the other way: once a prefix is rejected, so is the region. */
  lemma RejectedPrefix(s: seq<int>, k: nat)
    requires k <= |s| && !Acceptable(s[..k])
    ensures !Acceptable(s)
  {
    if Acceptable(s) {
      AcceptablePrefix(s, k);
      assert false;
    }
  }

  /** Removing a leading element keeps a sequence duplicate-free. */
  lemma DistinctTail<T>(s: seq<T>)
    requires s != [] && Distinct(s)
    ensures Distinct(s[1..]) && s[0] !in s[1..]
  {
    forall i, j | 0 <= i < j < |s| - 1 ensures s[1..][i] != s[1..][j] {
      assert s[1..][i] == s[i + 1] && s[1..][j] == s[j + 1];
    }
  }

  /** Two duplicate-free sequences with no element in common concatenate to a duplicate-free one. */
  lemma DistinctConcat<T>(a: seq<T>, b: seq<T>)
    requires Distinct(a) && Distinct(b)
    requires forall x :: x in a ==> x !in b
    ensures Distinct(a + b)
  {
    var s := a + b;
    forall i, j | 0 <= i < j < |s| ensures s[i] != s[j] {
      if j < |a| {
        assert s[i] == a[i] && s[j] == a[j];
      } else if i < |a| {
        assert s[i] == a[i] && s[j] == b[j - |a|];
        assert s[j] in b;
      } else {
        assert s[i] == b[i - |a|] && s[j] == b[j - |a|];
      }
    }
  }

  /** Pigeonhole: a duplicate-free sequence drawn from S is no longer than S is large. */
  lemma {:induction false} DistinctBound<T>(s: seq<T>, S: set<T>)
    requires Distinct(s)
    requires forall x :: x in s ==> x in S
    ensures |s| <= |S|
  {
    if s != [] {
      DistinctTail(s);
      var rest := S - {s[0]};
      forall x | x in s[1..] ensures x in rest {
        assert x in s;
      }
      DistinctBound(s[1..], rest);
    }
  }

  /** A sequence in which every element of S occurs is at least as long as S is large. */
  lemma {:induction false} CoverBound<T>(t: seq<T>, S: set<T>)
    requires forall x :: x in S ==> x in t
    ensures |S| <= |t|
  {
    if t != [] {
      var rest := S - {t[0]};
      forall x | x in rest ensures x in t[1..] {
        assert x in t && x != t[0];
        var k :| 0 <= k < |t| && t[k] == x;
        assert t[1..][k - 1] == x;
      }
      CoverBound(t[1..], rest);
    }
  }

  /** An accepted region has at most nine cells: a longer one must repeat a digit. */
  lemma AcceptableBound(s: seq<int>)
    requires Acceptable(s)
    ensures |s| <= 9
  {
    DigitSetFacts();
    forall x | x in s ensures x in DigitSet {
      assert InRange(x);
    }
    DistinctBound(s, DigitSet);
  }

  /** A region of more than nine cells is always rejected. */
  lemma LongRejected(s: seq<int>)
    requires |s| > 9
    ensures !Acceptable(s)
  {
    if Acceptable(s) {
      AcceptableBound(s);
    }
  }

  /**
    A scan of nine cells succeeds exactly when the cells are a permutation
    of 1..9: nine distinct digits leave none out, and nine cells covering
    all nine digits cannot repeat one.
   */
  lemma ScanIsPermutation(s: seq<int>)
    requires |s| == 9
    ensures Acceptable(s) <==> IsDigitPermutation(s)
  {
    DigitSetFacts();
    if Acceptable(s) {
      forall v | InRange(v) ensures v in s {
        if v !in s {
          forall x | x in s ensures x in DigitSet - {v} {
            assert InRange(x);
          }
          DistinctBound(s, DigitSet - {v});
          assert false;
        }
      }
    }
    if IsDigitPermutation(s) {
      forall i, j | 0 <= i < j < |s| ensures s[i] != s[j] {
        if s[i] == s[j] {
          var t := s[..j] + s[j + 1..];
          forall x | x in DigitSet ensures x in t {
            assert InRange(x) && x in s;
            var k :| 0 <= k < |s| && s[k] == x;
            if k < j {
              assert t[k] == x;
            } else if k == j {
              assert t[i] == x;
            } else {
              assert t[k - 1] == x;
            }
          }
          CoverBound(t, DigitSet);
          assert false;
        }
      }
    }
  }
}
