/**
 * `calculateProgress` (src/app/goals/page.tsx and src/app/page.tsx): the
 * completed share of a goal's sub-tasks as a whole percentage, rounded by
 * `Math.round`.
 */
module Progress {
  import opened Schema
  import opened Seqs

  lemma MulLe(d: int, x: int, y: int)
    requires d >= 0 && x <= y
    ensures d * x <= d * y
  {
    assert d * y - d * x == d * (y - x);
  }

  /** A quotient below a bound: `a / d <= m` as soon as `a < d * (m + 1)`. */
  lemma DivAtMost(a: int, d: int, m: int)
    requires d > 0 && a < d * (m + 1)
    ensures a / d <= m
  {
    var q := a / d;
    if q > m {
      MulLe(d, m + 1, q);
    }
  }

  /** A quotient above a bound: `a / d >= m` as soon as `d * m <= a`. */
  lemma DivAtLeast(a: int, d: int, m: int)
    requires d > 0 && d * m <= a
    ensures a / d >= m
  {
    var q := a / d;
    if q < m {
      MulLe(d, q + 1, m);
    }
  }

  /**
   * `Math.round(done / total * 100)` computed exactly: rounding half up is
   * `floor(x + 1/2)`, and `100 * done / total + 1/2 == (200 * done + total) / (2 * total)`.
   */
  function Percent(done: nat, total: nat): (r: int)
    requires 0 < total && done <= total
    ensures 0 <= r <= 100
    ensures done == total ==> r == 100
    ensures done == 0 ==> r == 0
  {
    RoundedShareBounds(done, total);
    (200 * done + total) / (2 * total)
  }

  lemma RoundedShareBounds(done: nat, total: nat)
    requires 0 < total && done <= total
    ensures 0 <= (200 * done + total) / (2 * total) <= 100
    ensures done == total ==> (200 * done + total) / (2 * total) == 100
    ensures done == 0 ==> (200 * done + total) / (2 * total) == 0
  {
    var a, d := 200 * done + total, 2 * total;
    DivAtLeast(a, d, 0);
    DivAtMost(a, d, 100);
    if done == total {
      DivAtLeast(a, d, 100);
    }
    if done == 0 {
      DivAtMost(a, d, 0);
    }
  }

  function IsDone(s: Subtask): bool { s.completed }

  /** calculateProgress: 0 for no sub-tasks, else the rounded completed percentage. */
  function CalculateProgress(subtasks: seq<Subtask>): (r: int)
    ensures 0 <= r <= 100
    ensures subtasks == [] ==> r == 0
  {
    if |subtasks| == 0 then 0 else Percent(Count(subtasks, IsDone), |subtasks|)
  }

  /** Below 200 sub-tasks, a goal shows 100% exactly when every sub-task is completed. */
  lemma FullIffAllDone(done: nat, total: nat)
    requires 0 < total < 200 && done <= total
    ensures Percent(done, total) == 100 <==> done == total
  {
    if done < total {
      assert 200 * done + total < 2 * total * 100 by {
        assert 200 * done <= 200 * total - 200;
      }
      DivAtMost(200 * done + total, 2 * total, 99);
    }
  }

  /** Up to 200 sub-tasks, a goal shows 0% exactly when none is completed. */
  lemma ZeroIffNoneDone(done: nat, total: nat)
    requires 0 < total <= 200 && done <= total
    ensures Percent(done, total) == 0 <==> done == 0
  {
    if done > 0 {
      DivAtLeast(200 * done + total, 2 * total, 1);
    }
  }

  /** From 200 sub-tasks up, all but one completed already rounds up to 100%. */
  lemma RoundsUpToFull(n: nat)
    requires n >= 200
    ensures Percent(n - 1, n) == 100
  {
    DivAtLeast(200 * (n - 1) + n, 2 * n, 100);
  }

  /** Completing one more sub-task never lowers the percentage. */
  lemma PercentMonotone(done: nat, total: nat)
    requires 0 < total && done < total
    ensures Percent(done, total) <= Percent(done + 1, total)
  {
    var a, b, d := 200 * done + total, 200 * (done + 1) + total, 2 * total;
    var q := a / d;
    assert d * q <= a;
    DivAtLeast(b, d, q);
  }

  /** The number of completed sub-tasks never exceeds the number of sub-tasks. */
  lemma CountAtMostLength(subtasks: seq<Subtask>)
    ensures Count(subtasks, IsDone) <= |subtasks|
  {
  }

  /** Below 200 sub-tasks, calculateProgress is 100 exactly when the list is non-empty and all are completed. */
  lemma ProgressFullIffAllCompleted(subtasks: seq<Subtask>)
    requires |subtasks| < 200
    ensures CalculateProgress(subtasks) == 100
        <==> subtasks != [] && forall i :: 0 <= i < |subtasks| ==> subtasks[i].completed
  {
    if subtasks != [] {
      FullIffAllDone(Count(subtasks, IsDone), |subtasks|);
      FilterMultiset(subtasks, IsDone);
      if Count(subtasks, IsDone) == |subtasks| {
        AllKept(subtasks, IsDone);
      } else {
        var i := SomeDropped(subtasks, IsDone);
      }
      if forall i :: 0 <= i < |subtasks| ==> subtasks[i].completed {
        FilterAll(subtasks, IsDone);
      }
    }
  }
}
