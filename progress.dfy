/**
 * The progress percentage reported while the segmentation runs: the
 * library's callback gives `(key, current, total)`, the component turns it
 * into a rounded percentage and merges it into the shown progress with `max`.
 */
module Progress {

  /** One call of the library's progress callback (the `key` argument is ignored). */
  datatype Report = Report(current: int, total: int)

  /**
   * `total > 0 ? Math.round((current / total) * 100) : 0`.
   * `Math.round` takes the nearest integer and rounds halves up, so the
   * result is the floor of `100 * current / total + 1/2`.
   */
  function Percent(current: int, total: int): (pct: int)
    ensures total <= 0 ==> pct == 0
    ensures total > 0 ==> -total <= 200 * current - 2 * total * pct < total
    ensures total > 0 && 0 <= current <= total ==> 0 <= pct <= 100
  {
    if total > 0 then
      (200 * current + total) / (2 * total)
    else 0
  }

  /** `Math.max(p.progress, pct)`: the merged progress is the larger of the two. */
  function Merge(progress: int, pct: int): (r: int)
    ensures r >= progress && r >= pct
    ensures r == progress || r == pct
  {
    if pct > progress then pct else progress
  }

  /** The progress after the callback has been called with each report in turn. */
  function MergeAll(progress: int, reports: seq<Report>): int
    decreases |reports|
  {
    if reports == [] then progress
    else MergeAll(Merge(progress, Percent(reports[0].current, reports[0].total)), reports[1..])
  }

  /**
   * However the callbacks are interleaved, the shown progress ends up as the
   * maximum of its starting value and every reported percentage: never less
   * than where it started or than any report, and equal to one of them.
   */
  lemma {:induction false} MergeAllIsMaximum(progress: int, reports: seq<Report>)
    decreases |reports|
    ensures MergeAll(progress, reports) >= progress
    ensures forall i :: 0 <= i < |reports| ==>
              MergeAll(progress, reports) >= Percent(reports[i].current, reports[i].total)
    ensures MergeAll(progress, reports) == progress ||
            exists i :: 0 <= i < |reports| && MergeAll(progress, reports) == Percent(reports[i].current, reports[i].total)
  {
    if reports != [] {
      var p := Merge(progress, Percent(reports[0].current, reports[0].total));
      MergeAllIsMaximum(p, reports[1..]);
      var r := MergeAll(progress, reports);
      assert r == MergeAll(p, reports[1..]);
      forall i | 0 <= i < |reports|
        ensures r >= Percent(reports[i].current, reports[i].total)
      {
        if i > 0 { assert reports[i] == reports[1..][i - 1]; }
      }
      if r != progress {
        if r == p {
          assert r == Percent(reports[0].current, reports[0].total);
        } else {
          var j :| 0 <= j < |reports[1..]| && r == Percent(reports[1..][j].current, reports[1..][j].total);
          assert reports[1..][j] == reports[j + 1];
        }
      }
    }
  }

  /** Each callback leaves the progress where it was or raises it: progress never goes down. */
  lemma {:induction false} MergeAllMonotone(progress: int, reports: seq<Report>, k: nat)
    requires k <= |reports|
    decreases |reports|
    ensures MergeAll(progress, reports[..k]) <= MergeAll(progress, reports)
  {
    if k > 0 {
      var p := Merge(progress, Percent(reports[0].current, reports[0].total));
      assert reports[..k][1..] == reports[1..][..k - 1];
      MergeAllMonotone(p, reports[1..], k - 1);
    } else {
      MergeAllIsMaximum(progress, reports);
    }
  }

  /** Reports that stay within their total never raise the progress above 100. */
  lemma {:induction false} MergeAllBounded(progress: int, reports: seq<Report>)
    decreases |reports|
    requires progress <= 100
    requires forall i :: 0 <= i < |reports| ==> 0 <= reports[i].current <= reports[i].total || reports[i].total <= 0
    ensures MergeAll(progress, reports) <= 100
  {
    if reports != [] {
      var p := Merge(progress, Percent(reports[0].current, reports[0].total));
      MergeAllBounded(p, reports[1..]);
    }
  }

  /** A report halfway through rounds up, and the end points map to 0 and 100. */
  lemma PercentExamples()
    ensures Percent(1, 2) == 50 && Percent(1, 200) == 1 && Percent(1, 3) == 33
    ensures Percent(0, 7) == 0 && Percent(7, 7) == 100 && Percent(5, 0) == 0
  {
  }

  /** Over-full reports: 1001 of 1000 still rounds to 100, while 5 of 4 gives 125. */
  lemma PercentAboveTotal()
    ensures Percent(1001, 1000) == 100
    ensures Percent(5, 4) == 125
  {
  }
}
