// The migration watcher's speed and ETA estimate
// (proxmox/migration-watcher/watcher.py, calculate_eta_and_speed).
//
// Unlike the restore watcher's estimator, this one looks at the last ten
// points, counts every pair whose time advances even when the transferred
// amount went down, keeps no memory of an earlier speed, and divides by the
// total without checking it, so a total of 0.0 raises ZeroDivisionError.

module MigrationMetrics {
  import opened Wrappers
  import opened Numbers

  /** The ETA in whole seconds (`int(...)`), or `float('inf')`. */
  datatype Eta = Finite(seconds: int) | Infinite

  /** (current_speed_mib_s, eta_seconds_val, percent_complete_val) */
  datatype Estimate = Estimate(speedMib: real, eta: Eta, percent: real)

  /** The sums of the time and progress deltas over the pairs that count. */
  datatype Sums = Sums(seconds: int, gib: real)

  const WindowSize := 10

  /** The speed below which no ETA is computed, in GiB/s. */
  const MinSpeed: real := 0.000000001

  /** The message of the ZeroDivisionError raised by `x / 0.0`. */
  const ZeroDivision := "float division by zero"

  /** The most recent samples: the last ten, or all of them when there are fewer. */
  function Window<T>(xs: seq<T>): (w: seq<T>)
    ensures |w| == if |xs| < WindowSize then |xs| else WindowSize
  {
    if |xs| <= WindowSize then xs else xs[|xs| - WindowSize..]
  }

  /** The delta sums over consecutive pairs of `ts`/`ps` whose time delta is positive. */
  function PairSums(ts: seq<int>, ps: seq<real>): Sums
    requires |ts| == |ps|
    decreases |ts|
  {
    if |ts| < 2 then Sums(0, 0.0)
    else
      var n := |ts|;
      var s := PairSums(ts[..n - 1], ps[..n - 1]);
      var dt := ts[n - 1] - ts[n - 2];
      if dt > 0 then Sums(s.seconds + dt, s.gib + (ps[n - 1] - ps[n - 2])) else s
  }

  /** The speed in GiB/s of a window: Σprogress/Σtime, or 0 when no time passed. */
  function WindowSpeed(ts: seq<int>, ps: seq<real>): real
    requires |ts| == |ps|
  {
    var s := PairSums(ts, ps);
    if s.seconds > 0 then s.gib / s.seconds as real else 0.0
  }

  /** `calculate_eta_and_speed`, with the ZeroDivisionError as `Err`. */
  function EtaAndSpeed(times: seq<int>, progresses: seq<real>, total: Option<real>): (r: Result<Estimate, string>)
    requires |times| == |progresses|
    ensures r.Err? <==> |times| >= 2 && total == Some(0.0)
    ensures r.Err? ==> r.error == ZeroDivision
    ensures r.Ok? && r.value.eta.Finite? ==> |times| >= 2 && r.value.speedMib > 0.0
    ensures r.Ok? && |times| < 2 ==> r.value.speedMib == 0.0 && r.value.eta.Infinite?
  {
    if |times| < 2 || total.None? then
      var percent :=
        if total.Some? && total.value != 0.0 && progresses != [] then
          progresses[|progresses| - 1] / total.value * 100.0
        else 0.0;
      Ok(Estimate(0.0, Infinite, percent))
    else if total.value == 0.0 then Err(ZeroDivision)
    else
      var speed := WindowSpeed(Window(times), Window(progresses));
      var last := progresses[|progresses| - 1];
      var percent := last / total.value * 100.0;
      var eta := if speed > MinSpeed then Finite(Truncate((total.value - last) / speed)) else Infinite;
      Ok(Estimate(speed * 1024.0, eta, percent))
  }

  /**
   * The percentage is the latest amount as a share of a non-zero total, and 0
   * when there is no total, a zero total or no point yet.
   */
  lemma PercentOfTotal(times: seq<int>, progresses: seq<real>, total: Option<real>)
    requires |times| == |progresses| && EtaAndSpeed(times, progresses, total).Ok?
    ensures var p := EtaAndSpeed(times, progresses, total).value.percent;
      (total.Some? && total.value != 0.0 && progresses != [] ==>
         p * total.value == progresses[|progresses| - 1] * 100.0)
      && (total.None? || total.value == 0.0 || progresses == [] ==> p == 0.0)
  {
    if total.Some? && total.value != 0.0 && progresses != [] {
      DivMul(progresses[|progresses| - 1] * 100.0, total.value);
    }
  }

  lemma MulLess(a: real, b: real, c: real)
    requires a < b && c > 0.0
    ensures a * c < b * c
  {
  }

  lemma DivMul(a: real, b: real)
    requires b != 0.0
    ensures (a / 100.0) / b * 100.0 * b == a
  {
  }

  /* ---------------- the loop ---------------- */

  lemma PairSumsStep(ts: seq<int>, ps: seq<real>, i: nat)
    requires |ts| == |ps| && 1 <= i < |ts|
    ensures var s := PairSums(ts[..i], ps[..i]);
      PairSums(ts[..i + 1], ps[..i + 1])
        == if ts[i] - ts[i - 1] > 0 then Sums(s.seconds + (ts[i] - ts[i - 1]), s.gib + (ps[i] - ps[i - 1])) else s
  {
    assert ts[..i + 1][..i] == ts[..i];
    assert ps[..i + 1][..i] == ps[..i];
  }

  /** The loop over the consecutive pairs of the window. */
  method SumDeltas(ts: seq<int>, ps: seq<real>) returns (totalTime: int, totalProgress: real)
    requires |ts| == |ps|
    ensures Sums(totalTime, totalProgress) == PairSums(ts, ps)
  {
    totalTime, totalProgress := 0, 0.0;
    if |ts| < 2 {
      return;
    }
    assert PairSums(ts[..1], ps[..1]) == Sums(0, 0.0);
    var i := 1;
    while i < |ts|
      invariant 1 <= i <= |ts|
      invariant Sums(totalTime, totalProgress) == PairSums(ts[..i], ps[..i])
    {
      var dt := ts[i] - ts[i - 1];
      var dp := ps[i] - ps[i - 1];
      PairSumsStep(ts, ps, i);
      if dt > 0 {
        totalTime := totalTime + dt;
        totalProgress := totalProgress + dp;
      }
      i := i + 1;
    }
    assert ts[..i] == ts && ps[..i] == ps;
  }

  /** `calculate_eta_and_speed`, imperatively; `Err` is the ZeroDivisionError. */
  method CalculateEtaAndSpeed(times: seq<int>, progresses: seq<real>, total: Option<real>)
    returns (r: Result<Estimate, string>)
    requires |times| == |progresses|
    ensures r == EtaAndSpeed(times, progresses, total)
  {
    if |times| < 2 || total.None? {
      var percent := 0.0;
      if total.Some? && total.value != 0.0 && progresses != [] {
        percent := progresses[|progresses| - 1] / total.value * 100.0;
      }
      return Ok(Estimate(0.0, Infinite, percent));
    }
    var relevantTimes := Window(times);
    var relevantProgress := Window(progresses);
    var totalTime, totalProgress := SumDeltas(relevantTimes, relevantProgress);
    var speed := 0.0;
    if totalTime > 0 {
      speed := totalProgress / totalTime as real;
    }
    if total.value == 0.0 {
      return Err(ZeroDivision);
    }
    var last := progresses[|progresses| - 1];
    var percent := last / total.value * 100.0;
    var remaining := total.value - last;
    var eta := Infinite;
    if speed > MinSpeed {
      eta := Finite(Truncate(remaining / speed));
    }
    return Ok(Estimate(speed * 1024.0, eta, percent));
  }

  /* ---------------- properties ---------------- */

  /** Points older than the last ten do not change the estimate. */
  lemma OnlyLastTenCount(olderT: seq<int>, olderP: seq<real>, times: seq<int>, progresses: seq<real>, total: Option<real>)
    requires |olderT| == |olderP| && |times| == |progresses| >= WindowSize
    ensures EtaAndSpeed(olderT + times, olderP + progresses, total) == EtaAndSpeed(times, progresses, total)
  {
    var t := olderT + times;
    var p := olderP + progresses;
    assert Window(t) == Window(times);
    assert Window(p) == Window(progresses);
    assert p[|p| - 1] == progresses[|progresses| - 1];
  }

  predicate StrictlyIncreasing(ts: seq<int>)
  {
    forall i :: 0 < i < |ts| ==> ts[i - 1] < ts[i]
  }

  /** When time advances at every step, the sums telescope to last minus first. */
  lemma {:induction false} Telescopes(ts: seq<int>, ps: seq<real>)
    requires |ts| == |ps| >= 1 && StrictlyIncreasing(ts)
    ensures PairSums(ts, ps) == Sums(ts[|ts| - 1] - ts[0], ps[|ps| - 1] - ps[0])
    decreases |ts|
  {
    if |ts| >= 2 {
      var n := |ts|;
      Telescopes(ts[..n - 1], ps[..n - 1]);
    }
  }

  /**
   * With time advancing at every step of the window, the reported speed is the
   * window's net progress over its elapsed time, so a transfer that went
   * backwards is reported with a negative speed and no ETA.
   */
  lemma SteadySpeed(times: seq<int>, progresses: seq<real>, total: real)
    requires |times| == |progresses| >= 2 && total != 0.0
    requires StrictlyIncreasing(Window(times))
    ensures var w := |Window(times)|;
      var dt := Window(times)[w - 1] - Window(times)[0];
      var dp := Window(progresses)[w - 1] - Window(progresses)[0];
      var r := EtaAndSpeed(times, progresses, Some(total));
      r.Ok? && dt > 0 && r.value.speedMib * dt as real == dp * 1024.0
      && (dp <= 0.0 ==> r.value.eta.Infinite?)
  {
    var wt := Window(times);
    var wp := Window(progresses);
    Telescopes(wt, wp);
    var w := |wt|;
    assert wt[0] < wt[w - 1] by {
      IncreasingEnds(wt, w - 1);
    }
  }

  lemma {:induction false} IncreasingEnds(ts: seq<int>, k: nat)
    requires StrictlyIncreasing(ts) && 0 < k < |ts|
    ensures ts[0] < ts[k]
  {
    if k > 1 {
      IncreasingEnds(ts, k - 1);
    }
  }

  /** A finite ETA before completion is never negative. */
  lemma EtaNonNegative(times: seq<int>, progresses: seq<real>, total: real)
    requires |times| == |progresses| && total > 0.0
    requires EtaAndSpeed(times, progresses, Some(total)).Ok?
    requires EtaAndSpeed(times, progresses, Some(total)).value.eta.Finite?
    requires EtaAndSpeed(times, progresses, Some(total)).value.percent < 100.0
    ensures EtaAndSpeed(times, progresses, Some(total)).value.eta.seconds >= 0
  {
    var last := progresses[|progresses| - 1];
    var r := EtaAndSpeed(times, progresses, Some(total)).value;
    var speed := WindowSpeed(Window(times), Window(progresses));
    assert |times| >= 2;
    assert speed > MinSpeed && r.eta == Finite(Truncate((total - last) / speed));
    PercentOfTotal(times, progresses, Some(total));
    assert r.percent * total == last * 100.0;
    MulLess(r.percent, 100.0, total);
    DivNonNegative(total - last, speed);
  }

  lemma DivNonNegative(a: real, b: real)
    requires a >= 0.0 && b > 0.0
    ensures a / b >= 0.0
  {
  }
}
