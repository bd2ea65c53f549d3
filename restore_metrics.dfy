/**
 * The restore watcher's speed and ETA estimator
 * (`calculate_eta_and_speed_with_memory`, `calculate_eta_and_speed`,
 * `calculate_total_average_speed` and `_format_eta` of restore_watcher.py).
 *
 * Speeds are in GiB (or percent) per second and are kept as exact reals; an
 * infinite ETA is its own constructor.
 */
module RestoreMetrics {
  import opened Wrappers
  import opened Text
  import opened RestoreProgress

  /** An estimated time to completion in seconds, or `math.inf`. */
  datatype Eta = Finite(seconds: real) | Infinite

  /** Running sums of the positive time and value deltas. */
  datatype Sums = Sums(seconds: int, value: real)

  /** The number of most recent points the estimator looks at (`points[-6:]`). */
  const WindowSize := 6

  function MaxReal(a: real, b: real): real { if a >= b then a else b }

  /** The last six points, or all of them when there are fewer. */
  function Window(points: seq<Point>): (w: seq<Point>)
    ensures |w| == if |points| > WindowSize then WindowSize else |points|
    ensures w == points[|points| - |w|..]
  {
    if |points| > WindowSize then points[|points| - WindowSize..] else points
  }

  /** Whether the step from `p` to `c` both took time and moved forward. */
  predicate Advances(p: Point, c: Point)
  {
    c.elapsed - p.elapsed > 0 && c.value - p.value > 0.0
  }

  /**
   * The sums of the deltas of every consecutive pair of `w` that advances;
   * pairs that stall or go backwards are skipped.
   */
  function DeltaSums(w: seq<Point>): (r: Sums)
    ensures r.seconds >= 0 && r.value >= 0.0
    ensures r.seconds > 0 <==> r.value > 0.0
  {
    if |w| < 2 then Sums(0, 0.0)
    else
      var s := DeltaSums(w[..|w| - 1]);
      var p := w[|w| - 2];
      var c := w[|w| - 1];
      if Advances(p, c) then Sums(s.seconds + (c.elapsed - p.elapsed), s.value + (c.value - p.value))
      else s
  }

  /** The speed `calculate_eta_and_speed_with_memory` reports. */
  function SpeedWithMemory(points: seq<Point>, previousSpeed: real): (speed: real)
    ensures |points| < 2 ==> speed == previousSpeed
    ensures speed == previousSpeed || IsRateOf(speed, DeltaSums(Window(points)))
  {
    if |points| < 2 then previousSpeed
    else
      var s := DeltaSums(Window(points));
      if s.seconds > 0 && s.value > 0.0 then Rate(s) else previousSpeed
  }

  /** `speed` is a positive rate that covers the summed value in the summed seconds. */
  predicate IsRateOf(speed: real, s: Sums)
  {
    speed > 0.0 && speed * s.seconds as real == s.value
  }

  /** The value gained per second over the summed steps. */
  function Rate(s: Sums): (r: real)
    requires s.seconds > 0 && s.value > 0.0
    ensures IsRateOf(r, s)
  {
    DivMul(s.value, s.seconds as real);
    s.value / s.seconds as real
  }

  lemma DivMul(a: real, b: real)
    requires b > 0.0
    ensures (a / b) * b == a && (a > 0.0 ==> a / b > 0.0)
  {
  }

  /** The ETA `calculate_eta_and_speed_with_memory` reports. */
  function EtaWithMemory(points: seq<Point>, previousSpeed: real): (eta: Eta)
    ensures |points| < 2 ==> eta == Infinite
    ensures eta.Finite? ==>
      var last := points[|points| - 1];
      last.total.Some? && eta.seconds >= 0.0
      && eta.seconds * SpeedWithMemory(points, previousSpeed) == MaxReal(last.total.value - last.value, 0.0)
  {
    if |points| < 2 then Infinite
    else
      var speed := SpeedWithMemory(points, previousSpeed);
      var last := points[|points| - 1];
      if last.total.None? || speed <= 0.0 then Infinite
      else Finite(MaxReal(last.total.value - last.value, 0.0) / speed)
  }

  /**
   * `calculate_eta_and_speed_with_memory`: the speed over the advancing steps
   * of the last six points (or `previousSpeed` when there are none), and the
   * time the remaining amount takes at that speed.
   */
  method EstimateWithMemory(points: seq<Point>, previousSpeed: real) returns (speed: real, eta: Eta)
    ensures speed == SpeedWithMemory(points, previousSpeed)
    ensures eta == EtaWithMemory(points, previousSpeed)
  {
    if |points| < 2 {
      return previousSpeed, Infinite;
    }
    var window := if |points| > WindowSize then points[|points| - WindowSize..] else points;
    var totalSeconds, totalValue := SumDeltas(window);
    speed := previousSpeed;
    if totalSeconds > 0 && totalValue > 0.0 {
      speed := totalValue / totalSeconds as real;
    }
    var currentTotal := points[|points| - 1].total;
    if currentTotal.None? || speed <= 0.0 {
      return speed, Infinite;
    }
    var remaining := MaxReal(currentTotal.value - points[|points| - 1].value, 0.0);
    return speed, Finite(remaining / speed);
  }

  /** The loop of `calculate_eta_and_speed_with_memory` over the consecutive pairs of the window. */
  method SumDeltas(window: seq<Point>) returns (totalSeconds: int, totalValue: real)
    ensures Sums(totalSeconds, totalValue) == DeltaSums(window)
  {
    totalSeconds, totalValue := 0, 0.0;
    if |window| < 2 {
      return;
    }
    var i := 1;
    while i < |window|
      invariant 1 <= i <= |window|
      invariant Sums(totalSeconds, totalValue) == DeltaSums(window[..i])
    {
      var previous := window[i - 1];
      var current := window[i];
      var deltaSeconds := current.elapsed - previous.elapsed;
      var deltaValue := current.value - previous.value;
      DeltaSumsNext(window, i);
      if deltaSeconds > 0 && deltaValue > 0.0 {
        totalSeconds := totalSeconds + deltaSeconds;
        totalValue := totalValue + deltaValue;
      }
      i := i + 1;
    }
    assert window[..i] == window;
  }

  lemma DeltaSumsNext(w: seq<Point>, i: int)
    requires 1 <= i < |w|
    ensures var s := DeltaSums(w[..i]);
      DeltaSums(w[..i + 1])
      == if Advances(w[i - 1], w[i]) then Sums(s.seconds + (w[i].elapsed - w[i - 1].elapsed), s.value + (w[i].value - w[i - 1].value))
         else s
  {
    assert w[..i + 1][..i] == w[..i];
  }

  /** `calculate_eta_and_speed`: the estimate with no remembered speed. */
  method Estimate(points: seq<Point>) returns (speed: real, eta: Eta)
    ensures speed == SpeedWithMemory(points, 0.0)
    ensures eta == EtaWithMemory(points, 0.0)
  {
    speed, eta := EstimateWithMemory(points, 0.0);
  }

  /** Only the last six points count: older history never changes the estimate. */
  lemma OnlyWindowCounts(older: seq<Point>, points: seq<Point>, previousSpeed: real)
    requires |points| >= WindowSize
    ensures SpeedWithMemory(older + points, previousSpeed) == SpeedWithMemory(points, previousSpeed)
    ensures EtaWithMemory(older + points, previousSpeed) == EtaWithMemory(points, previousSpeed)
  {
    var all := older + points;
    assert all[|all| - WindowSize..] == points[|points| - WindowSize..];
    assert all[|all| - 1] == points[|points| - 1];
  }

  /** When no step of the window advances, the remembered speed is reported. */
  lemma {:induction false} StalledSums(w: seq<Point>)
    requires forall i :: 0 < i < |w| ==> !Advances(w[i - 1], w[i])
    ensures DeltaSums(w) == Sums(0, 0.0)
  {
    if |w| >= 2 {
      StalledSums(w[..|w| - 1]);
    }
  }

  lemma StallKeepsSpeed(points: seq<Point>, previousSpeed: real)
    requires forall i :: 0 < i < |Window(points)| ==> !Advances(Window(points)[i - 1], Window(points)[i])
    ensures SpeedWithMemory(points, previousSpeed) == previousSpeed
  {
    StalledSums(Window(points));
  }

  /** When every step of the window advances, the speed is the window's overall slope. */
  lemma {:induction false} AdvancingSums(w: seq<Point>)
    requires |w| >= 1
    requires forall i :: 0 < i < |w| ==> Advances(w[i - 1], w[i])
    ensures DeltaSums(w) == Sums(w[|w| - 1].elapsed - w[0].elapsed, w[|w| - 1].value - w[0].value)
  {
    if |w| >= 2 {
      AdvancingSums(w[..|w| - 1]);
    }
  }

  lemma SteadySpeed(points: seq<Point>, previousSpeed: real)
    requires |points| >= 2
    requires forall i :: 0 < i < |Window(points)| ==> Advances(Window(points)[i - 1], Window(points)[i])
    ensures var w := Window(points);
      w[|w| - 1].elapsed > w[0].elapsed
      && SpeedWithMemory(points, previousSpeed)
         == (w[|w| - 1].value - w[0].value) / (w[|w| - 1].elapsed - w[0].elapsed) as real
  {
    var w := Window(points);
    AdvancingSums(w);
    WindowGrows(w);
  }

  /** Along advancing points, time and value grow from the first to the last. */
  lemma {:induction false} WindowGrows(w: seq<Point>)
    requires |w| >= 2
    requires forall i :: 0 < i < |w| ==> Advances(w[i - 1], w[i])
    ensures w[|w| - 1].elapsed > w[0].elapsed && w[|w| - 1].value > w[0].value
  {
    if |w| > 2 {
      WindowGrows(w[..|w| - 1]);
    }
  }

  /** `calculate_total_average_speed`: first-to-last slope, or 0 when it is not positive. */
  function TotalAverageSpeed(points: seq<Point>): (r: real)
    ensures r >= 0.0
    ensures |points| < 2 ==> r == 0.0
    ensures |points| >= 2 ==>
      var de := points[|points| - 1].elapsed - points[0].elapsed;
      var dv := points[|points| - 1].value - points[0].value;
      (r > 0.0 <==> de > 0 && dv > 0.0) && (r > 0.0 ==> r * de as real == dv)
  {
    if |points| < 2 then 0.0
    else
      var de := points[|points| - 1].elapsed - points[0].elapsed;
      var dv := points[|points| - 1].value - points[0].value;
      if de <= 0 || dv <= 0.0 then 0.0 else dv / de as real
  }

  /** Python's `round` to an integer: to the nearest, ties to the even neighbour. */
  function Round(x: real): (n: int)
    ensures (n as real - x) <= 0.5 && (x - n as real) <= 0.5
    ensures (n as real - x == 0.5 || x - n as real == 0.5) ==> n % 2 == 0
  {
    var f := x.Floor;
    var d := x - f as real;
    if d < 0.5 then f
    else if d > 0.5 then f + 1
    else if f % 2 == 0 then f
    else f + 1
  }

  /** A number written with at least two digits, a leading zero added below ten. */
  function Pad2(n: nat): (r: string)
    ensures AllDigits(r)
    ensures n < 100 ==> |r| == 2
    ensures |r| >= 2
  {
    if n < 10 then "0" + NatToString(n)
    else
      assert NatToString(n) == NatToString(n / 10) + [('0' as int + n % 10) as char];
      NatToString(n)
  }

  lemma Pad2Value(n: nat)
    ensures DigitsValue(Pad2(n)) == n
  {
    DigitsValueOfNatToString(n);
    if n < 10 {
      var r := Pad2(n);
      assert r[..|r| - 1] == "0";
      assert DigitsValue("0") == 0;
    }
  }

  /** `hh:mm:ss` of a number of seconds (`divmod` by 3600, then by 60). */
  function FormatHms(total: nat): (t: string)
  {
    Pad2(total / 3600) + ":" + Pad2(total % 3600 / 60) + ":" + Pad2(total % 3600 % 60)
  }

  /** `_format_eta`: `hh:mm:ss` of the rounded seconds, clamped at 0. */
  function FormatEta(eta: real): (t: string)
  {
    FormatHms(if Round(eta) < 0 then 0 else Round(eta))
  }

  /** The seconds a `h:mm:ss` text stands for. */
  function ClockSeconds(t: string): int
    requires |t| >= 6
  {
    DigitsValue(t[..|t| - 6]) * 3600 + DigitsValue(t[|t| - 5..|t| - 3]) * 60 + DigitsValue(t[|t| - 2..])
  }

  lemma ClockParts(h: string, m: string, s: string)
    requires |h| >= 2 && |m| == 2 && |s| == 2
    ensures var t := h + ":" + m + ":" + s;
      |t| >= 8 && t[|t| - 3] == ':' && t[|t| - 6] == ':'
      && t[..|t| - 6] == h && t[|t| - 5..|t| - 3] == m && t[|t| - 2..] == s
  {
  }

  lemma DivModHms(n: nat)
    ensures n % 3600 / 60 < 60 && n % 3600 % 60 < 60
    ensures (n / 3600) * 3600 + (n % 3600 / 60) * 60 + n % 3600 % 60 == n
  {
  }

  /** Reading `hh:mm:ss` back gives the seconds; minutes and seconds take two digits and stay below 60. */
  lemma FormatHmsReadsBack(n: nat)
    ensures var t := FormatHms(n);
      |t| >= 8 && t[|t| - 3] == ':' && t[|t| - 6] == ':'
      && DigitsValue(t[|t| - 5..|t| - 3]) < 60 && DigitsValue(t[|t| - 2..]) < 60
      && ClockSeconds(t) == n
  {
    DivModHms(n);
    var h, m, s := n / 3600, n % 3600 / 60, n % 3600 % 60;
    ClockParts(Pad2(h), Pad2(m), Pad2(s));
    Pad2Value(h);
    Pad2Value(m);
    Pad2Value(s);
  }

  /** The formatted ETA reads back as the rounded seconds, clamped at 0. */
  lemma FormatEtaReadsBack(eta: real)
    ensures |FormatEta(eta)| >= 8
    ensures ClockSeconds(FormatEta(eta)) == if Round(eta) < 0 then 0 else Round(eta)
  {
    FormatHmsReadsBack(if Round(eta) < 0 then 0 else Round(eta));
  }
}
