/** Rules of the dashboard page script: the heating-curve target for the current outdoor
    temperature, the pump status shown, and the wood-heating statistics over a week of
    history. Page values are read with `parseFloat(...) || 0`. */
module PageScript {
  import opened Wrappers
  import opened Values
  import opened Series

  /** The outdoor temperatures of the seven curve points CP1-1 .. CP1-7. */
  const Knots: seq<real> := [-20.0, -10.0, 0.0, 5.0, 10.0, 15.0, 20.0]

  const CurveCodes: seq<string> := ["CP1-1", "CP1-2", "CP1-3", "CP1-4", "CP1-5", "CP1-6", "CP1-7"]

  /** The flow-temperature targets of the seven curve points. */
  function CurvePoints(data: Params): (cp: seq<real>)
    ensures |cp| == 7 && forall k | 0 <= k < 7 :: cp[k] == JsFloat(data, CurveCodes[k])
  {
    seq(7, k requires 0 <= k < 7 => JsFloat(data, CurveCodes[k]))
  }

  /** The straight line between points i and i + 1, at `t`. */
  function Lerp(i: nat, t: real, cp: seq<real>): real
    requires i < 6 && |cp| == 7
  {
    cp[i] + (t - Knots[i]) / (Knots[i + 1] - Knots[i]) * (cp[i + 1] - cp[i])
  }

  /** The first segment whose closed interval holds `t`. */
  function Segment(t: real): (i: nat)
    requires -20.0 <= t <= 20.0
    ensures i < 6 && Knots[i] <= t <= Knots[i + 1]
    ensures forall j | 0 <= j < i :: !(Knots[j] <= t <= Knots[j + 1])
  {
    if t <= -10.0 then 0 else if t <= 0.0 then 1 else if t <= 5.0 then 2
    else if t <= 10.0 then 3 else if t <= 15.0 then 4 else 5
  }

  /** The heating-curve target: the end points outside the knots, the piecewise-linear
      interpolation inside them. */
  function CurveValue(t: real, cp: seq<real>): real
    requires |cp| == 7
  {
    if t < -20.0 then cp[0] else if t > 20.0 then cp[6] else Lerp(Segment(t), t, cp)
  }

  /** The interpolation loop of the status view: the target for the current outdoor
      temperature (T04). */
  method CalcTarget(data: Params) returns (target: real)
    ensures target == CurveValue(JsFloat(data, "T04"), CurvePoints(data))
  {
    var t04 := JsFloat(data, "T04");
    var cp := CurvePoints(data);
    target := cp[0];
    var i := 0;
    var found := false;
    while i < |Knots| - 1 && !found
      invariant 0 <= i <= 6
      invariant found ==> 0 < i && -20.0 <= t04 <= 20.0 && Segment(t04) == i - 1 && target == Lerp(i - 1, t04, cp)
      invariant !found ==> forall j | 0 <= j < i :: !(Knots[j] <= t04 <= Knots[j + 1])
      invariant !found ==> target == (if t04 > 20.0 && i > 0 then cp[6] else cp[0])
    {
      if t04 >= Knots[i] && t04 <= Knots[i + 1] {
        var ratio := (t04 - Knots[i]) / (Knots[i + 1] - Knots[i]);
        target := cp[i] + ratio * (cp[i + 1] - cp[i]);
        found := true;
      } else if t04 < Knots[0] {
        target := cp[0];
      } else if t04 > Knots[|Knots| - 1] {
        target := cp[|cp| - 1];
      }
      i := i + 1;
    }
  }

  /** Below the first knot the target is CP1-1; above the last it is CP1-7. */
  lemma CurveOutside(t: real, cp: seq<real>)
    requires |cp| == 7
    ensures t < -20.0 ==> CurveValue(t, cp) == cp[0]
    ensures t > 20.0 ==> CurveValue(t, cp) == cp[6]
  {
  }

  /** At a knot the target is that knot's point. */
  lemma CurveAtKnot(k: nat, cp: seq<real>)
    requires k < 7 && |cp| == 7
    ensures CurveValue(Knots[k], cp) == cp[k]
  {
  }

  lemma UnitRatio(a: real, b: real)
    requires 0.0 <= a <= b && b > 0.0
    ensures 0.0 <= a / b <= 1.0
  {
  }

  lemma ScaleBetween(r: real, d: real)
    requires 0.0 <= r <= 1.0
    ensures d >= 0.0 ==> 0.0 <= r * d <= d
    ensures d < 0.0 ==> d <= r * d <= 0.0
  {
    if d >= 0.0 {
      assert r * d <= 1.0 * d;
    } else {
      assert r * (-d) <= 1.0 * (-d);
    }
  }

  /** Within a segment the target lies between the segment's two points. */
  lemma CurveBetween(i: nat, t: real, cp: seq<real>)
    requires i < 6 && |cp| == 7
    requires Knots[i] <= t <= Knots[i + 1]
    ensures cp[i] <= cp[i + 1] ==> cp[i] <= CurveValue(t, cp) <= cp[i + 1]
    ensures cp[i + 1] <= cp[i] ==> cp[i + 1] <= CurveValue(t, cp) <= cp[i]
  {
    assert -20.0 <= Knots[i] && Knots[i + 1] <= 20.0 by {
      assert i == 0 || i == 1 || i == 2 || i == 3 || i == 4 || i == 5;
    }
    var s := Segment(t);
    if s == i {
      var lo, hi := Knots[i], Knots[i + 1];
      assert lo < hi;
      var ratio := (t - lo) / (hi - lo);
      UnitRatio(t - lo, hi - lo);
      var d := cp[i + 1] - cp[i];
      ScaleBetween(ratio, d);
      assert CurveValue(t, cp) == cp[i] + ratio * d;
    } else {
      // t is the knot the two segments share
      assert s < i;
      assert t == Knots[i] by {
        assert Knots[s + 1] <= Knots[i] by {
          assert s + 1 <= i;
          assert s + 1 == i || s + 1 < i;
        }
      }
      CurveAtKnot(i, cp);
    }
  }

  // ---------- pump status ----------

  datatype PumpState = WoodHeating | Running | Stopped

  /** The compressor counts as running above 0.2 kW or above 10 % frequency (T33). */
  predicate CompressorRunning(data: Params) {
    JsFloat(data, "2054") > 0.2 || JsFloat(data, "T33") > 10.0
  }

  /** The tank (T08) or the return (T01) is above the heating target. */
  predicate TankAboveTarget(data: Params) {
    var target := JsFloat(data, "M1 Heating Target");
    JsFloat(data, "T08") > target || JsFloat(data, "T01") > target
  }

  /** The status panel: wood heating when the compressor is off but the tank is above target. */
  function PumpStatus(data: Params): (s: PumpState)
    ensures s == Running <==> CompressorRunning(data)
    ensures s == WoodHeating <==> !CompressorRunning(data) && TankAboveTarget(data)
  {
    if !CompressorRunning(data) && TankAboveTarget(data) then WoodHeating
    else if CompressorRunning(data) then Running
    else Stopped
  }

  /** The "AKTIV" label: above 5 % frequency or above 0.2 kW. */
  predicate PumpActive(data: Params) {
    JsFloat(data, "T33") > 5.0 || JsFloat(data, "2054") > 0.2
  }

  /** A running pump is always labelled active. */
  lemma RunningIsActive(data: Params)
    requires PumpStatus(data) == Running
    ensures PumpActive(data)
  {
  }

  /** The two thresholds differ: at 7 % frequency and no power the label says active while the
      status panel says stopped. */
  lemma ActiveLabelWhileStopped()
    ensures var data := map["T33" := Value(Some("7"), Some(7.0))];
            PumpActive(data) && PumpStatus(data) == Stopped
  {
    var data := map["T33" := Value(Some("7"), Some(7.0))];
    assert JsFloat(data, "2054") == 0.0 && JsFloat(data, "M1 Heating Target") == 0.0;
    assert JsFloat(data, "T08") == 0.0 && JsFloat(data, "T01") == 0.0;
  }

  // ---------- wood-heating statistics ----------

  /** The tank-over-flow margin (K) that marks an hour as wood heated. */
  const WoodThreshold: real := 7.0

  predicate IsWood(r: CloudReading) {
    r.t06.Some? && r.t02Flow.Some? && r.t06.value > r.t02Flow.value + WoodThreshold
  }

  /** The hours marked as wood heated. */
  function WoodHours(rs: seq<CloudReading>): nat
    decreases |rs|
  {
    if rs == [] then 0 else WoodHours(rs[..|rs| - 1]) + (if IsWood(rs[|rs| - 1]) then 1 else 0)
  }

  /** A session starts at a wood hour that is the first reading or follows a non-wood one. */
  predicate StartsSession(rs: seq<CloudReading>, i: nat)
    requires i < |rs|
  {
    IsWood(rs[i]) && (i == 0 || !IsWood(rs[i - 1]))
  }

  function WoodSessions(rs: seq<CloudReading>): nat
    decreases |rs|
  {
    if rs == [] then 0 else WoodSessions(rs[..|rs| - 1]) + (if StartsSession(rs, |rs| - 1) then 1 else 0)
  }

  /** The counting loop of the week view. */
  method WoodStats(rs: seq<CloudReading>) returns (hours: nat, sessions: nat)
    ensures hours == WoodHours(rs) && sessions == WoodSessions(rs)
  {
    hours, sessions := 0, 0;
    var prev: Option<bool> := None;
    var i := 0;
    while i < |rs|
      invariant 0 <= i <= |rs|
      invariant hours == WoodHours(rs[..i]) && sessions == WoodSessions(rs[..i])
      invariant prev == (if i == 0 then None else Some(IsWood(rs[i - 1])))
    {
      var r := rs[i];
      assert rs[..i + 1][..i] == rs[..i];
      var wood := r.t06.Some? && r.t02Flow.Some? && r.t06.value > r.t02Flow.value + WoodThreshold;
      if wood {
        hours := hours + 1;
        if prev == Some(false) || prev == None {
          sessions := sessions + 1;
        }
      }
      prev := Some(wood);
      i := i + 1;
    }
    assert rs[..|rs|] == rs;
  }

  /** There are never more sessions than wood hours, and there is a session iff there is a
      wood hour. */
  lemma {:induction false} SessionsWithinHours(rs: seq<CloudReading>)
    ensures WoodSessions(rs) <= WoodHours(rs)
    ensures WoodSessions(rs) > 0 <==> WoodHours(rs) > 0
    decreases |rs|
  {
    if rs != [] {
      var init := rs[..|rs| - 1];
      SessionsWithinHours(init);
      if WoodHours(init) == 0 && IsWood(rs[|rs| - 1]) && |rs| > 1 {
        NoWoodHour(init, |init| - 1);
        assert rs[|rs| - 2] == init[|init| - 1];
      }
    }
  }

  lemma {:induction false} NoWoodHour(rs: seq<CloudReading>, k: nat)
    requires k < |rs| && WoodHours(rs) == 0
    ensures !IsWood(rs[k])
    decreases |rs|
  {
    if k < |rs| - 1 {
      NoWoodHour(rs[..|rs| - 1], k);
    }
  }
}
