/** Heat output and coefficient of performance (COP) as the dashboard derives them: the server-side
    block of `log_reading` and the page script's `calculateCOP`. */
module Metrics {
  import opened Wrappers
  import opened Values

  /** Plausibility ceiling for the COP of this equipment class (a policy constant). */
  const CopCap: real := 5.0
  /** Electrical power (kW) at or below which no COP is derived. */
  const PowerGuard: real := 0.1
  /** Specific heat of water, kJ/(kg K), with one litre taken as one kilogram. */
  const WaterHeat: real := 4.186

  /** The derived quantities of one reading. `cop` is None where the code stores NULL. */
  datatype Derived = Derived(deltaT: real, flowLmin: real, heatPower: real, cop: Option<real>)

  /** The dashboard's derivation from electrical power (code "2054", kW), water flow (T39, m3/h),
      flow temperature (T02) and return temperature (T01). */
  function Derive(powerKw: real, flowM3h: real, t02: real, t01: real): (d: Derived)
    ensures d.deltaT == t02 - t01
    ensures d.flowLmin * 60.0 == flowM3h * 1000.0
    ensures d.flowLmin > 0.0 ==> d.heatPower * 60.0 == d.flowLmin * d.deltaT * WaterHeat
    ensures d.flowLmin <= 0.0 ==> d.heatPower == 0.0
    ensures d.cop.None? <==> powerKw <= PowerGuard
    ensures d.cop.Some? ==> d.cop.value <= CopCap
    ensures d.cop.Some? && d.heatPower <= CopCap * powerKw ==> d.cop.value * powerKw == d.heatPower
    ensures d.cop.Some? && d.heatPower > CopCap * powerKw ==> d.cop.value == CopCap
  {
    var deltaT := t02 - t01;
    var flowLmin := flowM3h * 1000.0 / 60.0;
    var heat := if flowLmin > 0.0 then flowLmin * deltaT * WaterHeat / 60.0 else 0.0;
    var cop := if powerKw > PowerGuard then Some(Min(heat / powerKw, CopCap)) else None;
    Derived(deltaT, flowLmin, heat, cop)
  }

  function Min(a: real, b: real): real {
    if a <= b then a else b
  }

  /** The four conversions `log_reading` makes before deriving, in the order it makes them;
      None when one of them raises (log_reading then writes nothing and returns False). */
  function ServerMetrics(p: Params): (r: Option<Derived>)
    ensures r.Some? <==> (FloatOr0(p, "2054").Some? && FloatOr0(p, "T39").Some?
                          && FloatOr0(p, "T02").Some? && FloatOr0(p, "T01").Some?)
    ensures r.Some? ==> r.value == Derive(FloatOr0(p, "2054").value, FloatOr0(p, "T39").value,
                                          FloatOr0(p, "T02").value, FloatOr0(p, "T01").value)
  {
    var power :- FloatOr0(p, "2054");
    var flow :- FloatOr0(p, "T39");
    var t02 :- FloatOr0(p, "T02");
    var t01 :- FloatOr0(p, "T01");
    Some(Derive(power, flow, t02, t01))
  }

  /** A reading with flow 1.2 m3/h, 40 degrees out, 30 back and 2 kW drawn: the heat is
      20 l/min * 10 K * 4.186 / 60 (about 13.95 kW) and the COP is capped at 5. */
  lemma ExampleReading()
    ensures Derive(2.0, 1.2, 40.0, 30.0) == Derived(10.0, 20.0, 20.0 * 10.0 * WaterHeat / 60.0, Some(CopCap))
  {
  }

  /** The stored COP is not bounded below by 0: a return temperature above the flow
      temperature gives a negative heat output and a negative COP. */
  lemma NegativeCopPossible()
    ensures Derive(2.0, 1.2, 30.0, 40.0).cop.Some? && Derive(2.0, 1.2, 30.0, 40.0).cop.value < 0.0
  {
  }

  /** The values `calculateCOP` returns to the page. */
  datatype PageCop = PageCop(cop: real, powerIn: real, heatPower: real, deltaT: real, flowLmin: real)

  /** The page script's `calculateCOP` (no zero-flow branch, 0 instead of null under the guard). */
  function CalculateCop(p: Params): (c: PageCop)
    ensures c.powerIn == JsFloat(p, "2054")
    ensures c.deltaT == JsFloat(p, "T02") - JsFloat(p, "T01")
    ensures c.flowLmin * 60.0 == JsFloat(p, "T39") * 1000.0
    ensures c.heatPower * 60.0 == c.flowLmin * c.deltaT * WaterHeat
    ensures c.powerIn <= PowerGuard ==> c.cop == 0.0
    ensures c.powerIn > PowerGuard ==> c.cop <= CopCap && (c.cop == CopCap || c.cop * c.powerIn == c.heatPower)
  {
    var powerIn := JsFloat(p, "2054");
    var deltaT := JsFloat(p, "T02") - JsFloat(p, "T01");
    var flowLmin := JsFloat(p, "T39") * 1000.0 / 60.0;
    var heat := flowLmin * deltaT * WaterHeat / 60.0;
    var cop := if powerIn > PowerGuard then Min(heat / powerIn, CopCap) else 0.0;
    PageCop(cop, powerIn, heat, deltaT, flowLmin)
  }

  /** Where both conversions agree on the four inputs, the page shows the stored heat output
      whenever water flows, and the stored COP whenever one is stored (0 where NULL is stored). */
  lemma {:induction false} PageAgreesWithServer(p: Params)
    requires forall c | c in ["2054", "T39", "T02", "T01"] :: FloatOr0(p, c) == Some(JsFloat(p, c))
    ensures ServerMetrics(p).Some?
    ensures ServerMetrics(p).value.flowLmin > 0.0 ==> ServerMetrics(p).value.heatPower == CalculateCop(p).heatPower
    ensures ServerMetrics(p).value.cop.Some? && ServerMetrics(p).value.flowLmin > 0.0 ==>
              ServerMetrics(p).value.cop.value == CalculateCop(p).cop
    ensures ServerMetrics(p).value.cop.None? ==> CalculateCop(p).cop == 0.0
  {
    assert FloatOr0(p, "2054") == Some(JsFloat(p, "2054"));
    assert FloatOr0(p, "T39") == Some(JsFloat(p, "T39"));
    assert FloatOr0(p, "T02") == Some(JsFloat(p, "T02"));
    assert FloatOr0(p, "T01") == Some(JsFloat(p, "T01"));
  }

  /** The two variants part ways on a reversed flow: the server stores 0 kW, the page shows a
      non-zero heat output. */
  lemma ReverseFlowDiffers()
    ensures var p := map["T39" := Value(Some("-1.2"), Some(-1.2)), "T02" := Value(Some("40"), Some(40.0)),
                         "T01" := Value(Some("30"), Some(30.0))];
            ServerMetrics(p).Some? && ServerMetrics(p).value.heatPower == 0.0 && CalculateCop(p).heatPower != 0.0
  {
  }
}
