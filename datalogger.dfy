/** The stand-alone data logger: its own COP formula, an append-only readings table, an events
    table, and the change detection of its polling loop. */
module DataLogger {
  import opened Wrappers
  import opened Values

  /** Water flow (l/min) that `calculate_cop` assumes unless told otherwise. */
  const DefaultFlowRate: real := 25.0

  /** (cop, heat_power, delta_t) as `calculate_cop` returns them. */
  datatype LoggerCop = LoggerCop(cop: real, heatPower: real, deltaT: real)

  /** `calculate_cop(data, flow_rate)`: electrical power is taken from T39, there is no zero-flow
      branch and no cap, and any failed conversion gives (0, 0, 0). */
  function CalculateCopAt(data: Params, flowRate: real): (r: LoggerCop)
    ensures !(FloatOr0(data, "T39").Some? && FloatOr0(data, "T02").Some? && FloatOr0(data, "T01").Some?) ==>
              r == LoggerCop(0.0, 0.0, 0.0)
    ensures FloatOr0(data, "T39").Some? && FloatOr0(data, "T02").Some? && FloatOr0(data, "T01").Some? ==>
              && r.deltaT == FloatOr0(data, "T02").value - FloatOr0(data, "T01").value
              && r.heatPower * 60.0 == flowRate * r.deltaT * 4.186
              && (FloatOr0(data, "T39").value <= 0.1 ==> r.cop == 0.0)
              && (FloatOr0(data, "T39").value > 0.1 ==> r.cop * FloatOr0(data, "T39").value == r.heatPower)
  {
    match (FloatOr0(data, "T39"), FloatOr0(data, "T02"), FloatOr0(data, "T01"))
    case (Some(powerIn), Some(flowTemp), Some(returnTemp)) =>
      var deltaT := flowTemp - returnTemp;
      var heat := flowRate * deltaT * 4.186 / 60.0;
      LoggerCop(if powerIn > 0.1 then heat / powerIn else 0.0, heat, deltaT)
    case _ => LoggerCop(0.0, 0.0, 0.0)
  }

  function CalculateCop(data: Params): LoggerCop {
    CalculateCopAt(data, DefaultFlowRate)
  }

  /** Unlike the dashboard's derivation this COP has no ceiling. */
  lemma CopUncapped()
    ensures var data := map["T39" := Value(Some("1"), Some(1.0)), "T02" := Value(Some("40"), Some(40.0)),
                            "T01" := Value(Some("30"), Some(30.0))];
            CalculateCop(data).cop > 5.0
  {
    var data := map["T39" := Value(Some("1"), Some(1.0)), "T02" := Value(Some("40"), Some(40.0)),
                    "T01" := Value(Some("30"), Some(30.0))];
    assert CalculateCop(data).heatPower * 60.0 == 25.0 * 10.0 * 4.186;
  }

  /** The numeric columns of a logged reading, in insertion order (each from the code of that name). */
  const NumericCodes: seq<string> :=
    ["T01", "T02", "T03", "T04", "T05", "T06", "T08", "T10", "T11", "T12", "T15",
     "T33", "T34", "T35", "T36", "T37", "T38", "T39",
     "R01", "M1 Hot Water Target", "M1 Heating Target", "compensate_offset", "compensate_slope"]

  /** One row of the logger's readings table (its id and default timestamp are left to the database). */
  datatype LoggerRow = LoggerRow(
    power: Option<string>, mode: Option<string>, modeState: Option<string>,
    numbers: seq<real>,
    silentMode: Option<string>, fault1: Option<string>, sgStatus: Option<string>,
    cop: LoggerCop)

  /** The conversions of `codes`, None as soon as one of them raises. */
  function Numbers(data: Params, codes: seq<string>): (r: Option<seq<real>>)
    ensures r.Some? <==> forall i | 0 <= i < |codes| :: FloatOr0(data, codes[i]).Some?
    ensures r.Some? ==> |r.value| == |codes|
    ensures r.Some? ==> forall i | 0 <= i < |codes| :: r.value[i] == FloatOr0(data, codes[i]).value
  {
    if codes == [] then Some([])
    else
      match (FloatOr0(data, codes[0]), Numbers(data, codes[1..]))
      case (Some(x), Some(rest)) => Some([x] + rest)
      case _ => None
  }

  /** The row `log_reading` inserts for `data`; None when a conversion raises, in which case no
      row is inserted and the exception reaches the polling loop. */
  function RowOf(data: Params): Option<LoggerRow> {
    match Numbers(data, NumericCodes)
    case Some(numbers) =>
      Some(LoggerRow(Text(data, "Power"), Text(data, "Mode"), Text(data, "ModeState"), numbers,
                     Text(data, "hanControl"), Text(data, "Fault1"), Text(data, "SG Status"),
                     CalculateCop(data)))
    case None => None
  }

  /** A row that was inserted carries the logger's COP of the same snapshot, never the
      (0, 0, 0) fallback of a failed conversion unless the data itself gives it. */
  lemma {:induction false} RowCopFromInsertedData(data: Params)
    requires RowOf(data).Some?
    ensures FloatOr0(data, "T39").Some? && FloatOr0(data, "T02").Some? && FloatOr0(data, "T01").Some?
    ensures RowOf(data).value.numbers[17] == FloatOr0(data, "T39").value
    ensures RowOf(data).value.cop.deltaT == FloatOr0(data, "T02").value - FloatOr0(data, "T01").value
  {
    assert NumericCodes[0] == "T01" && NumericCodes[1] == "T02" && NumericCodes[17] == "T39";
  }

  /** A row of the events table. */
  datatype Event = Event(eventType: string, description: string, before: Option<string>, after: Option<string>)

  /** How a mode code is shown in an event: `modes.get(m, m)` put through an f-string. */
  function ModeName(m: Option<string>): string {
    match m
    case Some("1") => "VÄRME"
    case Some("2") => "KYLA"
    case Some("3") => "VV"
    case Some(s) => s
    case None => "None"
  }

  /** The power event of one loop turn, given the previous and current Power values. */
  function PowerEvent(last: Option<string>, current: Option<string>): (e: Option<Event>)
    ensures e.Some? <==> last.Some? && current != last
    ensures e.Some? ==> e.value.eventType == "power_change" && e.value.before == last && e.value.after == current
    ensures e.Some? ==> (e.value.description == "Pump ON" <==> current == Some("1"))
  {
    if last.Some? && current != last then
      Some(Event("power_change", if current == Some("1") then "Pump ON" else "Pump OFF", last, current))
    else None
  }

  /** The mode event of one loop turn, given the previous and current Mode values. */
  function ModeEvent(last: Option<string>, current: Option<string>): (e: Option<Event>)
    ensures e.Some? <==> last.Some? && current != last
    ensures e.Some? ==> e.value.eventType == "mode_change" && e.value.before == last && e.value.after == current
    ensures e.Some? ==> e.value.description == "Mode: " + ModeName(last) + " → " + ModeName(current)
  {
    if last.Some? && current != last then
      Some(Event("mode_change", "Mode: " + ModeName(last) + " → " + ModeName(current), last, current))
    else None
  }

  function AsSeq(e: Option<Event>): seq<Event> {
    if e.Some? then [e.value] else []
  }

  /** The variables of `run_logger`'s loop and the two tables it appends to. */
  datatype LoopState = LoopState(lastPower: Option<string>, lastMode: Option<string>, count: nat,
                                 readings: seq<LoggerRow>, events: seq<Event>)

  const Start: LoopState := LoopState(None, None, 0, [], [])

  /** One turn of the loop on the snapshot it fetched. An empty snapshot, or one whose row cannot
      be built, changes nothing here (the latter makes the loop log in again). */
  function Turn(s: LoopState, data: Params): (t: LoopState)
    ensures data == map[] || RowOf(data).None? ==> t == s
    ensures data != map[] && RowOf(data).Some? ==>
              && t.readings == s.readings + [RowOf(data).value]
              && t.count == s.count + 1
              && t.lastPower == Text(data, "Power") && t.lastMode == Text(data, "Mode")
              && t.events == s.events + AsSeq(PowerEvent(s.lastPower, Text(data, "Power")))
                                      + AsSeq(ModeEvent(s.lastMode, Text(data, "Mode")))
  {
    if data == map[] then s
    else match RowOf(data)
      case None => s
      case Some(row) =>
        var power := Text(data, "Power");
        var mode := Text(data, "Mode");
        LoopState(power, mode, s.count + 1, s.readings + [row],
                  s.events + AsSeq(PowerEvent(s.lastPower, power)) + AsSeq(ModeEvent(s.lastMode, mode)))
  }

  /** The loop state after one turn on each snapshot of `ds`, in order. */
  function Run(s: LoopState, ds: seq<Params>): LoopState
    decreases |ds|
  {
    if ds == [] then s else Run(Turn(s, ds[0]), ds[1..])
  }

  /** Whether a turn on `data` inserts a row (the snapshot is non-empty and converts). */
  predicate Logs(data: Params) {
    data != map[] && RowOf(data).Some?
  }

  /** The snapshots of `ds` that insert a row, in order. */
  function Logged(ds: seq<Params>): (r: seq<Params>)
    ensures |r| <= |ds|
    ensures forall d | d in r :: Logs(d)
  {
    if ds == [] then [] else (if Logs(ds[0]) then [ds[0]] else []) + Logged(ds[1..])
  }

  /** The value of `code` in each snapshot (None where it is absent). */
  function Column(ds: seq<Params>, code: string): (r: seq<Option<string>>)
    ensures |r| == |ds| && forall i | 0 <= i < |ds| :: r[i] == Text(ds[i], code)
  {
    if ds == [] then [] else [Text(ds[0], code)] + Column(ds[1..], code)
  }

  /** The (before, after) pairs of the events of type `ty`, in order. */
  function Changes(es: seq<Event>, ty: string): seq<(Option<string>, Option<string>)> {
    if es == [] then []
    else (if es[0].eventType == ty then [(es[0].before, es[0].after)] else []) + Changes(es[1..], ty)
  }

  /** The changes in a sequence of observed values, starting from `prev`; a change from an absent
      value is not one, a change to an absent value is. */
  function Transitions(prev: Option<string>, vs: seq<Option<string>>): seq<(Option<string>, Option<string>)>
    decreases |vs|
  {
    if vs == [] then []
    else (if prev.Some? && vs[0] != prev then [(prev, vs[0])] else []) + Transitions(vs[0], vs[1..])
  }

  /** The rows the snapshots of `ds` insert, in order. */
  function RowsOf(ds: seq<Params>): (r: seq<LoggerRow>)
    ensures |r| == |Logged(ds)|
  {
    if ds == [] then [] else (if Logs(ds[0]) then [RowOf(ds[0]).value] else []) + RowsOf(ds[1..])
  }

  lemma {:induction false} ChangesAppend(a: seq<Event>, b: seq<Event>, ty: string)
    ensures Changes(a + b, ty) == Changes(a, ty) + Changes(b, ty)
  {
    if a == [] {
      assert a + b == b;
    } else {
      var h := if a[0].eventType == ty then [(a[0].before, a[0].after)] else [];
      assert (a + b)[0] == a[0] && (a + b)[1..] == a[1..] + b;
      assert Changes(a + b, ty) == h + Changes(a[1..] + b, ty);
      ChangesAppend(a[1..], b, ty);
    }
  }

  /** A prefix of a prefix of `y` is a prefix of `y`. */
  lemma PrefixOfPrefix<T>(x: seq<T>, y: seq<T>, i: nat)
    requires i <= |x| <= |y| && y[..|x|] == x
    ensures y[..i] == x[..i]
  {
  }

  /** When `x` is a prefix of `y`, the tail of `y` from `i` is the tail of `x` from `i` followed
      by what `y` adds. */
  lemma SuffixSplit<T>(x: seq<T>, y: seq<T>, i: nat)
    requires i <= |x| <= |y| && y[..|x|] == x
    ensures y[i..] == x[i..] + y[|x|..]
  {
    assert y == x + y[|x|..];
  }

  /** The loop only appends: rows and events already in the tables stay as they are, and the
      counter counts exactly the rows it appended. */
  lemma {:induction false} RunAppendsOnly(s: LoopState, ds: seq<Params>)
    ensures |s.readings| <= |Run(s, ds).readings| && Run(s, ds).readings[..|s.readings|] == s.readings
    ensures |s.events| <= |Run(s, ds).events| && Run(s, ds).events[..|s.events|] == s.events
    ensures Run(s, ds).readings[|s.readings|..] == RowsOf(ds)
    ensures Run(s, ds).count == s.count + |RowsOf(ds)|
    decreases |ds|
  {
    if ds != [] {
      var t := Turn(s, ds[0]);
      RunAppendsOnly(t, ds[1..]);
      var r := Run(s, ds);
      if Logs(ds[0]) {
        assert r == Run(t, ds[1..]);
        PrefixOfPrefix(t.readings, r.readings, |s.readings|);
        PrefixOfPrefix(t.events, r.events, |s.events|);
        SuffixSplit(t.readings, r.readings, |s.readings|);
        assert t.readings[|s.readings|..] == [RowOf(ds[0]).value];
      }
    }
  }

  /** The events of one turn that inserts a row, split by type. */
  lemma {:induction false} TurnChanges(s: LoopState, d: Params)
    requires Logs(d)
    ensures |s.events| <= |Turn(s, d).events|
    ensures Changes(Turn(s, d).events[|s.events|..], "power_change") == Transitions(s.lastPower, [Text(d, "Power")])
    ensures Changes(Turn(s, d).events[|s.events|..], "mode_change") == Transitions(s.lastMode, [Text(d, "Mode")])
  {
    var p := AsSeq(PowerEvent(s.lastPower, Text(d, "Power")));
    var m := AsSeq(ModeEvent(s.lastMode, Text(d, "Mode")));
    assert Turn(s, d).events[|s.events|..] == p + m;
    ChangesAppend(p, m, "power_change");
    ChangesAppend(p, m, "mode_change");
    assert Changes(m, "power_change") == [] by {
      if m != [] { assert m[1..] == []; }
    }
    assert Changes(p, "mode_change") == [] by {
      if p != [] { assert p[1..] == []; }
    }
    assert Changes(p, "power_change") == Transitions(s.lastPower, [Text(d, "Power")]) by {
      if p != [] { assert p[1..] == []; }
      assert [Text(d, "Power")][1..] == [];
    }
    assert Changes(m, "mode_change") == Transitions(s.lastMode, [Text(d, "Mode")]) by {
      if m != [] { assert m[1..] == []; }
      assert [Text(d, "Mode")][1..] == [];
    }
  }

  lemma {:induction false} TransitionsCons(prev: Option<string>, v: Option<string>, vs: seq<Option<string>>)
    ensures Transitions(prev, [v] + vs) == Transitions(prev, [v]) + Transitions(v, vs)
  {
    assert ([v] + vs)[1..] == vs;
    assert [v][1..] == [];
  }

  /** A null Power reading is a value of its own: "1", null, "1" is one change (to null), and
      the reading after the null compares against nothing. */
  lemma NullPowerInterruptsChanges()
    ensures var ds := [map["Power" := Value(Some("1"), Some(1.0))], map["Power" := Value(None, None)],
                       map["Power" := Value(Some("1"), Some(1.0))]];
            Transitions(None, Column(ds, "Power")) == [(Some("1"), None)]
  {
    var ds := [map["Power" := Value(Some("1"), Some(1.0))], map["Power" := Value(None, None)],
               map["Power" := Value(Some("1"), Some(1.0))]];
    assert Column(ds, "Power") == [Some("1"), None, Some("1")] by {
      assert ds[1..][1..] == [ds[2]];
    }
    TransitionsCons(None, Some("1"), [None, Some("1")]);
    TransitionsCons(Some("1"), None, [Some("1")]);
  }

  /** The power_change and mode_change events the loop appends are exactly the changes of Power
      and of Mode between consecutive snapshots that insert a row, starting from the values it
      last saw. */
  lemma {:induction false} RunEventsAreTransitions(s: LoopState, ds: seq<Params>)
    ensures |s.events| <= |Run(s, ds).events|
    ensures Changes(Run(s, ds).events[|s.events|..], "power_change") == Transitions(s.lastPower, Column(Logged(ds), "Power"))
    ensures Changes(Run(s, ds).events[|s.events|..], "mode_change") == Transitions(s.lastMode, Column(Logged(ds), "Mode"))
    decreases |ds|, 1
  {
    RunAppendsOnly(s, ds);
    if ds != [] {
      if Logs(ds[0]) {
        RunEventsAfterRow(s, ds);
      } else {
        assert Turn(s, ds[0]) == s;
        assert Logged(ds) == Logged(ds[1..]);
        RunEventsAreTransitions(s, ds[1..]);
      }
    }
  }

  /** The inductive step of RunEventsAreTransitions for a first snapshot that inserts a row. */
  lemma {:induction false} RunEventsAfterRow(s: LoopState, ds: seq<Params>)
    requires ds != [] && Logs(ds[0])
    ensures |s.events| <= |Run(s, ds).events|
    ensures Changes(Run(s, ds).events[|s.events|..], "power_change") == Transitions(s.lastPower, Column(Logged(ds), "Power"))
    ensures Changes(Run(s, ds).events[|s.events|..], "mode_change") == Transitions(s.lastMode, Column(Logged(ds), "Mode"))
    decreases |ds|, 0
  {
    var d := ds[0];
    var t := Turn(s, d);
    RunEventsAreTransitions(t, ds[1..]);
    RunAppendsOnly(t, ds[1..]);
    TurnChanges(s, d);
    var r := Run(s, ds);
    assert r == Run(t, ds[1..]);
    var e := t.events[|s.events|..];
    var rest := r.events[|t.events|..];
    SuffixSplit(t.events, r.events, |s.events|);
    ChangesAppend(e, rest, "power_change");
    ChangesAppend(e, rest, "mode_change");
    assert Logged(ds) == [d] + Logged(ds[1..]);
    assert Column(Logged(ds), "Power") == [Text(d, "Power")] + Column(Logged(ds[1..]), "Power");
    assert Column(Logged(ds), "Mode") == [Text(d, "Mode")] + Column(Logged(ds[1..]), "Mode");
    TransitionsCons(s.lastPower, Text(d, "Power"), Column(Logged(ds[1..]), "Power"));
    TransitionsCons(s.lastMode, Text(d, "Mode"), Column(Logged(ds[1..]), "Mode"));
  }

  /** Turns on snapshots that insert no row change nothing. */
  lemma {:induction false} RunWithoutRows(s: LoopState, ds: seq<Params>)
    requires Logged(ds) == []
    ensures Run(s, ds) == s
    decreases |ds|
  {
    if ds != [] {
      assert Logged(ds[1..]) == [];
      RunWithoutRows(s, ds[1..]);
    }
  }

  /** No event is logged for the first snapshot that inserts a row: from a loop that has seen
      neither Power nor Mode, one such snapshot appends no event. */
  lemma {:induction false} FirstReadingHasNoEvent(s: LoopState, ds: seq<Params>)
    requires s.lastPower.None? && s.lastMode.None?
    requires |Logged(ds)| <= 1
    ensures Run(s, ds).events == s.events
    decreases |ds|
  {
    if ds != [] {
      if Logs(ds[0]) {
        assert Logged(ds) == [ds[0]] + Logged(ds[1..]);
        RunWithoutRows(Turn(s, ds[0]), ds[1..]);
      } else {
        assert Logged(ds) == Logged(ds[1..]);
        FirstReadingHasNoEvent(s, ds[1..]);
      }
    }
  }

  /** `run_logger`'s loop over the snapshots its parameter reads returned, in order (the real loop
      never ends; the model runs it over a finite prefix). `relogins` counts the turns whose row
      could not be built, after each of which the loop calls the client's login. */
  method RunLogger(fetched: seq<Params>) returns (st: LoopState, relogins: nat)
    ensures st == Run(Start, fetched)
    ensures relogins == Failures(fetched)
  {
    var lastPower: Option<string> := None;
    var lastMode: Option<string> := None;
    var count: nat := 0;
    var readings: seq<LoggerRow> := [];
    var events: seq<Event> := [];
    relogins := 0;
    var i := 0;
    while i < |fetched|
      invariant 0 <= i <= |fetched|
      invariant Run(LoopState(lastPower, lastMode, count, readings, events), fetched[i..]) == Run(Start, fetched)
      invariant relogins + Failures(fetched[i..]) == Failures(fetched)
    {
      var data := fetched[i];
      ghost var before := LoopState(lastPower, lastMode, count, readings, events);
      assert fetched[i..][0] == data && fetched[i..][1..] == fetched[i + 1..];
      assert Failures(fetched[i..]) == (if data != map[] && RowOf(data).None? then 1 else 0) + Failures(fetched[i + 1..]);
      if data != map[] {
        var row := RowOf(data);
        if row.None? {
          relogins := relogins + 1;
        } else {
          readings := readings + [row.value];
          count := count + 1;
          var currentPower := Text(data, "Power");
          var currentMode := Text(data, "Mode");
          ghost var withPower := events + AsSeq(PowerEvent(lastPower, currentPower));
          if lastPower.Some? && currentPower != lastPower {
            events := events + [PowerEvent(lastPower, currentPower).value];
          }
          assert events == withPower;
          if lastMode.Some? && currentMode != lastMode {
            events := events + [ModeEvent(lastMode, currentMode).value];
          }
          assert events == withPower + AsSeq(ModeEvent(lastMode, currentMode));
          lastPower := currentPower;
          lastMode := currentMode;
        }
      }
      assert LoopState(lastPower, lastMode, count, readings, events) == Turn(before, data);
      i := i + 1;
    }
    st := LoopState(lastPower, lastMode, count, readings, events);
  }

  /** The number of non-empty snapshots in `ds` whose row cannot be built. */
  function Failures(ds: seq<Params>): (n: nat)
    ensures n + |Logged(ds)| <= |ds|
  {
    if ds == [] then 0 else (if ds[0] != map[] && RowOf(ds[0]).None? then 1 else 0) + Failures(ds[1..])
  }
}
