/** The dashboard's readings table: one row per hour, written by the poller (an upsert, last
    write wins) and by the cloud import (insert-or-ignore, first write wins), and read back as a
    time range and as summary statistics. */
module Readings {
  import opened Wrappers
  import opened Values
  import opened Metrics
  import opened Order
  import opened Client
  import opened Series

  /** The columns of one row; None is SQL NULL. */
  datatype Row = Row(
    t01Return: Option<real>, t02Flow: Option<real>, t04Outdoor: Option<real>, t06Tank: Option<real>,
    t12Compressor: Option<real>, t33CompFreq: Option<real>,
    t39PowerKw: Option<real>, d12FlowRate: Option<real>,
    copCalculated: Option<real>, heatPowerKw: Option<real>, mode: Option<string>)

  /** The start of the hour holding `t` (seconds on the local clock). */
  function HourOf(t: int): (h: int)
    ensures h % 3600 == 0
    ensures h <= t < h + 3600
  {
    t - t % 3600
  }

  /** The row `log_reading` writes for a snapshot, None when one of its conversions raises. The
      electrical power (code "2054") goes to the column named for T39, and the water flow (T39)
      to the flow-rate column. */
  function LoggedRow(p: Params): (r: Option<Row>)
    ensures r.Some? <==> ServerMetrics(p).Some? && FloatOr0(p, "T04").Some? && FloatOr0(p, "T06").Some?
                         && FloatOr0(p, "T12").Some? && FloatOr0(p, "T33").Some?
    ensures r.Some? ==> r.value.t39PowerKw == FloatOr0(p, "2054") && r.value.d12FlowRate == FloatOr0(p, "T39")
    ensures r.Some? ==> r.value.t01Return == FloatOr0(p, "T01") && r.value.t02Flow == FloatOr0(p, "T02")
                        && r.value.t04Outdoor == FloatOr0(p, "T04") && r.value.t06Tank == FloatOr0(p, "T06")
                        && r.value.t12Compressor == FloatOr0(p, "T12") && r.value.t33CompFreq == FloatOr0(p, "T33")
    ensures r.Some? ==> r.value.copCalculated == ServerMetrics(p).value.cop
                        && r.value.heatPowerKw == Some(ServerMetrics(p).value.heatPower)
    ensures r.Some? ==> r.value.mode == (if "Mode" in p then p["Mode"].text else Some(""))
  {
    var d :- ServerMetrics(p);
    if FloatOr0(p, "T04").None? || FloatOr0(p, "T06").None? || FloatOr0(p, "T12").None? || FloatOr0(p, "T33").None? then
      None
    else
      Some(Row(FloatOr0(p, "T01"), FloatOr0(p, "T02"), FloatOr0(p, "T04"), FloatOr0(p, "T06"),
               FloatOr0(p, "T12"), FloatOr0(p, "T33"), FloatOr0(p, "2054"), FloatOr0(p, "T39"),
               d.cop, Some(d.heatPower), if "Mode" in p then Text(p, "Mode") else Some("")))
  }

  /** A logged COP is NULL exactly when the power is at most 0.1 kW, and never above 5. */
  lemma LoggedCopGuardedAndCapped(p: Params)
    requires LoggedRow(p).Some?
    ensures var r := LoggedRow(p).value;
            && (r.copCalculated.None? <==> r.t39PowerKw.value <= PowerGuard)
            && (r.copCalculated.Some? ==> r.copCalculated.value <= CopCap)
  {
  }

  /** The table after `log_reading(p)` at clock `now`: the row replaces whatever the hour held,
      or nothing changes when a conversion raises. */
  function LogAt(rows: map<int, Row>, p: Params, now: int): map<int, Row> {
    match LoggedRow(p)
    case Some(r) => rows[HourOf(now) := r]
    case None => rows
  }

  /** Two writes within one hour leave one row for that hour with the second write's columns;
      every other hour is as before. */
  lemma SameHourLastWriteWins(rows: map<int, Row>, p1: Params, n1: int, p2: Params, n2: int)
    requires HourOf(n1) == HourOf(n2) && LoggedRow(p2).Some?
    ensures var after := LogAt(LogAt(rows, p1, n1), p2, n2);
            && after == LogAt(rows, p2, n2)
            && after.Keys == rows.Keys + {HourOf(n2)}
            && after[HourOf(n2)] == LoggedRow(p2).value
            && forall t | t in rows && t != HourOf(n2) :: after[t] == rows[t]
  {
  }

  /** The timestamps the import reads: the flow, tank and outdoor keys (the power series only
      fills a column). */
  function ImportKeys(s: Series4): set<string> {
    s.flow.Keys + s.tank.Keys + s.outdoor.Keys
  }

  /** The row the import inserts for one key. */
  function ImportedRow(key: string, s: Series4): Row {
    Row(None, Lookup(s.flow, key), Lookup(s.outdoor, key), Lookup(s.tank, key), None, None,
        Lookup(s.power, key), None, None, None, None)
  }

  function ParseableIn(keys: set<string>, parse: Parser): set<string> {
    set k | k in keys && parse(k).Some?
  }

  /** `after` is `before` with the import of `keys` applied: no existing row changes, every key
      that parses has a row at its timestamp, and every new row is the imported row of a key
      that parses to it. When several keys parse to one timestamp, which one wins depends on
      the set's iteration order. */
  ghost predicate Imported(before: map<int, Row>, after: map<int, Row>, keys: set<string>, s: Series4, parse: Parser) {
    && (forall t | t in before :: t in after && after[t] == before[t])
    && (forall k | k in keys && parse(k).Some? :: parse(k).value in after)
    && (forall t | t in after && t !in before :: exists k | k in keys :: parse(k) == Some(t) && after[t] == ImportedRow(k, s))
  }

  lemma ParseableStep(done: set<string>, key: string, parse: Parser)
    requires key !in done
    ensures |ParseableIn(done + {key}, parse)| == |ParseableIn(done, parse)| + (if parse(key).Some? then 1 else 0)
  {
    if parse(key).Some? {
      assert ParseableIn(done + {key}, parse) == ParseableIn(done, parse) + {key};
    } else {
      assert ParseableIn(done + {key}, parse) == ParseableIn(done, parse);
    }
  }

  function Elements(order: seq<string>): set<string> {
    set k | k in order
  }

  predicate Distinct(order: seq<string>) {
    forall i, j | 0 <= i < j < |order| :: order[i] != order[j]
  }

  /** The table after inserting the keys of `order` one after the other, each skipped when it
      does not parse or its timestamp already has a row. */
  function InsertAll(rows: map<int, Row>, order: seq<string>, s: Series4, parse: Parser): map<int, Row>
    decreases |order|
  {
    if order == [] then rows
    else
      var prev := InsertAll(rows, order[..|order| - 1], s, parse);
      var key := order[|order| - 1];
      if parse(key).Some? && parse(key).value !in prev then prev[parse(key).value := ImportedRow(key, s)] else prev
  }

  lemma {:induction false} InsertAllImported(before: map<int, Row>, order: seq<string>, s: Series4, parse: Parser)
    ensures Imported(before, InsertAll(before, order, s, parse), Elements(order), s, parse)
    decreases |order|
  {
    if order != [] {
      var init := order[..|order| - 1];
      var key := order[|order| - 1];
      InsertAllImported(before, init, s, parse);
      ImportStep(before, InsertAll(before, init, s, parse), Elements(init), key, s, parse);
      assert Elements(order) == Elements(init) + {key} by {
        assert order == init + [key];
      }
    }
  }

  lemma {:induction false} ParsedCountsKeys(order: seq<string>, parse: Parser)
    requires Distinct(order)
    ensures Parsed(order, parse) == |ParseableIn(Elements(order), parse)|
    decreases |order|
  {
    if order != [] {
      var init := order[..|order| - 1];
      var key := order[|order| - 1];
      ParsedCountsKeys(init, parse);
      assert Elements(order) == Elements(init) + {key} by {
        assert order == init + [key];
      }
      assert key !in Elements(init);
      ParseableStep(Elements(init), key, parse);
    }
  }

  /** One turn of the insert loop keeps `Imported` for the keys seen so far. */
  lemma ImportStep(before: map<int, Row>, rows: map<int, Row>, done: set<string>, key: string,
                   s: Series4, parse: Parser)
    requires Imported(before, rows, done, s, parse)
    ensures var next := if parse(key).Some? && parse(key).value !in rows then rows[parse(key).value := ImportedRow(key, s)] else rows;
            Imported(before, next, done + {key}, s, parse)
  {
    var next := if parse(key).Some? && parse(key).value !in rows then rows[parse(key).value := ImportedRow(key, s)] else rows;
    forall t | t in next && t !in before
      ensures exists k | k in done + {key} :: parse(k) == Some(t) && next[t] == ImportedRow(k, s)
    {
      if t in rows {
        var k :| k in done && parse(k) == Some(t) && rows[t] == ImportedRow(k, s);
        assert k in done + {key};
      } else {
        assert key in done + {key};
      }
    }
  }

  /** The import changes nothing where a row exists: keys that all parse to an existing
      timestamp are counted, yet leave the table as it was. */
  lemma ImportOverExistingRowIsNoOp(before: map<int, Row>, after: map<int, Row>, keys: set<string>,
                                    s: Series4, parse: Parser, t: int)
    requires Imported(before, after, keys, s, parse)
    requires t in before && forall k | k in keys :: parse(k) == Some(t)
    ensures after == before
    ensures |ParseableIn(keys, parse)| == |keys|
  {
    assert ParseableIn(keys, parse) == keys;
    forall u | u in after ensures u in before {
      assert u in before || exists k | k in keys :: parse(k) == Some(u);
    }
    assert forall u | u in before :: u in after;
    assert after.Keys == before.Keys;
    assert forall u | u in after :: after[u] == before[u];
  }

  /** The rows an import adds are never more than the keys it counts. */
  lemma {:induction false} ImportAddsAtMostCounted(before: map<int, Row>, after: map<int, Row>, keys: set<string>,
                                                  s: Series4, parse: Parser)
    requires Imported(before, after, keys, s, parse)
    ensures |after.Keys - before.Keys| <= |ParseableIn(keys, parse)|
  {
    var added := after.Keys - before.Keys;
    var parsed := ParseableIn(keys, parse);
    assert added <= Stamps(parsed, parse) by {
      forall t | t in added ensures t in Stamps(parsed, parse) {
        var k :| k in keys && parse(k) == Some(t) && after[t] == ImportedRow(k, s);
        StampOf(parsed, parse, k);
      }
    }
    StampsBound(parsed, parse);
    SubsetCard(added, Stamps(parsed, parse));
  }

  /** The timestamps the keys of `ks` parse to. */
  ghost function Stamps(ks: set<string>, parse: Parser): set<int>
    requires forall k | k in ks :: parse(k).Some?
  {
    set k | k in ks :: parse(k).value
  }

  lemma StampOf(ks: set<string>, parse: Parser, k: string)
    requires forall k' | k' in ks :: parse(k').Some?
    requires k in ks
    ensures parse(k).value in Stamps(ks, parse)
  {
  }

  lemma {:induction false} StampsBound(ks: set<string>, parse: Parser)
    requires forall k | k in ks :: parse(k).Some?
    ensures |Stamps(ks, parse)| <= |ks|
    decreases |ks|
  {
    if ks != {} {
      var k := Member(ks);
      StampsBound(ks - {k}, parse);
      assert Stamps(ks, parse) == Stamps(ks - {k}, parse) + {parse(k).value};
    }
  }

  lemma {:induction false} SubsetCard(a: set<int>, b: set<int>)
    requires a <= b
    ensures |a| <= |b|
    decreases |b|
  {
    if a != {} {
      var x := Member(a);
      SubsetCard(a - {x}, b - {x});
    }
  }

  /** One reading of the local history view. */
  datatype LocalReading = LocalReading(timestamp: int, t01Return: Option<real>, t02Flow: Option<real>,
                                       t04Outdoor: Option<real>, t06: Option<real>,
                                       t39PowerKw: Option<real>, copCalculated: Option<real>)

  function Project(t: int, r: Row): LocalReading {
    LocalReading(t, r.t01Return, r.t02Flow, r.t04Outdoor, r.t06Tank, r.t39PowerKw, r.copCalculated)
  }

  function ProjectAll(ts: seq<int>, rows: map<int, Row>): (r: seq<LocalReading>)
    requires forall t | t in ts :: t in rows
    ensures |r| == |ts| && forall i | 0 <= i < |ts| :: r[i] == Project(ts[i], rows[ts[i]])
  {
    if ts == [] then [] else [Project(ts[0], rows[ts[0]])] + ProjectAll(ts[1..], rows)
  }

  lemma ProjectedStamps(ts: seq<int>, r: seq<LocalReading>)
    requires |r| == |ts| && forall i | 0 <= i < |ts| :: r[i].timestamp == ts[i]
    ensures forall t :: (exists i | 0 <= i < |r| :: r[i].timestamp == t) <==> t in ts
  {
    forall t ensures (exists i | 0 <= i < |r| :: r[i].timestamp == t) <==> t in ts {
      if t in ts {
        var i :| 0 <= i < |ts| && ts[i] == t;
        assert r[i].timestamp == t;
      }
    }
  }

  /** The range query of `get_local_history`: exactly the rows strictly after `cutoff`, in
      ascending timestamp order, projected to the columns the view shows. */
  function RangeQuery(rows: map<int, Row>, cutoff: int): (r: seq<LocalReading>)
    ensures forall i, j | 0 <= i < j < |r| :: r[i].timestamp < r[j].timestamp
    ensures forall t :: (exists i | 0 <= i < |r| :: r[i].timestamp == t) <==> t in rows && t > cutoff
    ensures forall i | 0 <= i < |r| :: r[i].timestamp in rows && r[i] == Project(r[i].timestamp, rows[r[i].timestamp])
  {
    var ts := SortedInts(After(rows, cutoff));
    var r := ProjectAll(ts, rows);
    ProjectionFacts(ts, rows, r);
    assert forall t :: t in ts <==> t in rows && t > cutoff;
    r
  }

  function After(rows: map<int, Row>, cutoff: int): (s: set<int>)
    ensures forall t :: t in s <==> t in rows && t > cutoff
  {
    set t | t in rows && t > cutoff
  }

  lemma ProjectionFacts(ts: seq<int>, rows: map<int, Row>, r: seq<LocalReading>)
    requires StrictlyAscending(ts) && forall t | t in ts :: t in rows
    requires |r| == |ts| && forall i | 0 <= i < |ts| :: r[i] == Project(ts[i], rows[ts[i]])
    ensures forall i, j | 0 <= i < j < |r| :: r[i].timestamp < r[j].timestamp
    ensures forall t :: (exists i | 0 <= i < |r| :: r[i].timestamp == t) <==> t in ts
    ensures forall i | 0 <= i < |r| :: r[i].timestamp in rows && r[i] == Project(r[i].timestamp, rows[r[i].timestamp])
  {
    ProjectedStamps(ts, r);
  }

  /** Every finite set of keys can be enumerated without repeats. */
  lemma SomeEnumeration(keys: set<string>)
    ensures exists order :: Elements(order) == keys && Distinct(order)
  {
    var order := SortedStrings(keys);
    assert Elements(order) == keys;
  }

  /** Visiting one more key inserts its row when it parses to a new hour, and counts it when
      it parses. */
  lemma InsertStep(rows0: map<int, Row>, order: seq<string>, key: string, s: Series4, parse: Parser)
    ensures var prev := InsertAll(rows0, order, s, parse);
      InsertAll(rows0, order + [key], s, parse)
        == if parse(key).Some? && parse(key).value !in prev then prev[parse(key).value := ImportedRow(key, s)] else prev
    ensures Parsed(order + [key], parse) == Parsed(order, parse) + (if parse(key).Some? then 1 else 0)
  {
    assert (order + [key])[..|order|] == order;
  }

  /** Once every key has been visited, the table holds what `Imported` describes and the count
      is the number of keys that parse. */
  lemma LoopDone(rows0: map<int, Row>, order: seq<string>, keys: set<string>, s: Series4, parse: Parser)
    requires Elements(order) == keys && Distinct(order)
    ensures Imported(rows0, InsertAll(rows0, order, s, parse), keys, s, parse)
    ensures Parsed(order, parse) == |ParseableIn(keys, parse)|
  {
    InsertAllImported(rows0, order, s, parse);
    ParsedCountsKeys(order, parse);
  }

  /** The loop over the key union: Python visits the set in an order it does not fix, so the
      model takes any enumeration of it without repeats. */
  method InsertLoop(rows0: map<int, Row>, s: Series4, parse: Parser) returns (rows: map<int, Row>, imported: nat)
    ensures imported == |ParseableIn(ImportKeys(s), parse)|
    ensures Imported(rows0, rows, ImportKeys(s), s, parse)
  {
    var keys := ImportKeys(s);
    SomeEnumeration(keys);
    var order :| Elements(order) == keys && Distinct(order);
    rows := rows0;
    imported := 0;
    for i := 0 to |order|
      invariant rows == InsertAll(rows0, order[..i], s, parse)
      invariant imported == Parsed(order[..i], parse)
    {
      var key := order[i];
      assert order[..i + 1] == order[..i] + [key];
      InsertStep(rows0, order[..i], key, s, parse);
      match parse(key) {
        case Some(timestamp) =>
          if timestamp !in rows {
            rows := rows[timestamp := ImportedRow(key, s)];
          }
          imported := imported + 1;
        case None =>
      }
    }
    assert order[..|order|] == order;
    LoopDone(rows0, order, keys, s, parse);
  }

  /** The summary statistics of the table. */
  datatype Stats = Stats(count: nat, oldest: Option<int>, newest: Option<int>)

  class ReadingStore {
    var rows: map<int, Row>

    constructor ()
      ensures rows == map[]
    {
      rows := map[];
    }

    /** `log_reading`: True and the hour's row replaced, or False and nothing written. */
    method LogReading(p: Params, now: int) returns (ok: bool)
      modifies this
      ensures ok <==> LoggedRow(p).Some?
      ensures rows == LogAt(old(rows), p, now)
    {
      match LoggedRow(p)
      case Some(r) =>
        rows := rows[HourOf(now) := r];
        ok := true;
      case None =>
        ok := false;
    }

    /** The insert step of `import_cloud_history`: every key of the flow, tank and outdoor
        series whose dateTime parses is counted, and inserted unless its hour already has a row. */
    method StoreCloudSeries(s: Series4, parse: Parser) returns (imported: nat)
      modifies this
      ensures imported == |ParseableIn(ImportKeys(s), parse)|
      ensures Imported(old(rows), rows, ImportKeys(s), s, parse)
    {
      rows, imported := InsertLoop(rows, s, parse);
    }

    /** `import_cloud_history`: log in, fetch the four series hourly, and store them; 0 and no
        write when the login fails or a series does not convert. */
    method ImportCloudHistory(client: PerifalClient, deviceCode: string, startTime: string, endTime: string,
                              parse: Parser)
      returns (imported: nat)
      modifies this, client
      ensures var fetched := if LoginOutcome(Next(old(client.replies))) == Returned(true)
                             then FourSeries(Rest(old(client.replies))) else None;
              && (fetched.None? ==> imported == 0 && rows == old(rows))
              && (fetched.Some? ==> imported == |ParseableIn(ImportKeys(fetched.value), parse)|
                                    && Imported(old(rows), rows, ImportKeys(fetched.value), fetched.value, parse))
    ensures var r0 := Next(old(client.replies));
            var login := LoginBody(client.username, client.passwordDigest);
            LoginOutcome(r0) == Returned(true) ==>
              client.sent == old(client.sent) + [Request(LoginPath, login, HeaderFor(old(client.token)))]
                             + HistoriesSent(FourReads(deviceCode, startTime, endTime, "day"), login,
                                             TokenAfterLogin(old(client.token), r0), Rest(old(client.replies)))
    {
      var ok := client.Login();
      if ok != Returned(true) {
        return 0;
      }
      var flow, tank, outdoor, power := ReadFour(client, deviceCode, startTime, endTime, "day");
      if SeriesMap(flow).None? || SeriesMap(tank).None? || SeriesMap(outdoor).None? || SeriesMap(power).None? {
        return 0;
      }
      var s := Series4(SeriesMap(flow).value, SeriesMap(tank).value, SeriesMap(outdoor).value, SeriesMap(power).value);
      imported := StoreCloudSeries(s, parse);
    }

    /** `get_local_history`: the rows strictly newer than `hours` before `now`, oldest first. */
    function LocalHistory(hours: int, now: int): (r: seq<LocalReading>)
      reads this
      ensures forall i, j | 0 <= i < j < |r| :: r[i].timestamp < r[j].timestamp
      ensures forall t :: (exists i | 0 <= i < |r| :: r[i].timestamp == t) <==> t in rows && t > now - hours * 3600
    {
      RangeQuery(rows, now - hours * 3600)
    }

    /** `get_db_stats`: the row count and the oldest and newest timestamps. */
    function DbStats(): (st: Stats)
      reads this
      ensures st.count == |rows|
      ensures st.oldest.Some? <==> rows != map[]
      ensures st.newest.Some? <==> rows != map[]
      ensures st.oldest.Some? ==> st.oldest.value in rows && forall t | t in rows :: st.oldest.value <= t
      ensures st.newest.Some? ==> st.newest.value in rows && forall t | t in rows :: t <= st.newest.value
    {
      if rows.Keys == {} then
        assert rows == map[];
        Stats(0, None, None)
      else
        Stats(|rows|, Some(LeastInt(rows.Keys)), Some(GreatestInt(rows.Keys)))
    }
  }
}
