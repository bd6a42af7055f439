/** The cloud's history series as the dashboard reads them: per-series `dateTime -> value`
    maps, the union of their timestamps, the sampling frequency a time range asks for, and
    the COP estimate shown for cloud rows. */
module Series {
  import opened Wrappers
  import opened Values
  import opened Dicts
  import opened Order
  import opened Client

  /** The history addresses: flow temperature (T02), tank temperature (T06), outdoor
      temperature (T04) and electrical power in kW. */
  const FlowAddress := "2046"
  const TankAddress := "2047"
  const OutdoorAddress := "2048"
  const PowerAddress := "2054"

  /** Date parsers, one per strptime format; None where the text does not match. A parsed
      time is in whole seconds on the local clock. */
  type Parser = string -> Option<int>

  /** The points that `for v in (data.get('valueList', []) if isinstance(data, dict) else [])`
      visits; None when the valueList is null, on which the loop raises. */
  function ValueList(o: ObjectResult): Option<seq<HistoryPoint>> {
    match o
    case History(Points(vs), _) => Some(vs)
    case History(NullList, _) => None
    case _ => Some([])
  }

  /** `data.get('title') if isinstance(data, dict) else None`. */
  function Title(o: ObjectResult): Option<string> {
    match o
    case History(_, t) => t
    case _ => None
  }

  /** A point that `{v['dateTime']: float(v['addressValue'])}` reads without raising. */
  predicate Readable(p: HistoryPoint) {
    p.dateTime.Some? && p.addressValue.Some? && p.addressValue.value.text.Some? && p.addressValue.value.number.Some?
  }

  /** The (dateTime, value) pairs of the points, in order; None when one of them raises. */
  function PointPairs(vs: seq<HistoryPoint>): (r: Option<seq<(string, real)>>)
    ensures r.Some? <==> forall i | 0 <= i < |vs| :: Readable(vs[i])
    ensures r.Some? ==> |r.value| == |vs| && forall i | 0 <= i < |vs| ::
              r.value[i] == (vs[i].dateTime.value, vs[i].addressValue.value.number.value)
    decreases |vs|
  {
    if vs == [] then Some([])
    else if !Readable(vs[0]) then None
    else
      match PointPairs(vs[1..])
      case Some(rest) => Some([(vs[0].dateTime.value, vs[0].addressValue.value.number.value)] + rest)
      case None => None
  }

  /** The `dateTime -> value` map of one series; None when building it raises. */
  function SeriesMap(o: ObjectResult): Option<map<string, real>> {
    var vs :- ValueList(o);
    match PointPairs(vs)
    case Some(ps) => Some(FromPairs(ps))
    case None => None
  }

  /** A series map holds exactly the points' dateTimes, each with the value of its last point. */
  lemma SeriesLastWins(o: ObjectResult)
    requires ValueList(o).Some?
    requires forall i | 0 <= i < |ValueList(o).value| :: Readable(ValueList(o).value[i])
    ensures SeriesMap(o).Some?
    ensures var vs := ValueList(o).value;
            forall d :: d in SeriesMap(o).value <==> exists i | 0 <= i < |vs| :: vs[i].dateTime == Some(d)
    ensures var vs := ValueList(o).value;
            forall i | 0 <= i < |vs| :: (forall j | i < j < |vs| :: vs[j].dateTime != vs[i].dateTime) ==>
              SeriesMap(o).value[vs[i].dateTime.value] == vs[i].addressValue.value.number.value
  {
    var vs := ValueList(o).value;
    var ps := PointPairs(vs).value;
    FromPairsLastWins(ps);
    forall d ensures d in SeriesMap(o).value <==> exists i | 0 <= i < |vs| :: vs[i].dateTime == Some(d) {
      if exists i | 0 <= i < |vs| :: vs[i].dateTime == Some(d) {
        var i :| 0 <= i < |vs| && vs[i].dateTime == Some(d);
        assert ps[i].0 == d;
      }
      if d in SeriesMap(o).value {
        var i :| 0 <= i < |ps| && ps[i].0 == d;
        assert vs[i].dateTime == Some(d);
      }
    }
    forall i | 0 <= i < |vs| && (forall j | i < j < |vs| :: vs[j].dateTime != vs[i].dateTime)
      ensures SeriesMap(o).value[vs[i].dateTime.value] == vs[i].addressValue.value.number.value
    {
      assert forall j | i < j < |ps| :: ps[j].0 != ps[i].0 by {
        forall j | i < j < |ps| ensures ps[j].0 != ps[i].0 {
          assert ps[j].0 == vs[j].dateTime.value;
        }
      }
    }
  }

  /** A reply that is not an object, or an object without a valueList, gives an empty series;
      a null valueList raises. */
  lemma NonObjectIsEmptySeries(o: ObjectResult)
    ensures !o.History? || o.valueList.NoList? ==> SeriesMap(o) == Some(map[])
    ensures o.History? && o.valueList.NullList? ==> SeriesMap(o).None?
  {
  }

  /** `series.get(key)`. */
  function Lookup(m: map<string, real>, key: string): (r: Option<real>)
    ensures r.Some? <==> key in m
    ensures r.Some? ==> r.value == m[key]
  {
    if key in m then Some(m[key]) else None
  }

  /** The four series of one history request, by address. */
  datatype Series4 = Series4(flow: map<string, real>, tank: map<string, real>,
                             outdoor: map<string, real>, power: map<string, real>)

  /** The bodies of the four history reads one dashboard request issues, in order: flow, tank,
      outdoor, power. */
  function FourReads(deviceCode: string, startTime: string, endTime: string, frequency: string): seq<Body> {
    [HistoryBody(deviceCode, FlowAddress, startTime, endTime, frequency),
     HistoryBody(deviceCode, TankAddress, startTime, endTime, frequency),
     HistoryBody(deviceCode, OutdoorAddress, startTime, endTime, frequency),
     HistoryBody(deviceCode, PowerAddress, startTime, endTime, frequency)]
  }

  /** The four history reads one dashboard request issues on its client, one after another. */
  method ReadFour(client: PerifalClient, deviceCode: string, startTime: string, endTime: string, frequency: string)
    returns (flow: ObjectResult, tank: ObjectResult, outdoor: ObjectResult, power: ObjectResult)
    modifies client
    ensures var r0 := old(client.replies);
            var r1 := AfterHistory(r0);
            var r2 := AfterHistory(r1);
            var r3 := AfterHistory(r2);
            && flow == HistoryOutcome(r0) && tank == HistoryOutcome(r1)
            && outdoor == HistoryOutcome(r2) && power == HistoryOutcome(r3)
            && client.replies == AfterHistory(r3)
    ensures client.sent == old(client.sent) + HistoriesSent(FourReads(deviceCode, startTime, endTime, frequency),
                                                            LoginBody(client.username, client.passwordDigest),
                                                            old(client.token), old(client.replies))
  {
    ghost var login := LoginBody(client.username, client.passwordDigest);
    ghost var bodies := FourReads(deviceCode, startTime, endTime, frequency);
    ghost var t0, rs0, sent0 := client.token, client.replies, client.sent;
    flow := client.GetHistory(deviceCode, FlowAddress, startTime, endTime, frequency);
    ghost var h0 := HistorySent(bodies[0], login, t0, rs0);
    assert client.sent == sent0 + h0;
    ghost var t1, rs1, sent1 := client.token, client.replies, client.sent;
    tank := client.GetHistory(deviceCode, TankAddress, startTime, endTime, frequency);
    ghost var h1 := HistorySent(bodies[1], login, t1, rs1);
    assert client.sent == sent1 + h1;
    ghost var t2, rs2, sent2 := client.token, client.replies, client.sent;
    outdoor := client.GetHistory(deviceCode, OutdoorAddress, startTime, endTime, frequency);
    ghost var h2 := HistorySent(bodies[2], login, t2, rs2);
    assert client.sent == sent2 + h2;
    ghost var t3, rs3, sent3 := client.token, client.replies, client.sent;
    power := client.GetHistory(deviceCode, PowerAddress, startTime, endTime, frequency);
    ghost var h3 := HistorySent(bodies[3], login, t3, rs3);
    assert client.sent == sent3 + h3;
    HistoriesSentFour(bodies, login, t0, t1, t2, t3, rs0, rs1, rs2, rs3);
    ConcatFour(sent0, h0, h1, h2, h3);
  }

  lemma ConcatFour<T>(a: seq<T>, b: seq<T>, c: seq<T>, d: seq<T>, e: seq<T>)
    ensures a + b + c + d + e == a + (b + (c + (d + e)))
  {
  }

  /** Four reads in a row send the requests of each read, in turn. */
  lemma HistoriesSentFour(bodies: seq<Body>, login: Body, t0: Option<string>, t1: Option<string>, t2: Option<string>,
                          t3: Option<string>, rs0: seq<Response>, rs1: seq<Response>, rs2: seq<Response>, rs3: seq<Response>)
    requires |bodies| == 4
    requires t1 == TokenAfterHistory(t0, rs0) && rs1 == AfterHistory(rs0)
    requires t2 == TokenAfterHistory(t1, rs1) && rs2 == AfterHistory(rs1)
    requires t3 == TokenAfterHistory(t2, rs2) && rs3 == AfterHistory(rs2)
    ensures HistoriesSent(bodies, login, t0, rs0)
         == HistorySent(bodies[0], login, t0, rs0) + (HistorySent(bodies[1], login, t1, rs1)
            + (HistorySent(bodies[2], login, t2, rs2) + HistorySent(bodies[3], login, t3, rs3)))
  {
    var h0, h1 := HistorySent(bodies[0], login, t0, rs0), HistorySent(bodies[1], login, t1, rs1);
    var h2, h3 := HistorySent(bodies[2], login, t2, rs2), HistorySent(bodies[3], login, t3, rs3);
    HistoriesSentCons(bodies[3..], login, t3, rs3);
    assert bodies[3..][1..] == [];
    assert HistoriesSent(bodies[3..], login, t3, rs3) == h3 + [] == h3;
    HistoriesSentCons(bodies[2..], login, t2, rs2);
    assert bodies[2..][1..] == bodies[3..];
    HistoriesSentCons(bodies[1..], login, t1, rs1);
    assert bodies[1..][1..] == bodies[2..];
    HistoriesSentCons(bodies, login, t0, rs0);
  }

  /** The first read's requests, then the rest's from the token and replies it leaves. */
  lemma HistoriesSentCons(bodies: seq<Body>, login: Body, t: Option<string>, rs: seq<Response>)
    requires |bodies| > 0
    ensures HistoriesSent(bodies, login, t, rs)
         == HistorySent(bodies[0], login, t, rs) + HistoriesSent(bodies[1..], login, TokenAfterHistory(t, rs), AfterHistory(rs))
  {
  }

  /** The four series that four history reads in a row (flow, tank, outdoor, power) give for
      the replies still scripted; None when one of them does not convert. */
  function FourSeries(replies: seq<Response>): Option<Series4> {
    var r1 := AfterHistory(replies);
    var r2 := AfterHistory(r1);
    var r3 := AfterHistory(r2);
    var flow := SeriesMap(HistoryOutcome(replies));
    var tank := SeriesMap(HistoryOutcome(r1));
    var outdoor := SeriesMap(HistoryOutcome(r2));
    var power := SeriesMap(HistoryOutcome(r3));
    if flow.Some? && tank.Some? && outdoor.Some? && power.Some? then
      Some(Series4(flow.value, tank.value, outdoor.value, power.value))
    else None
  }

  /** The requested range to sampling frequency: hourly points up to three days, then weekly,
      then monthly. */
  function Frequency(hours: int): (f: string)
    ensures f in {"day", "week", "month"}
    ensures f == "day" <==> hours <= 72
    ensures f == "month" <==> hours > 168
  {
    if hours <= 72 then "day" else if hours <= 168 then "week" else "month"
  }

  function FrequencyRank(f: string): nat {
    if f == "day" then 0 else if f == "week" then 1 else 2
  }

  /** A longer range never asks for finer sampling. */
  lemma FrequencyCoarsens(h1: int, h2: int)
    requires h1 <= h2
    ensures FrequencyRank(Frequency(h1)) <= FrequencyRank(Frequency(h2))
  {
  }

  /** The heat output the cloud COP assumes: 50 l/min at a 2 K rise. */
  const EstimatedHeat: real := 50.0 * 2.0 * 4.186 / 60.0

  /** The COP shown for a cloud row: the fixed heat estimate over the electrical power, when a
      non-zero flow temperature is present and the power exceeds 0.1 kW. */
  function CloudCop(flowTemp: Option<real>, powerKw: Option<real>): (c: Option<real>)
    ensures c.Some? <==> flowTemp.Some? && flowTemp.value != 0.0 && powerKw.Some? && powerKw.value > 0.1
    ensures c.Some? ==> c.value * powerKw.value == EstimatedHeat
    ensures c.Some? ==> 0.0 < c.value < EstimatedHeat * 10.0
  {
    if flowTemp.Some? && flowTemp.value != 0.0 && powerKw.Some? && powerKw.value > 0.1 then
      Some(EstimatedHeat / powerKw.value)
    else None
  }

  /** One merged row of the cloud history view. */
  datatype CloudReading = CloudReading(timestamp: int, t02Flow: Option<real>, t06: Option<real>,
                                       t04Outdoor: Option<real>, t01Return: Option<real>,
                                       cop: Option<real>, t39PowerKw: Option<real>)

  /** The row for one dateTime key, parsed to `timestamp`: a lookup in each series; the cloud
      has no return temperature. */
  function CloudRow(key: string, timestamp: int, s: Series4): CloudReading {
    var flow := Lookup(s.flow, key);
    var power := Lookup(s.power, key);
    CloudReading(timestamp, flow, Lookup(s.tank, key), Lookup(s.outdoor, key), None, CloudCop(flow, power), power)
  }

  /** All four series' keys. */
  function AllTimes(s: Series4): set<string> {
    s.flow.Keys + s.tank.Keys + s.outdoor.Keys + s.power.Keys
  }

  /** The merged view over `keys` in order: one row per key that parses, keys that do not are
      skipped. */
  function HistoryRows(keys: seq<string>, s: Series4, parse: Parser): seq<CloudReading>
    decreases |keys|
  {
    if keys == [] then []
    else
      var init := HistoryRows(keys[..|keys| - 1], s, parse);
      var key := keys[|keys| - 1];
      if parse(key).Some? then init + [CloudRow(key, parse(key).value, s)] else init
  }

  /** The number of keys that parse. */
  function Parsed(keys: seq<string>, parse: Parser): (n: nat)
    ensures n <= |keys|
    decreases |keys|
  {
    if keys == [] then 0
    else Parsed(keys[..|keys| - 1], parse) + (if parse(keys[|keys| - 1]).Some? then 1 else 0)
  }

  /** Every row comes from a parsing key; every parsing key has its row; there
      is one row per parsing key. */
  lemma {:induction false} HistoryRowsFromKeys(keys: seq<string>, s: Series4, parse: Parser)
    ensures |HistoryRows(keys, s, parse)| == Parsed(keys, parse)
    ensures forall r | r in HistoryRows(keys, s, parse) ::
              exists k | k in keys :: parse(k) == Some(r.timestamp) && r == CloudRow(k, r.timestamp, s)
    ensures forall k | k in keys && parse(k).Some? :: CloudRow(k, parse(k).value, s) in HistoryRows(keys, s, parse)
    decreases |keys|
  {
    if keys != [] {
      var init := keys[..|keys| - 1];
      HistoryRowsFromKeys(init, s, parse);
      var key := keys[|keys| - 1];
      assert keys == init + [key];
      forall k | k in keys && parse(k).Some?
        ensures CloudRow(k, parse(k).value, s) in HistoryRows(keys, s, parse)
      {
        if k != key { assert k in init; }
      }
    }
  }
}
