/** The dashboard's JSON endpoints over the cloud API: the merged history view, the energy
    totals and the control pass-through. Each creates a client and logs it in first; a login
    that raises turns the reply into an error reply. */
module CloudApi {
  import opened Wrappers
  import opened Values
  import opened Order
  import opened Client
  import opened Series

  /** The merge loop of `api_history`: over the keys in order, a row per key that parses. */
  method MergeHistory(keys: seq<string>, s: Series4, parse: Parser) returns (rows: seq<CloudReading>)
    ensures rows == HistoryRows(keys, s, parse)
  {
    rows := [];
    var i := 0;
    while i < |keys|
      invariant 0 <= i <= |keys|
      invariant rows == HistoryRows(keys[..i], s, parse)
    {
      var key := keys[i];
      assert keys[..i + 1][..i] == keys[..i];
      var stamp := parse(key);
      if stamp.Some? {
        rows := rows + [CloudRow(key, stamp.value, s)];
      }
      i := i + 1;
    }
    assert keys[..|keys|] == keys;
  }

  /** The requested range: a whole-day span when both dates are given (and not empty),
      otherwise the clock-derived span. */
  function RangeBounds(dateFrom: Option<string>, dateTo: Option<string>, clockStart: string, clockEnd: string): (string, string) {
    if dateFrom.Some? && dateFrom.value != "" && dateTo.Some? && dateTo.value != "" then
      (dateFrom.value + " 00:00:00", dateTo.value + " 23:59:59")
    else (clockStart, clockEnd)
  }

  datatype HistoryReply =
    | HistoryView(readings: seq<CloudReading>, hoursRequested: int, startTime: string, endTime: string,
                  frequency: string, flowTitle: Option<string>, tankTitle: Option<string>, outdoorTitle: Option<string>)
    | HistoryFailed

  /** `api_history`: the four series over the requested range, merged over the sorted union of
      their dateTimes. The frequency follows `hours` even when explicit dates are given. */
  method ApiHistory(client: PerifalClient, deviceCode: string, hours: int, dateFrom: Option<string>, dateTo: Option<string>,
                    clockStart: string, clockEnd: string, parse: Parser)
    returns (reply: HistoryReply)
    modifies client
    ensures var fetched := if LoginOutcome(Next(old(client.replies))) == Raised then None
                           else FourSeries(Rest(old(client.replies)));
            && (reply.HistoryFailed? <==> fetched.None?)
            && (reply.HistoryView? ==>
                  && reply.readings == HistoryRows(SortedStrings(AllTimes(fetched.value)), fetched.value, parse)
                  && reply.frequency == Frequency(hours) && reply.hoursRequested == hours
                  && (reply.startTime, reply.endTime) == RangeBounds(dateFrom, dateTo, clockStart, clockEnd))
    ensures var r0, after := Next(old(client.replies)), Rest(old(client.replies));
            var login := LoginBody(client.username, client.passwordDigest);
            var range := RangeBounds(dateFrom, dateTo, clockStart, clockEnd);
            LoginOutcome(r0) != Raised ==>
              client.sent == old(client.sent) + [Request(LoginPath, login, HeaderFor(old(client.token)))]
                             + HistoriesSent(FourReads(deviceCode, range.0, range.1, Frequency(hours)), login,
                                             TokenAfterLogin(old(client.token), r0), after)
    ensures var after := Rest(old(client.replies));
            reply.HistoryView? ==>
              && reply.flowTitle == Title(HistoryOutcome(after))
              && reply.tankTitle == Title(HistoryOutcome(AfterHistory(after)))
              && reply.outdoorTitle == Title(HistoryOutcome(AfterHistory(AfterHistory(after))))
  {
    var login := client.Login();
    if login == Raised {
      return HistoryFailed;
    }
    var (startTime, endTime) := RangeBounds(dateFrom, dateTo, clockStart, clockEnd);
    var frequency := Frequency(hours);
    var flow, tank, outdoor, power := ReadFour(client, deviceCode, startTime, endTime, frequency);
    if SeriesMap(flow).None? || SeriesMap(tank).None? || SeriesMap(outdoor).None? || SeriesMap(power).None? {
      return HistoryFailed;
    }
    var s := Series4(SeriesMap(flow).value, SeriesMap(tank).value, SeriesMap(outdoor).value, SeriesMap(power).value);
    var rows := MergeHistory(SortedStrings(AllTimes(s)), s, parse);
    reply := HistoryView(rows, hours, startTime, endTime, frequency, Title(flow), Title(tank), Title(outdoor));
  }

  /** The three strptime formats `api_energy` tries, in order: hour, seconds, minutes. */
  datatype Parsers = Parsers(hour: Parser, seconds: Parser, minutes: Parser)

  function ParseAny(ps: Parsers, text: string): (t: Option<int>)
    ensures t.Some? <==> ps.hour(text).Some? || ps.seconds(text).Some? || ps.minutes(text).Some?
    ensures ps.hour(text).Some? ==> t == ps.hour(text)
    ensures ps.hour(text).None? && ps.seconds(text).Some? ==> t == ps.seconds(text)
    ensures ps.hour(text).None? && ps.seconds(text).None? ==> t == ps.minutes(text)
  {
    if ps.hour(text).Some? then ps.hour(text)
    else if ps.seconds(text).Some? then ps.seconds(text)
    else ps.minutes(text)
  }

  /** `float(v.get('addressValue', 0) or 0)`: absent, null or empty reads as 0; None when it raises. */
  function Kwh(v: HistoryPoint): Option<real> {
    if Falsy(v.addressValue) then Some(0.0) else v.addressValue.value.number
  }

  /** The local calendar day of a time. */
  function Day(t: int): int {
    t / 86400
  }

  datatype EnergyPoint = EnergyPoint(timestamp: int, kwh: real)
  datatype Energy = Energy(readings: seq<EnergyPoint>, total: real, today: real, last24: real)

  /** The totals over the points in order; None when a value raises. Every value counts toward
      the total, only the points whose dateTime parses become readings and count toward today
      and the last 24 hours. */
  function EnergyOf(vs: seq<HistoryPoint>, now: int, ps: Parsers): Option<Energy>
    decreases |vs|
  {
    if vs == [] then Some(Energy([], 0.0, 0.0, 0.0))
    else
      var e :- EnergyOf(vs[..|vs| - 1], now, ps);
      var v := vs[|vs| - 1];
      var kwh :- Kwh(v);
      match ParseAny(ps, v.dateTime.GetOr(""))
      case None => Some(e.(total := e.total + kwh))
      case Some(t) =>
        Some(Energy(e.readings + [EnergyPoint(t, kwh)], e.total + kwh,
                    if Day(t) == Day(now) then e.today + kwh else e.today,
                    if t >= now - 86400 then e.last24 + kwh else e.last24))
  }

  /** The sum of all values, parsed or not. */
  function KwhSum(vs: seq<HistoryPoint>): real
    requires forall i | 0 <= i < |vs| :: Kwh(vs[i]).Some?
    decreases |vs|
  {
    if vs == [] then 0.0 else KwhSum(vs[..|vs| - 1]) + Kwh(vs[|vs| - 1]).value
  }

  /** The accumulation loop of `api_energy`. */
  method AccumulateEnergy(vs: seq<HistoryPoint>, now: int, ps: Parsers) returns (e: Option<Energy>)
    ensures e == EnergyOf(vs, now, ps)
  {
    var readings: seq<EnergyPoint> := [];
    var total, today, last24 := 0.0, 0.0, 0.0;
    var i := 0;
    while i < |vs|
      invariant 0 <= i <= |vs|
      invariant EnergyOf(vs[..i], now, ps) == Some(Energy(readings, total, today, last24))
    {
      var v := vs[i];
      assert vs[..i + 1][..i] == vs[..i];
      var kwh := Kwh(v);
      if kwh.None? {
        NoValueNoEnergy(vs, i + 1, now, ps);
        return None;
      }
      total := total + kwh.value;
      var stamp := ParseAny(ps, v.dateTime.GetOr(""));
      if stamp.Some? {
        readings := readings + [EnergyPoint(stamp.value, kwh.value)];
        if Day(stamp.value) == Day(now) {
          today := today + kwh.value;
        }
        if stamp.value >= now - 86400 {
          last24 := last24 + kwh.value;
        }
      }
      i := i + 1;
    }
    assert vs[..|vs|] == vs;
    e := Some(Energy(readings, total, today, last24));
  }

  /** Once a prefix raises, the whole accumulation does. */
  lemma {:induction false} NoValueNoEnergy(vs: seq<HistoryPoint>, k: nat, now: int, ps: Parsers)
    requires 0 < k <= |vs| && EnergyOf(vs[..k], now, ps).None?
    ensures EnergyOf(vs, now, ps).None?
    decreases |vs|
  {
    if k < |vs| {
      assert vs[..|vs| - 1][..k] == vs[..k];
      NoValueNoEnergy(vs[..|vs| - 1], k, now, ps);
    } else {
      assert vs[..k] == vs;
    }
  }

  /** The total is the sum of every value, whether or not its dateTime parses. */
  lemma {:induction false} TotalCountsEveryPoint(vs: seq<HistoryPoint>, now: int, ps: Parsers)
    requires forall i | 0 <= i < |vs| :: Kwh(vs[i]).Some?
    ensures EnergyOf(vs, now, ps).Some?
    ensures EnergyOf(vs, now, ps).value.total == KwhSum(vs)
    decreases |vs|
  {
    if vs != [] {
      TotalCountsEveryPoint(vs[..|vs| - 1], now, ps);
    }
  }

  /** A time on the same calendar day as `now` (or later) is within the last 24 hours. */
  lemma SameDayIsRecent(t: int, now: int)
    requires Day(t) == Day(now)
    ensures t >= now - 86400
  {
  }

  /** For non-negative values: today's sum is within the last-24-hour sum, which is within the
      total; there is at most one reading per point. */
  lemma {:induction false} EnergyBounds(vs: seq<HistoryPoint>, now: int, ps: Parsers)
    requires forall i | 0 <= i < |vs| :: Kwh(vs[i]).Some? ==> Kwh(vs[i]).value >= 0.0
    requires EnergyOf(vs, now, ps).Some?
    ensures var e := EnergyOf(vs, now, ps).value;
            0.0 <= e.today <= e.last24 <= e.total && |e.readings| <= |vs|
    decreases |vs|
  {
    if vs != [] {
      var init := vs[..|vs| - 1];
      assert forall i | 0 <= i < |init| :: init[i] == vs[i];
      EnergyBounds(init, now, ps);
      var v := vs[|vs| - 1];
      var t := ParseAny(ps, v.dateTime.GetOr(""));
      if t.Some? && Day(t.value) == Day(now) {
        SameDayIsRecent(t.value, now);
      }
    }
  }

  datatype EnergyReply = EnergyView(energy: Energy, hours: int) | EnergyFailed

  /** `api_energy`: the power series at hourly frequency over the last `hours`, accumulated. */
  method ApiEnergy(client: PerifalClient, deviceCode: string, hours: int, clockStart: string, clockEnd: string,
                   now: int, ps: Parsers)
    returns (reply: EnergyReply)
    modifies client
    ensures LoginOutcome(Next(old(client.replies))) == Raised ==> reply == EnergyFailed
    ensures LoginOutcome(Next(old(client.replies))) != Raised ==>
              var vl := ValueList(HistoryOutcome(Rest(old(client.replies))));
              reply == if vl.Some? && EnergyOf(vl.value, now, ps).Some?
                       then EnergyView(EnergyOf(vl.value, now, ps).value, hours)
                       else EnergyFailed
    ensures var r0 := Next(old(client.replies));
            var login := LoginBody(client.username, client.passwordDigest);
            LoginOutcome(r0) != Raised ==>
              client.sent == old(client.sent) + [Request(LoginPath, login, HeaderFor(old(client.token)))]
                             + HistorySent(HistoryBody(deviceCode, PowerAddress, clockStart, clockEnd, "day"), login,
                                           TokenAfterLogin(old(client.token), r0), Rest(old(client.replies)))
  {
    var login := client.Login();
    if login == Raised {
      return EnergyFailed;
    }
    var power := client.GetHistory(deviceCode, PowerAddress, clockStart, clockEnd, "day");
    var vl := ValueList(power);
    if vl.None? {
      return EnergyFailed;
    }
    var e := AccumulateEnergy(vl.value, now, ps);
    reply := if e.Some? then EnergyView(e.value, hours) else EnergyFailed;
  }

  datatype ControlReply = MissingInput | ControlResult(success: bool) | ControlRaised

  /** `api_control`: a missing or empty code, or a missing value, is refused before any request;
      otherwise the client logs in and sends one write. A login that raises ends the request. */
  method ApiControl(client: PerifalClient, deviceCode: string, code: Option<string>, value: Option<string>)
    returns (reply: ControlReply)
    modifies client
    ensures code.None? || code.value == "" || value.None? <==> reply == MissingInput
    ensures reply == MissingInput ==> client.sent == old(client.sent) && client.replies == old(client.replies)
    ensures reply != MissingInput ==>
              && |client.sent| > |old(client.sent)|
              && client.sent[..|old(client.sent)| + 1]
                 == old(client.sent) + [Request(LoginPath, LoginBody(client.username, client.passwordDigest),
                                                HeaderFor(old(client.token)))]
    ensures reply != MissingInput && LoginOutcome(Next(old(client.replies))) == Raised ==>
              reply == ControlRaised && |client.sent| == |old(client.sent)| + 1
    ensures reply != MissingInput && LoginOutcome(Next(old(client.replies))) != Raised ==>
              && |client.sent| == |old(client.sent)| + 2
              && client.sent[|old(client.sent)| + 1] == Request(ControlPath, ControlBody(deviceCode, code.value, value.value), client.Header())
              && reply == (if Next(Rest(old(client.replies))).TransportError? then ControlRaised
                           else ControlResult(IsOk(Next(Rest(old(client.replies))))))
  {
    if code.None? || code.value == "" || value.None? {
      return MissingInput;
    }
    var login := client.Login();
    if login == Raised {
      return ControlRaised;
    }
    var r := client.Control(deviceCode, code.value, value.value);
    reply := if r == Raised then ControlRaised else ControlResult(r.value);
  }
}
