/** The vendor cloud API client: one session token, a login, reads that log in again once when
    the session has expired, and writes that are never retried. The network is a scripted
    sequence of replies that each request consumes in turn; every request issued is recorded
    together with the x-token header it carried. */
module Client {
  import opened Wrappers
  import opened Values
  import opened Dicts

  /** One element of a parameter read's objectResult: a {code, value} object, or an element that
      lacks one of the two keys (or is not an object), on which building the result raises. */
  datatype ParamEntry = Entry(code: string, value: Value) | Malformed

  /** One element of a history valueList; either key may be missing. */
  datatype HistoryPoint = HistoryPoint(dateTime: Option<string>, addressValue: Option<Value>)

  /** The `valueList` key of a history object: absent, a JSON null, or a list of points. */
  datatype PointList = NoList | NullList | Points(points: seq<HistoryPoint>)

  /** The `objectResult` of a reply envelope, by the shapes the code distinguishes. `Missing`
      means the envelope has no objectResult; each caller reads it as its own default, an empty
      list or an empty object. */
  datatype ObjectResult =
    | Missing
    | LoginInfo(xToken: Option<string>, userId: Option<string>)      // an object; either key may be absent
    | CodeValues(entries: seq<ParamEntry>)                           // an array of {code, value}
    | History(valueList: PointList, title: Option<string>)          // an object
    | OtherObject                                                    // any other JSON object
    | OtherValue                                                     // any other array, string, number, boolean or null

  /** What one request gets back: a decoded JSON envelope, or a transport failure (no connection,
      an HTTP error status, a body that is not JSON). */
  datatype Response = Envelope(errorCode: Option<string>, objectResult: ObjectResult) | TransportError

  /** The request bodies the client sends; the login password is already digested. */
  datatype Body =
    | LoginBody(userName: string, passwordDigest: string)
    | DeviceListBody
    | DeviceStatusBody(deviceCode: string)
    | ParamsBody(deviceCode: string, codes: seq<string>)
    | ControlBody(deviceCode: string, protocolCode: string, value: string)
    | HistoryBody(deviceCode: string, address: string, startTime: string, endTime: string, frequency: string)

  /** A request as sent: endpoint path, body and the x-token header (None when not sent). */
  datatype Request = Request(endpoint: string, body: Body, xToken: Option<string>)

  const LoginPath := "/app/user/login"
  const DeviceListPath := "/app/device/deviceList"
  const DeviceStatusPath := "/app/device/getDeviceStatus"
  const ParamsPath := "/app/device/getDataByCode"
  const ControlPath := "/app/device/control"
  const HistoryPath := "/device/snapshot/listCollectData"

  /** The codes a parameter read asks for when its caller names none. */
  const DefaultCodes: seq<string> :=
    ["Power", "Mode", "ModeState",
     "T01", "T02", "T03", "T04", "T05", "T06", "T08", "T10", "T11", "T12",
     "R01", "R02", "R03",
     "M1 Heating Target", "M1 Hot Water Target", "M1 Mode",
     "compensate_slope", "compensate_offset",
     "Fault1", "Fault5", "Fault6"]

  /** The reply the next request gets: the head of the script, a transport failure once it is used up. */
  function Next(replies: seq<Response>): Response {
    if replies == [] then TransportError else replies[0]
  }

  function Rest(replies: seq<Response>): seq<Response> {
    if replies == [] then [] else replies[1..]
  }

  predicate IsOk(r: Response) {
    r.Envelope? && r.errorCode == Some("0")
  }

  /** The vendor's "session expired" code. */
  predicate IsExpired(r: Response) {
    r.Envelope? && r.errorCode == Some("-100")
  }

  /** The header a request carries for a held token: only a non-empty token is sent. */
  function HeaderFor(token: Option<string>): (h: Option<string>)
    ensures h.Some? <==> token.Some? && token.value != ""
    ensures h.Some? ==> h == token
  {
    if token.Some? && token.value != "" then token else None
  }

  /** The (x-token, userId) a successful login reads from its objectResult; None when the
      objectResult is not an object, so that reading it raises. */
  function LoginFields(o: ObjectResult): Option<(Option<string>, Option<string>)> {
    match o
    case LoginInfo(t, u) => Some((t, u))
    case Missing => Some((None, None))
    case History(_, _) => Some((None, None))
    case OtherObject => Some((None, None))
    case CodeValues(_) => None
    case OtherValue => None
  }

  /** What `login` returns for the reply it gets. */
  function LoginOutcome(r: Response): (t: Try<bool>)
    ensures t == Returned(true) <==> IsOk(r) && LoginFields(r.objectResult).Some?
    ensures t == Raised <==> r.TransportError? || (IsOk(r) && LoginFields(r.objectResult).None?)
  {
    if r.TransportError? then Raised
    else if IsOk(r) then (if LoginFields(r.objectResult).Some? then Returned(true) else Raised)
    else Returned(false)
  }

  /** What one `get_history` returns for the replies still scripted: the first reply's
      objectResult on success; after the expiry code, the repeat's objectResult when both the
      login and the repeat succeed; the empty default otherwise. */
  function HistoryOutcome(replies: seq<Response>): ObjectResult {
    var r0, r1, r2 := Next(replies), Next(Rest(replies)), Next(Rest(Rest(replies)));
    if IsOk(r0) then r0.objectResult
    else if IsExpired(r0) && LoginOutcome(r1) == Returned(true) && IsOk(r2) then r2.objectResult
    else Missing
  }

  /** The replies left after one `get_history`: it uses one reply, two after an expiry whose
      login fails, three after an expiry whose login succeeds. */
  function AfterHistory(replies: seq<Response>): seq<Response> {
    if !IsExpired(Next(replies)) then Rest(replies)
    else if LoginOutcome(Next(Rest(replies))) != Returned(true) then Rest(Rest(replies))
    else Rest(Rest(Rest(replies)))
  }

  /** The token held after a login whose reply is `r`: replaced only when the login returns True. */
  function TokenAfterLogin(token: Option<string>, r: Response): Option<string> {
    if LoginOutcome(r) == Returned(true) then LoginFields(r.objectResult).value.0 else token
  }

  /** The token held after one `get_history`: a new one only after an expiry and a successful login. */
  function TokenAfterHistory(token: Option<string>, replies: seq<Response>): Option<string> {
    if IsExpired(Next(replies)) then TokenAfterLogin(token, Next(Rest(replies))) else token
  }

  /** The requests one `get_history` sends from the token it starts with: the read; after an
      expiry, the login; after a successful login, the repeat under the new token. */
  function HistorySent(body: Body, login: Body, token: Option<string>, replies: seq<Response>): seq<Request> {
    var read := Request(HistoryPath, body, HeaderFor(token));
    var relogin := Request(LoginPath, login, HeaderFor(token));
    if !IsExpired(Next(replies)) then [read]
    else if LoginOutcome(Next(Rest(replies))) != Returned(true) then [read, relogin]
    else [read, relogin, Request(HistoryPath, body, HeaderFor(TokenAfterHistory(token, replies)))]
  }

  /** The requests of several `get_history` calls in a row, one per body. */
  function HistoriesSent(bodies: seq<Body>, login: Body, token: Option<string>, replies: seq<Response>): seq<Request>
    decreases |bodies|
  {
    if bodies == [] then []
    else HistorySent(bodies[0], login, token, replies)
         + HistoriesSent(bodies[1..], login, TokenAfterHistory(token, replies), AfterHistory(replies))
  }

  /** What `get_all_parameters` with `retry_login` set returns for the replies still scripted:
      the code map of a successful reply; after the expiry code, the code map of the repeat
      when both the login and the repeat succeed; {} otherwise. */
  function ParamsOutcome(replies: seq<Response>): Params {
    var r0, r1, r2 := Next(replies), Next(Rest(replies)), Next(Rest(Rest(replies)));
    if IsOk(r0) then ParamMap(r0.objectResult)
    else if IsExpired(r0) && LoginOutcome(r1) == Returned(true) && IsOk(r2) then ParamMap(r2.objectResult)
    else map[]
  }

  /** The (code, value) pairs of the elements, read in order; None when an element lacks a key. */
  function EntryPairs(es: seq<ParamEntry>): (r: Option<seq<(string, Value)>>)
    ensures r.Some? <==> forall i | 0 <= i < |es| :: es[i].Entry?
    ensures r.Some? ==> |r.value| == |es| && forall i | 0 <= i < |es| :: r.value[i] == (es[i].code, es[i].value)
    decreases |es|
  {
    if es == [] then Some([])
    else
      match (es[0], EntryPairs(es[1..]))
      case (Entry(code, value), Some(rest)) => Some([(code, value)] + rest)
      case _ => None
  }

  /** The result of a parameter read whose reply reports success:
      `{p["code"]: p["value"] for p in objectResult}`, or {} when the objectResult is not such
      an array or an element raises. */
  function ParamMap(o: ObjectResult): Params {
    if o.CodeValues? && EntryPairs(o.entries).Some? then FromPairs(EntryPairs(o.entries).value) else map[]
  }

  /** The read holds exactly the codes of the entries, each with the value of its LAST entry. */
  lemma EntriesLastWins(es: seq<ParamEntry>)
    requires forall i | 0 <= i < |es| :: es[i].Entry?
    ensures forall c :: c in ParamMap(CodeValues(es)) <==> exists i | 0 <= i < |es| :: es[i].code == c
    ensures forall i | 0 <= i < |es| ::
              (forall j | i < j < |es| :: es[j].code != es[i].code) ==> ParamMap(CodeValues(es))[es[i].code] == es[i].value
  {
    var ps := EntryPairs(es).value;
    FromPairsLastWins(ps);
    forall c ensures c in ParamMap(CodeValues(es)) <==> exists i | 0 <= i < |es| :: es[i].code == c {
      if exists i | 0 <= i < |es| :: es[i].code == c {
        var i :| 0 <= i < |es| && es[i].code == c;
        assert ps[i].0 == c;
      }
    }
    forall i | 0 <= i < |es| && (forall j | i < j < |es| :: es[j].code != es[i].code)
      ensures ParamMap(CodeValues(es))[es[i].code] == es[i].value
    {
      assert forall j | i < j < |ps| :: ps[j].0 != ps[i].0 by {
        forall j | i < j < |ps| ensures ps[j].0 != ps[i].0 {
          assert ps[j] == (es[j].code, es[j].value);
        }
      }
    }
  }

  /** One malformed element anywhere makes the whole read come back as {}. */
  lemma MalformedEntryEmptiesRead(es: seq<ParamEntry>, k: nat)
    requires k < |es| && es[k].Malformed?
    ensures ParamMap(CodeValues(es)) == map[]
  {
  }

  class PerifalClient {
    const username: string
    /** The MD5 hex digest of the password (the vendor protocol's digest, a foreign call). */
    const passwordDigest: string
    var token: Option<string>
    var userId: Option<string>
    /** The replies still scripted for the requests to come. */
    var replies: seq<Response>
    /** Every request sent so far, in order. */
    var sent: seq<Request>

    constructor (username: string, passwordDigest: string, replies: seq<Response>)
      ensures this.username == username && this.passwordDigest == passwordDigest
      ensures token == None && userId == None
      ensures this.replies == replies && sent == []
    {
      this.username := username;
      this.passwordDigest := passwordDigest;
      token := None;
      userId := None;
      this.replies := replies;
      sent := [];
    }

    function Header(): Option<string>
      reads this
    {
      HeaderFor(token)
    }

    /** `_request`: send one request carrying the token header iff a token is held, and take
        the next scripted reply. */
    method Send(endpoint: string, body: Body) returns (r: Response)
      modifies this
      ensures sent == old(sent) + [Request(endpoint, body, old(Header()))]
      ensures r == Next(old(replies)) && replies == Rest(old(replies))
      ensures token == old(token) && userId == old(userId)
    {
      sent := sent + [Request(endpoint, body, HeaderFor(token))];
      r := Next(replies);
      replies := Rest(replies);
    }

    /** `login`: True iff the reply reports success; only then are token and user id replaced.
        A transport failure, or a success whose objectResult is not an object, raises. */
    method Login() returns (r: Try<bool>)
      modifies this
      ensures sent == old(sent) + [Request(LoginPath, LoginBody(username, passwordDigest), old(Header()))]
      ensures replies == Rest(old(replies))
      ensures r == LoginOutcome(Next(old(replies)))
      ensures r == Returned(true) ==> (token, userId) == LoginFields(Next(old(replies)).objectResult).value
      ensures r != Returned(true) ==> token == old(token) && userId == old(userId)
    {
      var reply := Send(LoginPath, LoginBody(username, passwordDigest));
      if reply.TransportError? {
        r := Raised;
      } else if IsOk(reply) {
        match LoginFields(reply.objectResult)
        case None =>
          r := Raised;
        case Some(fields) =>
          token := fields.0;
          userId := fields.1;
          r := Returned(true);
      } else {
        r := Returned(false);
      }
    }

    /** `get_all_parameters`: never raises; on the expiry code (and while `retryLogin` holds) it
        logs in once and repeats itself once with `retryLogin` off. */
    method GetAllParameters(deviceCode: string, codes: Option<seq<string>>, retryLogin: bool) returns (m: Params)
      modifies this
      decreases if retryLogin then 1 else 0
      ensures var read := Request(ParamsPath, ParamsBody(deviceCode, codes.GetOr(DefaultCodes)), old(Header()));
              var r0 := Next(old(replies));
              !(IsExpired(r0) && retryLogin) ==>
                && m == (if IsOk(r0) then ParamMap(r0.objectResult) else map[])
                && sent == old(sent) + [read] && replies == Rest(old(replies))
                && token == old(token) && userId == old(userId)
      ensures var read := Request(ParamsPath, ParamsBody(deviceCode, codes.GetOr(DefaultCodes)), old(Header()));
              var login := Request(LoginPath, LoginBody(username, passwordDigest), old(Header()));
              var r0 := Next(old(replies));
              var r1 := Next(Rest(old(replies)));
              IsExpired(r0) && retryLogin && LoginOutcome(r1) != Returned(true) ==>
                && m == map[]
                && sent == old(sent) + [read, login] && replies == Rest(Rest(old(replies)))
                && token == old(token) && userId == old(userId)
      ensures var read := Request(ParamsPath, ParamsBody(deviceCode, codes.GetOr(DefaultCodes)), old(Header()));
              var login := Request(LoginPath, LoginBody(username, passwordDigest), old(Header()));
              var r0 := Next(old(replies));
              var r1 := Next(Rest(old(replies)));
              var r2 := Next(Rest(Rest(old(replies))));
              IsExpired(r0) && retryLogin && LoginOutcome(r1) == Returned(true) ==>
                && (token, userId) == LoginFields(r1.objectResult).value
                && sent == old(sent) + [read, login, Request(ParamsPath, ParamsBody(deviceCode, codes.GetOr(DefaultCodes)), Header())]
                && replies == Rest(Rest(Rest(old(replies))))
                && m == (if IsOk(r2) then ParamMap(r2.objectResult) else map[])
      ensures retryLogin ==> m == ParamsOutcome(old(replies))
    {
      var requested := if codes.None? then DefaultCodes else codes.value;
      var reply := Send(ParamsPath, ParamsBody(deviceCode, requested));
      if IsOk(reply) {
        m := ParamMap(reply.objectResult);
      } else if IsExpired(reply) && retryLogin {
        var ok := Login();
        if ok == Returned(true) {
          m := GetAllParameters(deviceCode, Some(requested), false);
        } else {
          m := map[];
        }
      } else {
        m := map[];
      }
    }

    /** `get_history`: never raises; on the expiry code it logs in and repeats the request once,
        and returns the default (an empty list) unless that repeat reports success. */
    method GetHistory(deviceCode: string, address: string, startTime: string, endTime: string, frequency: string)
      returns (o: ObjectResult)
      modifies this
      ensures o == HistoryOutcome(old(replies)) && replies == AfterHistory(old(replies))
      ensures sent == old(sent) + HistorySent(HistoryBody(deviceCode, address, startTime, endTime, frequency),
                                              LoginBody(username, passwordDigest), old(token), old(replies))
      ensures token == TokenAfterHistory(old(token), old(replies))
      ensures var r1 := Next(Rest(old(replies)));
              userId == if IsExpired(Next(old(replies))) && LoginOutcome(r1) == Returned(true)
                        then LoginFields(r1.objectResult).value.1 else old(userId)
    {
      var body := HistoryBody(deviceCode, address, startTime, endTime, frequency);
      var reply := Send(HistoryPath, body);
      if IsOk(reply) {
        o := reply.objectResult;
      } else if IsExpired(reply) {
        var ok := Login();
        o := Missing;
        if ok == Returned(true) {
          var again := Send(HistoryPath, body);
          if IsOk(again) {
            o := again.objectResult;
          }
        }
      } else {
        o := Missing;
      }
    }

    /** `control`: exactly one request, never retried; True iff the reply reports success. A
        transport failure raises to the caller. */
    method Control(deviceCode: string, protocolCode: string, value: string) returns (r: Try<bool>)
      modifies this
      ensures sent == old(sent) + [Request(ControlPath, ControlBody(deviceCode, protocolCode, value), old(Header()))]
      ensures replies == Rest(old(replies))
      ensures r == (if Next(old(replies)).TransportError? then Raised else Returned(IsOk(Next(old(replies)))))
      ensures token == old(token) && userId == old(userId)
    {
      var reply := Send(ControlPath, ControlBody(deviceCode, protocolCode, value));
      if reply.TransportError? {
        r := Raised;
      } else {
        r := Returned(IsOk(reply));
      }
    }

    /** `set_power`: writes Power as "1" for on and "0" for off. */
    method SetPower(deviceCode: string, on: bool) returns (r: Try<bool>)
      modifies this
      ensures sent == old(sent) + [Request(ControlPath, ControlBody(deviceCode, "Power", if on then "1" else "0"), old(Header()))]
      ensures replies == Rest(old(replies))
      ensures r == (if Next(old(replies)).TransportError? then Raised else Returned(IsOk(Next(old(replies)))))
      ensures token == old(token) && userId == old(userId)
    {
      r := Control(deviceCode, "Power", if on then "1" else "0");
    }

    /** The four set-point writers; `text` is the decimal rendering of the new value (`str(temp)`). */
    method SetHotWaterTemp(deviceCode: string, text: string) returns (r: Try<bool>)
      modifies this
      ensures sent == old(sent) + [Request(ControlPath, ControlBody(deviceCode, "R01", text), old(Header()))]
      ensures replies == Rest(old(replies))
      ensures r == (if Next(old(replies)).TransportError? then Raised else Returned(IsOk(Next(old(replies)))))
      ensures token == old(token) && userId == old(userId)
    {
      r := Control(deviceCode, "R01", text);
    }

    method SetHeatingTemp(deviceCode: string, text: string) returns (r: Try<bool>)
      modifies this
      ensures sent == old(sent) + [Request(ControlPath, ControlBody(deviceCode, "M1 Heating Target", text), old(Header()))]
      ensures replies == Rest(old(replies))
      ensures r == (if Next(old(replies)).TransportError? then Raised else Returned(IsOk(Next(old(replies)))))
      ensures token == old(token) && userId == old(userId)
    {
      r := Control(deviceCode, "M1 Heating Target", text);
    }

    method SetCurveOffset(deviceCode: string, text: string) returns (r: Try<bool>)
      modifies this
      ensures sent == old(sent) + [Request(ControlPath, ControlBody(deviceCode, "compensate_offset", text), old(Header()))]
      ensures replies == Rest(old(replies))
      ensures r == (if Next(old(replies)).TransportError? then Raised else Returned(IsOk(Next(old(replies)))))
      ensures token == old(token) && userId == old(userId)
    {
      r := Control(deviceCode, "compensate_offset", text);
    }

    method SetCurveSlope(deviceCode: string, text: string) returns (r: Try<bool>)
      modifies this
      ensures sent == old(sent) + [Request(ControlPath, ControlBody(deviceCode, "compensate_slope", text), old(Header()))]
      ensures replies == Rest(old(replies))
      ensures r == (if Next(old(replies)).TransportError? then Raised else Returned(IsOk(Next(old(replies)))))
      ensures token == old(token) && userId == old(userId)
    {
      r := Control(deviceCode, "compensate_slope", text);
    }

    /** `get_device_list`: the objectResult on success, the default (an empty list) otherwise; a
        transport failure raises. */
    method GetDeviceList() returns (r: Try<ObjectResult>)
      modifies this
      ensures sent == old(sent) + [Request(DeviceListPath, DeviceListBody, old(Header()))]
      ensures replies == Rest(old(replies))
      ensures var reply := Next(old(replies));
              r == if reply.TransportError? then Raised
                   else Returned(if IsOk(reply) then reply.objectResult else Missing)
      ensures token == old(token) && userId == old(userId)
    {
      var reply := Send(DeviceListPath, DeviceListBody);
      if reply.TransportError? {
        r := Raised;
      } else if IsOk(reply) {
        r := Returned(reply.objectResult);
      } else {
        r := Returned(Missing);
      }
    }

    /** `get_device_status`: the objectResult on success, the default (an empty object) otherwise;
        a transport failure raises. */
    method GetDeviceStatus(deviceCode: string) returns (r: Try<ObjectResult>)
      modifies this
      ensures sent == old(sent) + [Request(DeviceStatusPath, DeviceStatusBody(deviceCode), old(Header()))]
      ensures replies == Rest(old(replies))
      ensures var reply := Next(old(replies));
              r == if reply.TransportError? then Raised
                   else Returned(if IsOk(reply) then reply.objectResult else Missing)
      ensures token == old(token) && userId == old(userId)
    {
      var reply := Send(DeviceStatusPath, DeviceStatusBody(deviceCode));
      if reply.TransportError? {
        r := Raised;
      } else if IsOk(reply) {
        r := Returned(reply.objectResult);
      } else {
        r := Returned(Missing);
      }
    }
  }
}
