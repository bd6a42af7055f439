/** The dashboard's background logger: a global on/off flag that starts at most one polling
    thread, and the body of one polling cycle (log in, read every parameter, log the reading
    when the read returned anything). The thread's sleeping and its concurrency with the
    request handlers are not part of this model. */
module Poller {
  import opened Wrappers
  import opened Values
  import opened Client
  import opened Readings

  /** The codes the dashboard reads in each cycle and for the status view. */
  const AllParams: seq<string> :=
    ["Power", "Mode", "ModeState",
     "T01", "T02", "T03", "T04", "T05", "T06", "T08", "T10", "T11", "T12", "T15",
     "T33", "T34", "T35", "T36", "T37", "T38", "T39", "T53",
     "R01", "M1 Hot Water Target", "M1 Heating Target",
     "compensate_offset", "compensate_slope",
     "M1 Max. Power",
     "hanControl", "Fault1", "Fault5", "Fault6",
     "app_heartbeat", "O15", "O17",
     "D12", "D14", "D15", "T38",
     "SG Status", "SG01",
     "2054",
     "CP1-1", "CP1-2", "CP1-3", "CP1-4", "CP1-5", "CP1-6", "CP1-7",
     "Zone 2 Curve Offset", "Zone 2 Cure Slope", "Zone 2 Water Target"]

  /** The flag and the number of polling threads started so far. */
  datatype LoggerFlag = LoggerFlag(active: bool, threads: nat)

  /** `start_logger`: a thread is started only when the flag was off. */
  function Start(f: LoggerFlag): LoggerFlag {
    if f.active then f else LoggerFlag(true, f.threads + 1)
  }

  /** `stop_logger`: clears the flag; the thread ends at its next check. */
  function Stop(f: LoggerFlag): LoggerFlag {
    f.(active := false)
  }

  /** A sequence of start (true) and stop (false) calls. */
  function Apply(f: LoggerFlag, calls: seq<bool>): LoggerFlag
    decreases |calls|
  {
    if calls == [] then f else Apply(if calls[0] then Start(f) else Stop(f), calls[1..])
  }

  /** The number of calls that start a thread: a start while the flag is off. */
  function RisingEdges(active: bool, calls: seq<bool>): nat
    decreases |calls|
  {
    if calls == [] then 0
    else (if calls[0] && !active then 1 else 0) + RisingEdges(calls[0], calls[1..])
  }

  /** Threads are started exactly at the starts that find the flag off, and the flag ends as the
      last call left it. */
  lemma {:induction false} ThreadsStartOnRisingEdges(f: LoggerFlag, calls: seq<bool>)
    ensures Apply(f, calls).threads == f.threads + RisingEdges(f.active, calls)
    ensures Apply(f, calls).active == (if calls == [] then f.active else calls[|calls| - 1])
    decreases |calls|
  {
    if calls != [] {
      ThreadsStartOnRisingEdges(if calls[0] then Start(f) else Stop(f), calls[1..]);
    }
  }

  /** Starting twice starts one thread. */
  lemma StartIsIdempotent(f: LoggerFlag)
    ensures Start(Start(f)) == Start(f)
    ensures Start(f).threads <= f.threads + 1
  {
  }

  class Logger {
    var flag: LoggerFlag

    constructor ()
      ensures flag == LoggerFlag(false, 0)
    {
      flag := LoggerFlag(false, 0);
    }

    method StartLogger()
      modifies this
      ensures flag == Start(old(flag))
    {
      if !flag.active {
        flag := LoggerFlag(true, flag.threads + 1);
      }
    }

    method StopLogger()
      modifies this
      ensures flag == Stop(old(flag))
    {
      flag := flag.(active := false);
    }
  }

  /** One cycle of `background_logger` with a freshly created client: nothing is written unless
      the login succeeds and the parameter read returns a non-empty snapshot. */
  method PollOnce(client: PerifalClient, store: ReadingStore, deviceCode: string, now: int)
    returns (logged: bool)
    modifies client, store
    ensures var r0 := Next(old(client.replies));
            var snapshot := if LoginOutcome(r0) == Returned(true) then ParamsOutcome(Rest(old(client.replies))) else map[];
            && (logged <==> snapshot != map[] && LoggedRow(snapshot).Some?)
            && store.rows == (if snapshot != map[] then LogAt(old(store.rows), snapshot, now) else old(store.rows))
    ensures var login := Request(LoginPath, LoginBody(client.username, client.passwordDigest), old(HeaderFor(client.token)));
            LoginOutcome(Next(old(client.replies))) != Returned(true) ==> client.sent == old(client.sent) + [login]
    ensures var r0 := Next(old(client.replies));
            var login := Request(LoginPath, LoginBody(client.username, client.passwordDigest), old(HeaderFor(client.token)));
            LoginOutcome(r0) == Returned(true) ==>
              && |client.sent| > |old(client.sent)| + 1
              && client.sent[..|old(client.sent)| + 1] == old(client.sent) + [login]
              && client.sent[|old(client.sent)| + 1] ==
                   Request(ParamsPath, ParamsBody(deviceCode, AllParams), HeaderFor(TokenAfterLogin(old(client.token), r0)))
  {
    logged := false;
    var ok := client.Login();
    if ok != Returned(true) {
      return;
    }
    var params := client.GetAllParameters(deviceCode, Some(AllParams), true);
    if params != map[] {
      logged := store.LogReading(params, now);
    }
  }
}
