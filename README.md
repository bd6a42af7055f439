# Perifal LV-418 heat-pump dashboard: a verified model of its rules

The system watches a Perifal LV-418 air-to-water heat pump through the vendor's cloud API. It
has three parts:

- the API client (`perifal_client.py`): a session token, a login, parameter and history reads
  that log in again once when the session has expired, and control writes that are never
  retried;
- a stand-alone data logger (`data_logger.py`): it appends readings and power/mode change
  events to its own tables;
- a web dashboard (`dashboard.py`). It has a background poller that upserts one reading per
  hour, an import of cloud history that never overwrites, a range query and statistics over
  the readings, user accounts with e-mail verification and admin approval, and JSON endpoints
  over the cloud history. The page script derives COP, the heating-curve target, the pump
  status and wood-heating statistics.

This project models those rules in Dafny and proves what they promise.

- **Dafny forms.** Pure expression code becomes functions and lemmas. State the code changes
  in place becomes classes: the client's token and request log, the readings table, the users
  table and the logger flag. Loops become methods with invariants, proved against a
  specification function.
- **Foreign calls are inputs.** HTTP, SQL drivers, SHA-256/MD5, `secrets`, `strptime`,
  `float()` and the clock become parameters or values:
  - the network is a scripted sequence of reply envelopes (or transport failures), one per
    request;
  - a date parser is a function `string -> Option<int>` giving whole seconds on the local
    clock;
  - a parameter value carries its text together with what `float()` makes of it;
  - SHA-256 is a function from strings to lower-hex strings;
  - salts and verification tokens are given values.
- **Numbers.** Arithmetic is over `real`. Timestamps are `int` seconds: the hour of `t` is
  `t - t % 3600` and its day is `t / 86400`.

Modules (one file each): `Wrappers` (Option, Try), `Values` (parameter values and the two
number readings), `Dicts` (dict comprehensions), `Order` (Python string order, sorted
enumerations), `Client`, `Series` (cloud history series), `Metrics` (dashboard COP),
`DataLogger`, `Readings`, `CloudApi`, `Accounts`, `PageScript`, `Poller`.

Three behaviours of the code that a reader of its comments or its UI might not expect; the model follows the code:

- **The stored COP can be negative.** The `cop` column reads like a ratio between 0 and 5, but
  the code (`dashboard.py:413`) only caps it from above: a return temperature above the flow temperature gives a
  negative heat output and a negative COP (`Metrics.NegativeCopPossible`).
- **Approval does not need verification.** `admin_approve` (`dashboard.py:2240-2282`) approves any existing id, whether
  or not the e-mail is verified (`Accounts.ApprovalKeepsVerification`). Login still demands
  both. The approval route also carries no admin guard, so `Accounts.UserTable.AdminApprove`
  has no session parameter.
- **The history frequency ignores explicit dates.** In `api_history` (`dashboard.py:2320-2334`)
  the frequency depends on `hours` even when `from`/`to` dates are given (`CloudApi.ApiHistory`).

## Model

| member | source | states |
|---|---|---|
| Dicts.FromPairsLastWins | perifal_client.py:139 | a dict comprehension over pairs holds exactly the pairs' keys, each with the value of its last pair |
| Order.LexLeTotal | dashboard.py:2364 | Python string order is total |
| Order.LexLeAntisymmetric | dashboard.py:2364 | Python string order is antisymmetric |
| Order.LexLeTransitive | dashboard.py:2364 | Python string order is transitive |
| Order.LeastString | dashboard.py:2364 | the least string of a non-empty set is a member and below every member |
| Order.SortedStrings | dashboard.py:2362-2364 | `sorted(set)`: every element exactly once, in strictly ascending string order |
| Order.LeastInt | dashboard.py:537 | `MIN(timestamp)`: a member not above any member |
| Order.SortedInts | dashboard.py:487 | `ORDER BY timestamp ASC`: the set's elements once each, strictly ascending |
| Order.GreatestInt | dashboard.py:537 | `MAX(timestamp)`: a member not below any member |
| Client.HeaderFor | perifal_client.py:58-60 | the x-token header is sent iff a non-empty token is held, and it is that token |
| Client.LoginOutcome | perifal_client.py:82-92 | login returns True iff the reply's error_code is "0" (and its objectResult can be read); it raises on a transport failure or an objectResult that is not an object; otherwise it returns False |
| Client.EntryPairs | perifal_client.py:137-139 | the (code, value) pairs of a reply array, pointwise, present iff every element has both keys |
| Client.EntriesLastWins | perifal_client.py:136-139 | a successful read maps exactly the returned codes, a duplicated code taking its last value |
| Client.MalformedEntryEmptiesRead | perifal_client.py:133-153 | one element without code/value makes the whole read {} instead of raising |
| Client.PerifalClient.constructor | perifal_client.py:40-49 | a new client holds no token and no user id, and has sent nothing |
| Client.PerifalClient.Send | perifal_client.py:55-69 | one request logged with the header of the current token; it takes the next scripted reply (a transport failure once the script runs out); the token is unchanged |
| Client.PerifalClient.Login | perifal_client.py:71-92 | one login request with the MD5-digested password; token and user id are replaced only when it returns True, and otherwise stay as they were |
| Client.PerifalClient.GetAllParameters | perifal_client.py:115-153 | with no codes it asks for the 24 default codes. Success gives the code map. Expiry with retry on gives exactly one login: if that fails the result is {}, else one more read with retry off. Every other code and every transport failure gives {} |
| Client.PerifalClient.GetHistory | perifal_client.py:193-234 | success gives the objectResult; on expiry, one login and one repeat, whose success alone gives data; everything else gives the empty default; it sends the read, then after an expiry the login, then after a successful login the repeat under the new token, using one, two or three scripted replies |
| Client.PerifalClient.Control | perifal_client.py:155-171 | exactly one write request, never retried; True iff error_code is "0"; a transport failure raises |
| Client.PerifalClient.SetPower | perifal_client.py:173-175 | writes Power "1" for on and "0" for off, through one control request |
| Client.PerifalClient.SetHotWaterTemp | perifal_client.py:177-179 | one control write of R01 |
| Client.PerifalClient.SetHeatingTemp | perifal_client.py:181-183 | one control write of "M1 Heating Target" |
| Client.PerifalClient.SetCurveOffset | perifal_client.py:185-187 | one control write of compensate_offset |
| Client.PerifalClient.SetCurveSlope | perifal_client.py:189-191 | one control write of compensate_slope |
| Client.PerifalClient.GetDeviceList | perifal_client.py:94-104 | the objectResult on "0", the empty default otherwise; a transport failure raises |
| Client.PerifalClient.GetDeviceStatus | perifal_client.py:106-113 | the objectResult on "0", the empty default otherwise; a transport failure raises |
| Series.PointPairs | dashboard.py:2356-2359 | the (dateTime, float(addressValue)) pairs of a valueList, pointwise, present iff no point raises (a missing key or a null value raises) |
| Series.SeriesLastWins | dashboard.py:2356-2359 | a series map holds exactly the points' dateTimes, each with its last point's value |
| Series.NonObjectIsEmptySeries | dashboard.py:2350-2359 | a reply that is not an object, or lacks valueList, gives an empty series; a null valueList raises |
| Series.Lookup | dashboard.py:2371-2372 | `series.get(dt)` is present iff the series has the key, and then it is the series' value at that key |
| Series.ReadFour | dashboard.py:2340-2343 | the four history reads of one request, flow 2046, tank 2047, outdoor 2048 and power 2054, in that order on one client; each returns what its replies give and sends what one history read sends |
| Series.Frequency | dashboard.py:2329-2334 | "day" iff hours <= 72, "month" iff hours > 168, "week" otherwise |
| Series.FrequencyCoarsens | dashboard.py:2329-2334 | a longer range never asks for finer sampling |
| Series.CloudCop | dashboard.py:2376-2380 | a cloud COP exists iff the flow temperature is present and non-zero and power > 0.1; then COP · power is the fixed 50 l/min, 2 K heat estimate |
| Series.HistoryRowsFromKeys | dashboard.py:2364-2390 | one merged row per key that parses, each built from its own key's lookups; keys that do not parse are skipped |
| Metrics.Derive | dashboard.py:410-413 | delta_t = T02 − T01; flow_lmin = T39·1000/60; heat = flow·Δt·4.186/60 iff flow > 0, else 0; COP is None iff power <= 0.1, else min(heat/power, 5) |
| Metrics.ServerMetrics | dashboard.py:404-413 | the four conversions (absent or empty reads as 0) succeed iff none raises, and then feed the derivation |
| Metrics.ExampleReading | dashboard.py:410-413 | 1.2 m³/h, 40/30 °C and 2 kW give 20 l/min, about 13.95 kW, and the COP capped at 5 |
| Metrics.NegativeCopPossible | dashboard.py:410-413 | a reversed temperature difference stores a negative COP |
| Metrics.CalculateCop | dashboard.py:1621-1634 | the page's COP: the same conversions read with `parseFloat \|\| 0`, with no zero-flow branch, 0 under the power guard, and capped at 5 |
| Metrics.PageAgreesWithServer | dashboard.py:1621-1634 | where both read the inputs alike, the page shows the stored heat (with flow) and the stored COP, and 0 where NULL is stored |
| Metrics.ReverseFlowDiffers | dashboard.py:410-412 | a negative flow: the server stores 0 heat, the page shows non-zero heat |
| DataLogger.CalculateCopAt | data_logger.py:94-110 | power from T39, a fixed flow rate, no cap; heat = flow·Δt·4.186/60; COP = heat/power iff power > 0.1, else 0; any failed conversion gives (0, 0, 0) |
| DataLogger.CopUncapped | data_logger.py:104-106 | the logger's COP can exceed 5 |
| DataLogger.Numbers | data_logger.py:135-157 | the numeric columns, one per code in order, present iff no conversion raises |
| DataLogger.RowCopFromInsertedData | data_logger.py:117-164 | an inserted row's COP is computed from the same snapshot's T39 and T02 − T01 |
| DataLogger.PowerEvent | data_logger.py:221-223 | a power event exists iff a previous value exists and differs; it carries (before, after), and reads "Pump ON" iff the new value is "1" |
| DataLogger.ModeEvent | data_logger.py:226-229 | a mode event exists iff a previous mode exists and differs; it carries (before, after) and maps "1"/"2"/"3" to VÄRME/KYLA/VV, otherwise the raw code, and "None" for an absent or null mode |
| DataLogger.Turn | data_logger.py:209-233 | an empty snapshot or a failed row changes nothing; otherwise one row is appended, count + 1, the power event then the mode event, and the last values are updated |
| DataLogger.RunAppendsOnly | data_logger.py:112-167 | the loop only appends: earlier rows and events are untouched, and the count is the number of appended rows |
| DataLogger.TurnChanges | data_logger.py:217-230 | one logging turn's events, split by type, are the Power and Mode transitions from the last values |
| DataLogger.NullPowerInterruptsChanges | data_logger.py:217-233 | Power readings "1", null, "1" from a fresh start are one change, from "1" to null; the null reading becomes the last value |
| DataLogger.RunEventsAreTransitions | data_logger.py:204-233 | the power_change/mode_change events are exactly the changes of Power/Mode between consecutive logged snapshots |
| DataLogger.RunEventsAfterRow | data_logger.py:212-233 | the same, for runs whose first snapshot logs a row |
| DataLogger.RunWithoutRows | data_logger.py:209-212 | snapshots that log no row leave the loop state as it was |
| DataLogger.FirstReadingHasNoEvent | data_logger.py:204-224 | the first logged reading emits no event |
| DataLogger.RunLogger | data_logger.py:204-248 | the loop's variables end as the specification run gives them; re-logins count the failed turns |
| DataLogger.Failures | data_logger.py:242-248 | failed turns plus logged turns never exceed the turns |
| Readings.HourOf | dashboard.py:415 | the timestamp truncated to its hour: a multiple of 3600 within the hour |
| Readings.LoggedRow | dashboard.py:404-466 | the upserted row, column by column (power in the t39 column, flow in d12), present iff no conversion raises; the mode column is NULL for a null Mode and "" for an absent one |
| Readings.LoggedCopGuardedAndCapped | dashboard.py:413 | a logged COP is NULL iff the stored power is <= 0.1 and never exceeds 5 |
| Readings.SameHourLastWriteWins | dashboard.py:415-466 | two writes in one hour leave one row holding the second write's columns; other hours unchanged |
| Readings.InsertAllImported | dashboard.py:366-386 | inserting keys one by one keeps existing rows, gives every parsing key a row, and adds only imported rows |
| Readings.ParsedCountsKeys | dashboard.py:366-386 | the counter equals the number of distinct keys that parse |
| Readings.ImportStep | dashboard.py:374-384 | one insert-or-ignore step preserves the import relation |
| Readings.ImportOverExistingRowIsNoOp | dashboard.py:374-386 | keys that hit an existing hour are counted but change nothing |
| Readings.ImportAddsAtMostCounted | dashboard.py:366-386 | the rows added never outnumber the count returned |
| Readings.ProjectAll | dashboard.py:502-523 | each returned reading is its row projected to the seven view columns |
| Readings.RangeQuery | dashboard.py:481-497 | exactly the rows strictly after the cutoff, in strictly ascending timestamp order, each its row's projection |
| Readings.InsertLoop | dashboard.py:360-388 | the loop over the flow∪tank∪outdoor keys returns the number of parseable keys and leaves the table related to before as the import relation says |
| Readings.ReadingStore.LogReading | dashboard.py:398-473 | True iff the row converts; the table becomes the upsert of that row at the current hour |
| Readings.ReadingStore.StoreCloudSeries | dashboard.py:360-388 | the insert loop applied to the table field |
| Readings.ReadingStore.ImportCloudHistory | dashboard.py:332-396 | a failed login or a series that does not convert gives 0 and no write; otherwise one login, then history reads of 2046, 2047, 2048 and 2054 at "day" frequency, and the insert loop's count and table over the four series those replies give |
| Readings.ReadingStore.LocalHistory | dashboard.py:475-528 | the rows strictly newer than `hours` before now, oldest first |
| Readings.ReadingStore.DbStats | dashboard.py:530-551 | count = rows; oldest/newest exist iff the table is non-empty and are its least/greatest timestamps |
| CloudApi.MergeHistory | dashboard.py:2364-2390 | the merge loop builds exactly the specification's rows over the keys in order |
| CloudApi.ApiHistory | dashboard.py:2309-2406 | a raising login gives the error reply; otherwise one login, then history reads of 2046, 2047, 2048 and 2054 in that order over the requested range at the frequency chosen from `hours` (the whole-day span when both dates are given); the four series those replies give are merged over the sorted union of their keys, and the flow, tank and outdoor titles are those replies' titles |
| CloudApi.ParseAny | dashboard.py:2440-2447 | a time is found iff one of the three formats parses; the result is the hour format's when it parses, else the seconds format's when it parses, else the minutes format's |
| CloudApi.AccumulateEnergy | dashboard.py:2433-2462 | the accumulation loop computes the specification totals |
| CloudApi.NoValueNoEnergy | dashboard.py:2433-2474 | a value that raises anywhere turns the whole reply into the error reply |
| CloudApi.TotalCountsEveryPoint | dashboard.py:2435-2438 | the total is the sum of every value, whether its dateTime parses or not |
| CloudApi.SameDayIsRecent | dashboard.py:2455-2461 | a time on today's date (or later) is within the last 24 hours |
| CloudApi.EnergyBounds | dashboard.py:2433-2462 | for non-negative values 0 <= today <= last 24 h <= total, and there is at most one reading per point |
| CloudApi.ApiEnergy | dashboard.py:2408-2474 | a raising login gives the error reply; otherwise one login, then one history read of 2054 at "day" frequency over the clock range, and the power series it returns, accumulated; a null valueList gives the error reply |
| CloudApi.ApiControl | dashboard.py:2500-2511 | a missing/empty code or a missing value is refused before any request; otherwise the login request (the stored user name and digest, the token held before) is sent first, and, when it does not raise, exactly one control write follows, whose outcome is the reply |
| Accounts.Lower | dashboard.py:214 | `str.lower()` letter by letter |
| Accounts.LowerIdempotent | dashboard.py:253 | lower-casing twice is lower-casing once |
| Accounts.Strip | dashboard.py:2147 | `str.strip()`: a contiguous slice of the text with no whitespace at either end, everything cut off before and after it being whitespace |
| Accounts.StripIdempotent | dashboard.py:2175-2176 | stripping twice is stripping once |
| Accounts.Split | dashboard.py:172 | `split(':')` gives at least one piece, and no piece contains the separator |
| Accounts.SplitJoin | dashboard.py:172 | joining the pieces gives back the text |
| Accounts.SplitPair | dashboard.py:167-172 | `a:b` without colons splits back into exactly a and b |
| Accounts.HashPassword | dashboard.py:163-167 | the stored hash splits on ':' into exactly the salt and the SHA-256 digest of password + salt |
| Accounts.VerifyPassword | dashboard.py:169-175 | a password verifies only against a stored value that is a colon-free salt, ':', and the digest of password + that salt |
| Accounts.HexHasNoColon | dashboard.py:165-166 | hex salts and digests contain no ':' |
| Accounts.VerifyOwnHash | dashboard.py:163-175 | a password verifies against its own hash, for every salt and digest |
| Accounts.VerifyOtherPassword | dashboard.py:169-175 | another password verifies iff the digests collide |
| Accounts.MalformedHashRejects | dashboard.py:169-175 | a stored hash that is not exactly two ':'-separated parts gives False, not an error |
| Accounts.UserByEmail | dashboard.py:246-269 | the lookup is by lower-cased e-mail, present iff that key exists |
| Accounts.VerifyToken | dashboard.py:2205-2238 | verification succeeds iff some user holds the token; the same e-mails stay in the table |
| Accounts.ApproveId | dashboard.py:2240-2282 | approval succeeds iff some user has the id; the same e-mails stay in the table |
| Accounts.TokenIsOneShot | dashboard.py:2212-2226 | a token that verified once verifies nobody again |
| Accounts.VerifyTouchesOnlyHolder | dashboard.py:2223-2226 | only the holder changes: verified, and its token cleared |
| Accounts.ApprovalKeepsVerification | dashboard.py:2258-2261 | approval sets the approved flag and leaves verification as it was |
| Accounts.SignIn | dashboard.py:2144-2170 | granted iff the user exists, the password matches, the e-mail is verified and the account approved; each refusal iff its check is the first that fails; the session holds id, e-mail, name, admin |
| Accounts.VerificationCheckedFirst | dashboard.py:2157-2161 | an unverified user with the right password is told to verify, whatever the approval |
| Accounts.AdminRequired | dashboard.py:321-328 | `admin_required` admits exactly the sessions that hold an admin user, and only sessions `login_required` admits |
| Accounts.GuardsNest | dashboard.py:312-328 | the admin guard admits only sessions the login guard admits; an empty session passes neither |
| Accounts.GrantedSessionPassesGuards | dashboard.py:2164-2167 | a granted session passes the login guard, and the admin guard iff the user is admin |
| Accounts.RegisterCheck | dashboard.py:2172-2188 | in order: a missing field, then a password under 6 characters, then an existing lower-cased e-mail; each refusal iff it is the first that applies |
| Accounts.NewUserCannotSignIn | dashboard.py:210-221 | a just-created (unverified) user cannot sign in with any password |
| Accounts.RegisterVerifyApproveSignIn | dashboard.py:2144-2282 | registering, using the token and approval let the user sign in with the registered password |
| Accounts.AdminTableWellFormed | dashboard.py:285-304 | a table holding only the bootstrap admin keeps the table invariant |
| Accounts.BootstrapAdminSignsIn | dashboard.py:285-304 | the bootstrap admin signs in with the configured password, as an admin |
| Accounts.AdminCredentials | dashboard.py:287-288 | the environment's e-mail and password win over the built-in defaults |
| Accounts.UserTable.CreateUser | dashboard.py:201-244 | insert under the lower-cased e-mail: unverified, unapproved, holding the token; None and no change when the e-mail exists; the invariant is kept |
| Accounts.UserTable.EnsureAdminExists | dashboard.py:271-310 | only an empty table gets the verified, approved admin; otherwise nothing changes |
| Accounts.UserTable.Register | dashboard.py:2172-2198 | a refused check writes nothing; otherwise the stripped name and e-mail are created under the next id |
| Accounts.UserTable.VerifyEmail | dashboard.py:2205-2238 | True iff a user held the token, and then that user is verified |
| Accounts.UserTable.AdminApprove | dashboard.py:2240-2282 | True iff a user has the id, and then that user is approved |
| PageScript.Segment | dashboard.py:1862-1866 | the first segment whose closed interval holds the temperature |
| PageScript.CalcTarget | dashboard.py:1849-1872 | the interpolation loop computes the specification curve value at T04 |
| PageScript.CurveOutside | dashboard.py:1861-1871 | below −20 the target is CP1-1, above 20 it is CP1-7 |
| PageScript.CurveAtKnot | dashboard.py:1862-1866 | at a knot the target is that knot's point |
| PageScript.CurveBetween | dashboard.py:1863-1866 | within a segment the target lies between the segment's two points |
| PageScript.PumpStatus | dashboard.py:1901-1923 | running iff power > 0.2 kW or frequency > 10; wood heating iff not running and tank or return above target |
| PageScript.RunningIsActive | dashboard.py:1886-1904 | a running pump is labelled active |
| PageScript.ActiveLabelWhileStopped | dashboard.py:1886-1904 | at 7 % frequency and no power the label says active while the status says stopped |
| PageScript.WoodStats | dashboard.py:2094-2111 | the counting loop computes the specification's wood hours and sessions |
| PageScript.SessionsWithinHours | dashboard.py:2094-2111 | sessions never exceed wood hours, and there is a session iff there is a wood hour |
| PageScript.NoWoodHour | dashboard.py:2102-2105 | with zero wood hours no reading is wood heated |
| Poller.ThreadsStartOnRisingEdges | dashboard.py:581-592 | threads are started exactly by the starts that find the flag off; the flag ends as the last call left it |
| Poller.StartIsIdempotent | dashboard.py:581-587 | starting twice starts one thread |
| Poller.Logger.constructor | dashboard.py:554 | the flag starts off |
| Poller.Logger.StartLogger | dashboard.py:581-587 | the flag becomes the start transition of the old flag |
| Poller.Logger.StopLogger | dashboard.py:589-592 | the flag is cleared |
| Poller.PollOnce | dashboard.py:561-571 | nothing is read or written unless login returns True; then the first request is the read of the full parameter list, and the snapshot is what that read returns (including its one re-login and repeat after an expired session); a non-empty snapshot is upserted at the current hour; the reading is logged iff it converts |

## Left out

- HTTP transport, `raise_for_status` and JSON decoding: replaced by a scripted sequence of replies. A reply that is not a JSON object is a transport failure.
- SQL drivers, schema creation, placeholders and the PostgreSQL/SQLite split: one abstract table per entity, with the behaviour both branches share.
- Storage failures: no database call fails in the model, so the `except` fallbacks of `log_reading` (on a database error), `get_local_history`, `get_db_stats`, `create_user` and `ensure_admin_exists` are not modelled. Accounts.UserTable.Register can therefore never return `CreateFailed`.
- Row ids and the `created_at` column: the readings table is keyed by hour, the users table by e-mail. A user's id comes from a counter in the table.
- SMTP e-mail (verification, admin notice, approval notice): output only, with no effect on state.
- Flask routing, templates, redirects and the HTML/CSS/Chart.js of the page: presentation. The page-script rules are modelled on the values they read.
- Threads, `time.sleep` and the ten-second stop checks of the poller; the endless `while True` of the data logger. Only the flag transitions and single cycles (or a finite prefix of turns) are modelled. The race between `stop_logger` and a thread still running, and a restart before that thread ends, are not.
- SHA-256, MD5 and `secrets`: given as a function and as values. Freshness of verification tokens is assumed (`FreshToken`) rather than generated.
- `float()`, `parseFloat`, `strptime`, `strftime`, `isoformat` and `datetime.now`: their results are inputs. JavaScript's `parseFloat` accepts a numeric prefix that Python's `float()` rejects; the model gives a value one numeric reading for both.
- Accounts.Lower, Accounts.Strip: ASCII letters and ASCII whitespace only; Unicode case mapping and Unicode whitespace are not modelled.
- Floating-point rounding, `round(..., 2)`, `toFixed`, NaN and infinities: arithmetic is over exact reals.
- Microseconds: `get_local_history` compares against a cutoff that carries microseconds, while stored hours have none, and `api_energy` (dashboard.py:2460) tests `dt >= now - 24 h` against a clock that carries microseconds. The model compares whole seconds in both (Readings.ReadingStore.LocalHistory, CloudApi.EnergyOf, CloudApi.ApiEnergy): a point exactly 24 hours before the whole-second clock counts toward the last 24 hours in the model but not in the code when the clock's microseconds are non-zero. It also treats the string order of stored SQLite timestamps as chronological.
- JSON null keys: a null `dateTime` of a history point is read as an absent one, and a null parameter `code` has no representation. The code keys such a point or value under `None`; for a history series, sorting then raises on mixing `None` with strings, except when `None` is the only key. JSON null values, null Mode/Power texts and a null `valueList` are modelled.
- Readings.ReadingStore.LocalHistory: the PostgreSQL branch computes the cutoff in the database's clock; the model uses one clock value `now` for both branches.
- `/api/status`, `/api/db-stats` and `/api/import-cloud`: thin wrappers over the modelled parameter read, statistics and import.
- `api_events`: it calls a function that does not exist and always ends in its error branch.
- `get_client` ignores a failed login and goes on with the token it has. The endpoints model this, but not what the vendor does with such a request.
- Series.CloudCop: the inner `power_kw > 0` test is always true once `power_kw > 0.1` holds, so the model leaves it out. A zero flow temperature counts as missing, as Python's truth test makes it.
- The command-line tools (`perifal_cli.py`, `explore_parameters.py`, `identify_sensors.py`): argument parsing and printing over the client calls.
- Python's set iteration order in `import_cloud_history`: Readings.InsertLoop takes any enumeration of the key set. When two keys parse to one timestamp, the model does not fix which one is inserted.
