# Fleet collector, management-server client and experience score

This project models three parts of a network-monitoring tool in Dafny 4.

* **The JSON-RPC client** (`src/fmg_client.py`). It logs in to a FortiManager, lists the devices of an ADOM and proxies monitoring queries to each FortiGate. It keeps one piece of state, the session id. It attaches that id to later requests only when it is truthy.
* **The fleet collector** (`src/collector.py`). It logs in and lists the devices. For each connected device it asks for three records: system status, managed switches and managed access points. It folds the replies into one report row per device, then logs out. A device whose fetch raises gets an "Error" row, but an exception raised while handling that error escapes the run.
* **The experience score** (`analysis/scoring.py`). It turns a site's metrics into a score from 0 to 100 and the score into a health label.

Layout:

* `wrappers.dfy` holds `Option`.
* `pyjson.dfy` holds the JSON value and `Outcome`, which is either a returned value or a raised exception. It also holds the Python operations the core relies on: truthiness, `in`, `[]`, `len` and `dict.get`. Each of these raises where Python raises.
* `text.dfy` holds `lower`, `rstrip` and the decimal text of an int, with its parser.
* `fmg_client.dfy` holds module `Fmg`, the client class, with pure functions for the request envelopes and for how replies are classified.
* `collector.dfy` holds module `Collection`:
  * the counting loops;
  * the per-device report;
  * the fold over the fleet;
  * ghost specification functions `FleetRun` and `ListedRun`, which give a whole collection run as a value;
  * the `DataCollector` class, whose methods are proved equal to those functions.
* `scoring.dfy` holds module `Scoring`.

The network is a parameter, `net: Request -> Reply`. Every method returns the requests it posted. This lets the contracts state the request trace, for example "no request after a rejected login" or "a logout exactly when the run returns a table".

## Model

| member | source | states |
|---|---|---|
| Text.TrimRight | src/fmg_client.py:20 | `rstrip('/')` gives the longest prefix of the URL that does not end in `/`, and only `/` characters are cut |
| Text.Decimal | src/collector.py:158 | the text of a count is non-empty decimal digits with no leading zero |
| Text.DecimalRoundTrip | src/collector.py:158 | reading the decimal text of `n` gives back `n` |
| Fmg.WithSession | src/fmg_client.py:90-91 | the payload gets a `session` key iff the session id is truthy, with that id as its value; every other key is kept |
| Fmg.LoginRequest | src/fmg_client.py:40-53 | the login is posted to `<base>/jsonrpc` and never carries a session |
| Fmg.DevicesRequest | src/fmg_client.py:80-91 | the device query is posted to `<base>/jsonrpc` and carries the session iff it is truthy |
| Fmg.ProxyRequest | src/fmg_client.py:114-132 | the proxy query is posted to `<base>/jsonrpc` and carries the session iff it is truthy |
| Fmg.LogoutRequest | src/fmg_client.py:158-168 | the logout is posted to `<base>/jsonrpc` and never carries a session |
| Fmg.LoginOutcomeMeaning | src/fmg_client.py:55-74 | a transport failure is a rejection; a `session` key in the reply wins; otherwise a zero status code in `result[0]` accepts the `session_id` cookie (None if absent); anything else, including every exception, is a rejection |
| Fmg.DevicesOfMeaning | src/fmg_client.py:93-105 | the device list is `result[0]['data']` of a reply whose status code is 0, and `[]` for every other reply or exception |
| Fmg.ProxyDataMeaning | src/fmg_client.py:134-152 | the proxied payload is `result[0].get('data', {})` of a reply whose status code is 0, and None (`JNull`) otherwise |
| Fmg.FmgClient.constructor | src/fmg_client.py:11-25 | `verifySsl` defaults to false; the base URL is the given URL with trailing `/` removed; the credentials and the SSL flag are stored; the session id starts as None |
| Fmg.FmgClient.Login | src/fmg_client.py:35-74 | posts the login request; returns true iff the reply is accepted, then stores the accepted session; on a rejection the session id is unchanged |
| Fmg.FmgClient.GetManagedDevices | src/fmg_client.py:76-105 | the ADOM defaults to `root`; posts the device query with the current session and returns the classified device list |
| Fmg.FmgClient.ExecuteDeviceCommand | src/fmg_client.py:107-152 | posts the proxy query for the target and path with the current session and returns the classified payload |
| Fmg.FmgClient.Logout | src/fmg_client.py:154-173 | posts the logout request, ignores the reply and changes no state |
| Fmg.BaseUrlNormalised | src/fmg_client.py:20 | the normalised base URL is a prefix of the URL, does not end in `/`, and only `/` characters were removed |
| Fmg.LoginScenarios | tests/test_fmg_client.py:15-33 | a reply with a session logs in with that session; a reply with code -1 is rejected |
| Fmg.DevicesScenario | tests/test_fmg_client.py:35-46 | a device list under code 0 is returned unchanged |
| Fmg.ProxyScenario | tests/test_fmg_client.py:48-61 | a proxied payload under code 0 is returned unchanged |
| Collection.CountUp | src/collector.py:120-128 | a counted number of up entries never exceeds the number of entries |
| Collection.CountUpMeaning | src/collector.py:120-128 | the loop yields a count iff every entry is a dict; all entries up gives the length and none up gives 0; otherwise it raises the AttributeError of the first non-dict entry, and every entry before it is a dict |
| Collection.CountUpAppend | src/collector.py:122-128 | the count is additive over a concatenation, and an exception in the first part wins |
| Collection.CountUpSingle | src/collector.py:125-128 | a single dict entry adds 1 exactly when its status or state is one of the up words |
| Collection.Tally | src/collector.py:112-146 | counts have up <= total; a payload that is not a list after one `results` unwrap gives 0/0; otherwise the total is the list's length |
| Collection.CountStatus | src/collector.py:112-146 | the switch and access-point blocks compute exactly `Tally` |
| Collection.CountEntries | src/collector.py:122-128 | the `for` loop computes exactly `CountUp` |
| Collection.TallyUnwrapsResults | src/collector.py:116-118 | a list under `results` counts as the bare list |
| Collection.TallyUnwrapsOnce | src/collector.py:135-136 | only one `results` layer is unwrapped, so a doubly wrapped list counts 0/0 |
| Collection.SwitchScenario | src/collector.py:122-128 | `status: up`, `status: DOWN` and `state: Online` count as 2 of 3 switches up, case-insensitively |
| Collection.AccessPointScenario | src/collector.py:138-146 | `status: Running` is up; `connection_state: up` is not up, because `up` is not a connection-state word |
| Collection.DetailsRoundTrip | src/collector.py:158 | the details text determines the four counts it was made from |
| Collection.SystemStats | src/collector.py:99-109 | raises iff the payload is a truthy dict whose `results` value is not a dict; a payload that is not a truthy dict gives cpu and mem of 0 |
| Collection.SystemStatsSource | src/collector.py:101-109 | cpu and mem are read from `results` when it is present, otherwise from the top level, with 0 as the default |
| Collection.DeviceStatus | src/collector.py:62-159 | a non-dict entry raises AttributeError; a device without `conn_status == 1` gets the DOWN report; any report keeps the entry's name and serial, has up <= total, and a status of UP, DOWN or Unreachable |
| Collection.ConnectedReport | src/collector.py:98-159 | for a connected device the report exists iff no block raises; its status is UP iff the system payload is truthy, else Unreachable; cpu, mem and the counts are the blocks' results; the details text parses back to those counts |
| Collection.DataCollector.FetchDeviceStatus | src/collector.py:62-159 | returns exactly `DeviceStatus` of the three proxied payloads, and posts the three proxy requests only for a connected dict entry |
| Collection.FetchedAllReported | src/collector.py:33-57 | the outcomes of the completed fetches, passed through the `except` branch, are each entry's own outcome |
| Collection.EachAt | src/collector.py:34-37 | submitting a fetch for each device gives one result per device, the fetch of that device |
| Collection.CollectMeaning | src/collector.py:39-57 | the fold yields a list iff no outcome raised, and then the returned values in order; otherwise it raises the first exception |
| Collection.EntryOutcome | src/collector.py:39-57 | an entry contributes a row exactly when it is a dict, and that row has the entry's name and serial |
| Collection.FleetOneReportPerDevice | src/collector.py:33-57 | the fleet yields a table iff every entry is a dict; the table then has one row per entry, in order, with that entry's name and serial and every up count within its total; the multiset of names is that of the devices |
| Collection.FleetIsolatesFailures | src/collector.py:41-57 | in a returned table, a device whose fetch raised gets the "Error" row with zero figures and the exception text, and every other device gets its own report |
| Collection.StringEntries | src/collector.py:36-45 | string entries (the characters of a string, the keys of a dict) post no request, and the run raises at the first one |
| Collection.ListedRunAsFinish | src/collector.py:27-36 | every order in which `for device in self.devices` may visit the device list gives the same run |
| Collection.ListedDict | src/collector.py:27-57 | a dict as the device list: an empty dict gives an empty table and a logout; any other dict raises AttributeError with no device fetched and no logout |
| Collection.ListedRunUnlisted | src/collector.py:27-28 | a device list that `len` refuses ends the run with that TypeError, after the login and device requests only |
| Collection.LoginGate | src/collector.py:22-24 | a rejected login gives an empty table, posts only the login request, and leaves the session id and the device list unchanged |
| Collection.FleetRunOverList | src/collector.py:17-60 | after an accepted login and a listed array, the run keeps the new session and the listed devices; it returns a table iff every entry is a dict, with one row per entry and a final logout; otherwise no logout is posted |
| Collection.FinishOverEntries | src/collector.py:33-59 | fetching and folding the entries gives a table iff they are all dicts, with one row per entry and a final logout; a raised run posts no logout |
| Collection.OpeningIsNoLogout | src/collector.py:22-27 | neither the login request nor the device query is a logout request |
| Collection.NoLogoutInFetches | src/collector.py:33-59 | no request posted while fetching devices is a logout; the only logout comes after the pool |
| Collection.ProxiesAreNoLogout | src/collector.py:89-92 | none of a device's three proxy requests is a logout request |
| Collection.DataCollector.constructor | src/collector.py:12-15 | with `verifySsl` defaulting to false and the ADOM to `root`, builds a fresh client from the URL, credentials and SSL flag, stores the ADOM, and starts with an empty device list |
| Collection.DataCollector.Entries | src/collector.py:36 | yields the entries `for device in self.devices` visits: a list's items, a string's characters, or each of a dict's keys exactly once, as distinct strings |
| Collection.DataCollector.FetchAllData | src/collector.py:17-60 | the requests posted, the result, the session id and the device list afterwards are exactly `FleetRun` of the state before |
| Collection.DataCollector.ListAndReport | src/collector.py:26-60 | after an accepted login, the requests, the result, the session and the stored device list are exactly `ListedRun` |
| Collection.DataCollector.ReportOnAll | src/collector.py:33-59 | the result is the fleet fold over the entries; the posted requests are every device's proxy requests, then a logout iff a table was returned |
| Collection.DataCollector.FetchEach | src/collector.py:33-37 | every entry is fetched in submission order: the outcomes are `fetch_device_status` of each entry, and the requests posted are exactly the fetches' requests |
| Collection.DataCollector.CollectReports | src/collector.py:39-57 | the `as_completed` loop computes exactly the fold of the per-entry outcomes |
| Scoring.AvailabilityPenalty | analysis/scoring.py:20-25 | a LAN tier costs 20 points exactly when its status is false; a missing status costs nothing |
| Scoring.LatencyPenalty | analysis/scoring.py:29-34 | latency up to 50 ms costs nothing; above that the cost is positive and at most 30, and is 30 iff latency >= 350 ms |
| Scoring.LossPenalty | analysis/scoring.py:36-41 | no loss costs nothing; any loss costs a positive amount of at most 40, and 40 iff loss >= 8 % |
| Scoring.JitterPenalty | analysis/scoring.py:43-48 | jitter up to 10 ms costs nothing; above that the cost is positive and at most 10, and is 10 iff jitter >= 60 ms |
| Scoring.Deductions | analysis/scoring.py:18-48 | the total deduction is between 0 and 120 |
| Scoring.NearestInt | analysis/scoring.py:50 | Python's `round`: the result is within 0.5 of its input, and a tie goes to the even integer |
| Scoring.Round1 | analysis/scoring.py:50 | `round(x, 1)` is within 0.05 of x |
| Scoring.NearestIntMonotone | analysis/scoring.py:50 | rounding never reverses an order |
| Scoring.Round1Monotone | analysis/scoring.py:50 | rounding to one decimal never reverses an order |
| Scoring.Round1Exact | analysis/scoring.py:50 | a value that already has one decimal is unchanged by `round(x, 1)` |
| Scoring.Score | analysis/scoring.py:1-50 | the score is in [0, 100]; it is 0 when the WAN status is false or missing; with the WAN up it is within 0.05 of 100 minus the deductions, unless the 0 floor applies |
| Scoring.CalculateScore | analysis/scoring.py:1-50 | the step-by-step deductions compute exactly `Score`, which lies in [0, 100] |
| Scoring.HealthyScoresHundred | analysis/scoring.py:14-50 | a site with the WAN up and every metric within threshold scores 100; a WAN-up score of 100 means the deductions are at most 0.05 |
| Scoring.SmallPenaltyRoundsAway | analysis/scoring.py:29-34 | 50.1 ms of latency still scores 100, because the rounding swallows the penalty |
| Scoring.MissingStatusDefaults | analysis/scoring.py:15-25 | a missing WAN status scores 0; a missing LAN status scores as up |
| Scoring.MissingMeasurementDefaults | analysis/scoring.py:31-45 | a missing latency, loss or jitter scores as 0 |
| Scoring.LatencyNeverRaisesScore | analysis/scoring.py:31-34 | more latency, all else fixed, never raises the score |
| Scoring.LossNeverRaisesScore | analysis/scoring.py:38-41 | more packet loss, all else fixed, never raises the score |
| Scoring.JitterNeverRaisesScore | analysis/scoring.py:45-48 | more jitter, all else fixed, never raises the score |
| Scoring.OutageNeverRaisesScore | analysis/scoring.py:21-25 | a LAN tier going down never raises the score |
| Scoring.PerfectScore | tests/test_scoring.py:4-13 | 20 ms latency, no loss and 5 ms jitter score 100 |
| Scoring.HighLatencyScore | tests/test_scoring.py:15-25 | 150 ms latency scores 90 |
| Scoring.PacketLossScore | tests/test_scoring.py:27-37 | 2 % packet loss scores 90 |
| Scoring.SwitchDownScore | tests/test_scoring.py:39-49 | a switch tier that is down scores 80 |
| Scoring.WanDownScore | tests/test_scoring.py:51-60 | a WAN that is down scores 0 |
| Scoring.ScoreFloor | tests/test_scoring.py:62-73 | deductions of 120 are floored at 0 |
| Scoring.HealthStatus | analysis/scoring.py:52-63 | the label is one of Excellent, Good, Fair, Poor or Critical |
| Scoring.HealthBands | analysis/scoring.py:52-63 | each label holds exactly on its band: >= 90, [70, 90), [50, 70), (0, 50), <= 0 |
| Scoring.HealthStatusMonotone | analysis/scoring.py:52-63 | a higher score never gets a worse label |
| Scoring.SiteHealth | analysis/scoring.py:14-63 | a site whose WAN is down or unknown is Critical; a healthy site is Excellent |

## Left out

- HTTP transport: the `requests` session, `HTTPAdapter` pooling, the SSL-verification flag and the disabling of its warning are not modelled. A post and its `raise_for_status` and `json()` are one `Network` call, and any failure there is `TransportError`. `verifySsl` is stored but is not part of a request.
- Network state: the network is a pure function of the request, so two identical requests get the same reply.
- Cookies: the `session_id` cookie is the one carried by the login reply. Cookies accumulated by the HTTP session across earlier calls are not modelled.
- Logging: every `logger` call is left out, with its message text. Two expressions inside log messages are modelled because they can raise or decide the run: the `len(self.devices)` in the device-count message of `fetch_all_data` (`src/collector.py:28`), whose `TypeError` for a device list without a length ends the run (`ListedRunUnlisted`); and the `device.get('name')` in its `except` branch (`src/collector.py:45`), which makes a non-dict entry's exception escape.
- Concurrency: both thread pools are run sequentially. All devices are fetched in list order, then the outcomes are folded in that same order. `as_completed` may hand the rows, and the first escaping exception, over in any order.
- Collection.DataCollector.FetchAllData: returns the `Outcome` of a list of report rows instead of a pandas `DataFrame`. A rejected login gives the empty list, where the source gives an empty frame.
- Dict iteration order: when the device list is a dict, each of its keys is visited once, in an order the model leaves open (`Visits`: one distinct key string per entry of the dict). Every order gives the same run (`ListedRunAsFinish`).
- Exception texts: a Python exception is modelled by its kind and the type name involved (`'int' object has no attribute 'get'`). The exact wording of Python's messages is approximate.
- String case: `str.lower()` is ASCII lower-casing. `str()` of a value that is not a string is never one of the up words in Python (it starts with a digit, a minus sign, `[`, `{`, `None`, `True`, `False`, `inf` or `nan`), so the up test counts only strings.
- Numbers: JSON numbers are exact reals. Python's `==` between an int and a float, and `True == 1`, are modelled by `EqualsInt`. Integer width and floating-point error are not modelled.
- Scoring.Round1: rounds the exact decimal value to the nearest tenth, ties to even. Python's `round(x, 1)` works on the binary float, so a value whose double is inexact may round differently there: the double nearest 0.15 is slightly below it, so Python gives 0.1 where `Round1` gives 0.2.
- Scoring.Metrics: each status is modelled as an optional boolean and each measurement as an optional number. Metrics of another type, and the `TypeError`s they would cause, are not modelled.
- Scoring.HealthyScoresHundred: proves only that a healthy site scores 100. The converse fails: a site with 50.1 ms latency is not healthy, yet scores 100 (`SmallPenaltyRoundsAway`).
- Logout: `logout` leaves `session_id` as it was. The model keeps it, and `FleetRunOverList` states that the run ends with the client still holding the session.
- The dashboards (`src/dashboard.py`, `dashboard/app.py`), the scrapers under `collectors/`, `database/db.py`, `utils/` and `main.py` are not part of this model.

## Behaviour worth knowing

The model follows the code in each of these cases, including where one might expect otherwise.

- A disconnected device's details text is "Device disconnected from FMG" (`src/collector.py:84`), naming the product rather than a generic "management plane".
- An access point's `connection_state` is tested against `connected`, `online` and `running` only (`src/collector.py:145`). `up` counts only in `status`, as `AccessPointScenario` shows.
- Only one `results` layer is unwrapped (`src/collector.py:103-106`, `116-118`, `135-136`), so a list wrapped twice, once per RPC layer, is not unwrapped to the list; see `TallyUnwrapsOnce`.
- Logout does not clear the session id (`src/fmg_client.py:154-173`), although one might expect a logged-out client to hold no session.
- A device entry that is not a dict makes the whole run raise. Its fetch raises, and the `except` handler's own `device.get('name')` (`src/collector.py:45`) raises again. So one report per device holds only when every entry is a dict (`FleetOneReportPerDevice`).
- Malformed sub-query data makes `fetch_device_status` raise, and the device gets an "Error" row; it does not fall back to defaults. Two cases do this:
  - a `results` value that is not a dict in the system status (`src/collector.py:104-108`);
  - non-dict entries in a switch or access-point list (`src/collector.py:125`, `142`).
- A transport failure on one proxied sub-query becomes `None` (`src/fmg_client.py:150-152`). The device then shows as "Unreachable", or with zero counts, and never as an "Error" row (`ProxyDataMeaning`, `ConnectedReport`).
