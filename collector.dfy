/**
 * The fleet collector: one status report per managed device, built from the
 * device's registry entry and three proxied monitoring queries, and the fleet
 * run that logs in, lists the devices, reports on each and logs out.
 *
 * The two thread pools of the collector are modelled sequentially: every
 * device is fetched (in list order), then the outcomes are folded into the
 * result list in that same order.
 */
module Collection {

  import opened PyJson
  import opened Wrappers
  import opened Fmg
  import Text

  const SystemStatusPath := "/api/v2/monitor/system/status"
  const SwitchStatusPath := "/api/v2/monitor/switch-controller/managed-switch/status"
  const AccessPointPath := "/api/v2/monitor/wifi/managed-ap"

  const SwitchUpWords: set<string> := {"up", "online", "connected"}
  const ApStatusUpWords: set<string> := {"up", "online", "connected", "running"}
  const ApConnectionUpWords: set<string> := {"connected", "online", "running"}

  /** One row of the collector's table. */
  datatype Report = Report(
    name: Json,
    serial: Json,
    status: string,
    cpu: Json,
    mem: Json,
    switchesTotal: nat,
    switchesUp: nat,
    apsTotal: nat,
    apsUp: nat,
    details: string)

  datatype Counts = Counts(total: nat, up: nat)

  datatype Kind = Switches | AccessPoints

  // ---------------------------------------------------------------------------
  // Counting switches and access points

  /** `str(entry.get(key, '')).lower() in words`; only a string can lower-case to a word. */
  predicate FieldIn(entry: map<string, Json>, key: string, words: set<string>) {
    key in entry && entry[key].JStr? && Text.Lower(entry[key].s) in words
  }

  predicate IsUp(kind: Kind, entry: map<string, Json>) {
    match kind
    case Switches => FieldIn(entry, "status", SwitchUpWords) || FieldIn(entry, "state", SwitchUpWords)
    case AccessPoints => FieldIn(entry, "status", ApStatusUpWords) || FieldIn(entry, "connection_state", ApConnectionUpWords)
  }

  /** What one dict entry adds to the up-count. */
  function UpBit(kind: Kind, entry: map<string, Json>): nat {
    if IsUp(kind, entry) then 1 else 0
  }

  function Plus(o: Outcome<nat>, k: nat): Outcome<nat> {
    match o
    case Returned(n) => Returned(n + k)
    case Raised(m) => Raised(m)
  }

  /**
   * The `for` loop over the entries: the number of entries that are up, or the
   * AttributeError of the first entry that is not a dict.
   */
  function CountUp(entries: seq<Json>, kind: Kind): (r: Outcome<nat>)
    ensures r.Returned? ==> r.value <= |entries|
  {
    if entries == [] then Returned(0)
    else if !entries[0].JObj? then Raised(NoAttribute(entries[0], "get"))
    else Plus(CountUp(entries[1..], kind), UpBit(kind, entries[0].fields))
  }

  /**
   * The loop yields a count iff every entry is a dict; otherwise it raises the
   * AttributeError of the first entry that is not. All entries up give the
   * length, none up gives 0.
   */
  lemma {:induction false} CountUpMeaning(entries: seq<Json>, kind: Kind)
    ensures var r := CountUp(entries, kind);
      && (r.Returned? <==> forall i :: 0 <= i < |entries| ==> entries[i].JObj?)
      && (r.Returned? && (forall i :: 0 <= i < |entries| ==> IsUp(kind, entries[i].fields)) ==> r.value == |entries|)
      && (r.Returned? && (forall i :: 0 <= i < |entries| ==> !IsUp(kind, entries[i].fields)) ==> r.value == 0)
      && (r.Raised? ==> exists i :: 0 <= i < |entries| && !entries[i].JObj? && r.message == NoAttribute(entries[i], "get")
                                    && forall j :: 0 <= j < i ==> entries[j].JObj?)
  {
    if entries != [] && entries[0].JObj? {
      var rest := entries[1..];
      CountUpMeaning(rest, kind);
      var r := CountUp(entries, kind);
      if r.Raised? {
        var i :| 0 <= i < |rest| && !rest[i].JObj? && r.message == NoAttribute(rest[i], "get")
                 && forall j :: 0 <= j < i ==> rest[j].JObj?;
        assert entries[i + 1] == rest[i];
        assert forall j :: 0 <= j < i + 1 ==> entries[j].JObj? by {
          forall j | 0 <= j < i + 1 ensures entries[j].JObj? {
            if j > 0 { assert entries[j] == rest[j - 1]; }
          }
        }
      }
      if CountUp(rest, kind).Returned? {
        assert forall i :: 0 <= i < |rest| ==> rest[i] == entries[i + 1];
      }
    }
  }

  /**
   * The count is per entry: counting a concatenation is counting each part,
   * the first part's exception winning.
   */
  lemma {:induction false} CountUpAppend(a: seq<Json>, b: seq<Json>, kind: Kind)
    ensures CountUp(a + b, kind) == match CountUp(a, kind)
      case Raised(m) => Raised(m)
      case Returned(n) => Plus(CountUp(b, kind), n)
  {
    if a != [] {
      assert (a + b)[0] == a[0];
      assert (a + b)[1..] == a[1..] + b;
      if a[0].JObj? {
        CountUpAppend(a[1..], b, kind);
      }
    } else {
      assert a + b == b;
      match CountUp(b, kind)
      case Returned(_) =>
      case Raised(_) =>
    }
  }

  /** A single entry counts 1 exactly when it is up. */
  lemma CountUpSingle(e: map<string, Json>, kind: Kind)
    ensures CountUp([JObj(e)], kind) == Returned(if IsUp(kind, e) then 1 else 0)
  {
    assert [JObj(e)][1..] == [];
  }

  /** One level of the optional `results` wrapper. */
  function Unwrap(payload: Json): Json {
    if payload.JObj? && "results" in payload.fields then payload.fields["results"] else payload
  }

  /** The switch or access-point counts a proxied payload yields. */
  function Tally(payload: Json, kind: Kind): (r: Outcome<Counts>)
    ensures r.Returned? ==> r.value.up <= r.value.total
    ensures !Unwrap(payload).JArr? ==> r == Returned(Counts(0, 0))
    ensures r.Returned? && Unwrap(payload).JArr? ==> r.value.total == |Unwrap(payload).items|
  {
    if !Truthy(payload) then Returned(Counts(0, 0))
    else
      var entries := Unwrap(payload);
      if !entries.JArr? then Returned(Counts(0, 0))
      else
        var up :- CountUp(entries.items, kind);
        Returned(Counts(|entries.items|, up))
  }

  /** The counting loops of `fetch_device_status`, for either kind of payload. */
  method CountStatus(payload: Json, kind: Kind) returns (r: Outcome<Counts>)
    ensures r == Tally(payload, kind)
  {
    var status := payload;
    r := Returned(Counts(0, 0));
    if Truthy(status) {
      if status.JObj? && "results" in status.fields {
        status := status.fields["results"];
      }
      if status.JArr? {
        var total := |status.items|;
        var up := CountEntries(status.items, kind);
        if up.Raised? {
          r := Raised(up.message);
        } else {
          r := Returned(Counts(total, up.value));
        }
      }
    }
  }

  /** One counting loop: `for sw in entries: ... if up: count += 1`. */
  method CountEntries(entries: seq<Json>, kind: Kind) returns (r: Outcome<nat>)
    ensures r == CountUp(entries, kind)
  {
    var up: nat := 0;
    for i := 0 to |entries|
      invariant CountUp(entries, kind) == Plus(CountUp(entries[i..], kind), up)
    {
      var entry := entries[i];
      if !entry.JObj? {
        return Raised(NoAttribute(entry, "get"));
      }
      assert entries[i..][1..] == entries[i + 1..];
      if IsUp(kind, entry.fields) {
        up := up + 1;
      }
    }
    assert entries[|entries|..] == [];
    r := Returned(up);
  }

  /** A bare list and the same list under `results` give the same counts. */
  lemma TallyUnwrapsResults(fields: map<string, Json>, kind: Kind)
    requires "results" in fields && fields["results"].JArr?
    ensures Tally(JObj(fields), kind) == Tally(fields["results"], kind)
  {
  }

  /** Only one `results` layer is removed: a doubly wrapped list counts as nothing. */
  lemma TallyUnwrapsOnce(entries: seq<Json>, kind: Kind)
    ensures Tally(JObj(map["results" := JObj(map["results" := JArr(entries)])]), kind) == Returned(Counts(0, 0))
  {
  }

  lemma SwitchScenario()
    ensures Tally(JArr([JObj(map["status" := JStr("up")]),
                        JObj(map["status" := JStr("DOWN")]),
                        JObj(map["state" := JStr("Online")])]), Switches)
         == Returned(Counts(3, 2))
  {
    var e0, e1, e2 := map["status" := JStr("up")], map["status" := JStr("DOWN")], map["state" := JStr("Online")];
    LowerLiteral("up", "up");
    LowerLiteral("DOWN", "down");
    LowerLiteral("Online", "online");
    assert IsUp(Switches, e0) && !IsUp(Switches, e1) && IsUp(Switches, e2);
    var xs := [JObj(e0), JObj(e1), JObj(e2)];
    assert xs[1..] == [JObj(e1), JObj(e2)] && xs[1..][1..] == [JObj(e2)] && xs[1..][1..][1..] == [];
  }

  /** `connection_state: "up"` alone does not make an access point up, `status: "Running"` does. */
  lemma AccessPointScenario()
    ensures Tally(JObj(map["results" := JArr(ApScenarioEntries())]), AccessPoints) == Returned(Counts(4, 2))
  {
    var xs := ApScenarioEntries();
    ApScenarioCount();
    TallyUnwrapsResults(map["results" := JArr(xs)], AccessPoints);
  }

  lemma ApScenarioCount()
    ensures CountUp(ApScenarioEntries(), AccessPoints) == Returned(2)
  {
    var xs := ApScenarioEntries();
    ApScenarioBits();
    assert CountUp(xs[3..], AccessPoints) == Returned(0) by { assert xs[3..][1..] == []; }
    assert CountUp(xs[2..], AccessPoints) == Returned(1) by { assert xs[2..][1..] == xs[3..]; }
    assert CountUp(xs[1..], AccessPoints) == Returned(1) by { assert xs[1..][1..] == xs[2..]; }
  }

  lemma ApScenarioBits()
    ensures var xs := ApScenarioEntries();
      && UpBit(AccessPoints, xs[0].fields) == 1 && UpBit(AccessPoints, xs[1].fields) == 0
      && UpBit(AccessPoints, xs[2].fields) == 1 && UpBit(AccessPoints, xs[3].fields) == 0
  {
    LowerLiteral("Running", "running");
    LowerLiteral("offline", "offline");
    LowerLiteral("connected", "connected");
    LowerLiteral("up", "up");
  }

  function ApScenarioEntries(): seq<Json> {
    [JObj(map["status" := JStr("Running")]),
     JObj(map["status" := JStr("offline")]),
     JObj(map["connection_state" := JStr("connected")]),
     JObj(map["connection_state" := JStr("up")])]
  }

  lemma LowerLiteral(s: string, t: string)
    requires |s| == |t| && forall i :: 0 <= i < |s| ==> Text.LowerChar(s[i]) == t[i]
    ensures Text.Lower(s) == t
  {
  }

  // ---------------------------------------------------------------------------
  // One device

  function NameOf(device: Json): Json {
    if device.JObj? then Lookup(device.fields, "name", JNull) else JNull
  }

  function SerialOf(device: Json): Json {
    if device.JObj? then Lookup(device.fields, "sn", JNull) else JNull
  }

  /** `device.get("conn_status") == 1`. */
  predicate Connected(device: map<string, Json>) {
    EqualsInt(Lookup(device, "conn_status", JNull), 1)
  }

  /** The summary text `Switches: {up}/{total} UP, APs: {up}/{total} UP`. */
  function Details(switches: Counts, aps: Counts): string {
    "Switches: " + (Text.Decimal(switches.up) + ("/" + (Text.Decimal(switches.total) +
    (" UP, APs: " + (Text.Decimal(aps.up) + ("/" + (Text.Decimal(aps.total) + " UP")))))))
  }

  /** Reads the counts back out of a summary text. */
  function ParseDetails(s: string): Option<(Counts, Counts)> {
    var r1 :- Text.Expect("Switches: ", s);
    var su :- Text.ReadNat(r1);
    var r2 :- Text.Expect("/", su.1);
    var st :- Text.ReadNat(r2);
    var r3 :- Text.Expect(" UP, APs: ", st.1);
    var au :- Text.ReadNat(r3);
    var r4 :- Text.Expect("/", au.1);
    var at :- Text.ReadNat(r4);
    var r5 :- Text.Expect(" UP", at.1);
    if r5 == [] then Some((Counts(st.0, su.0), Counts(at.0, au.0))) else None
  }

  /** The summary text determines the four counts it was made from. */
  lemma DetailsRoundTrip(switches: Counts, aps: Counts)
    ensures ParseDetails(Details(switches, aps)) == Some((switches, aps))
  {
    var tail4 := "/" + (Text.Decimal(aps.total) + " UP");
    var tail3 := " UP, APs: " + (Text.Decimal(aps.up) + tail4);
    var tail2 := "/" + (Text.Decimal(switches.total) + tail3);
    Text.ExpectPrefix("Switches: ", Text.Decimal(switches.up) + tail2);
    Text.ReadNatOfDecimal(switches.up, tail2);
    Text.ExpectPrefix("/", Text.Decimal(switches.total) + tail3);
    Text.ReadNatOfDecimal(switches.total, tail3);
    Text.ExpectPrefix(" UP, APs: ", Text.Decimal(aps.up) + tail4);
    Text.ReadNatOfDecimal(aps.up, tail4);
    Text.ExpectPrefix("/", Text.Decimal(aps.total) + " UP");
    Text.ReadNatOfDecimal(aps.total, " UP");
    Text.ExpectPrefix(" UP", "");
  }

  /** The report of a device the management server sees as disconnected. */
  function DownReport(name: Json, serial: Json): Report {
    Report(name, serial, "DOWN", JNum(0.0), JNum(0.0), 0, 0, 0, 0, "Device disconnected from FMG")
  }

  /** CPU and memory from the system-status payload, or the AttributeError of a non-dict `results`. */
  function SystemStats(sys: Json): (r: Outcome<(Json, Json)>)
    ensures r.Raised? <==> Truthy(sys) && sys.JObj? && "results" in sys.fields && !sys.fields["results"].JObj?
    ensures r.Returned? && !(Truthy(sys) && sys.JObj?) ==> r.value == (JNum(0.0), JNum(0.0))
  {
    if Truthy(sys) && sys.JObj? then
      var stats := if "results" in sys.fields then sys.fields["results"] else sys;
      var cpu :- Get(stats, "cpu", JNum(0.0));
      var mem :- Get(stats, "mem", JNum(0.0));
      Returned((cpu, mem))
    else
      Returned((JNum(0.0), JNum(0.0)))
  }

  /**
   * `fetch_device_status` once the three proxied payloads are known: the
   * report, or the exception that escapes it. The payloads are ignored for a
   * device that is not connected.
   */
  function DeviceStatus(device: Json, sys: Json, sw: Json, ap: Json): (r: Outcome<Report>)
    ensures !device.JObj? ==> r == Raised(NoAttribute(device, "get"))
    ensures device.JObj? && !Connected(device.fields) ==> r == Returned(DownReport(NameOf(device), SerialOf(device)))
    ensures r.Returned? ==> r.value.name == NameOf(device) && r.value.serial == SerialOf(device)
    ensures r.Returned? ==> r.value.switchesUp <= r.value.switchesTotal && r.value.apsUp <= r.value.apsTotal
    ensures r.Returned? ==> r.value.status == "UP" || r.value.status == "DOWN" || r.value.status == "Unreachable"
  {
    match device
    case JObj(d) =>
      var name := Lookup(d, "name", JNull);
      var serial := Lookup(d, "sn", JNull);
      if !Connected(d) then Returned(DownReport(name, serial))
      else
        var stats :- SystemStats(sys);
        var switches :- Tally(sw, Switches);
        var aps :- Tally(ap, AccessPoints);
        Returned(Report(name, serial, if Truthy(sys) then "UP" else "Unreachable", stats.0, stats.1,
                        switches.total, switches.up, aps.total, aps.up, Details(switches, aps)))
    case _ => Raised(NoAttribute(device, "get"))
  }

  /** What the report of a connected device is made of. */
  lemma ConnectedReport(device: map<string, Json>, sys: Json, sw: Json, ap: Json)
    requires Connected(device)
    ensures var r := DeviceStatus(JObj(device), sys, sw, ap);
      && (r.Returned? <==> SystemStats(sys).Returned? && Tally(sw, Switches).Returned? && Tally(ap, AccessPoints).Returned?)
      && (r.Returned? ==>
            && (r.value.status == "UP" <==> Truthy(sys))
            && (r.value.status == "Unreachable" <==> !Truthy(sys))
            && (r.value.cpu, r.value.mem) == SystemStats(sys).value
            && Counts(r.value.switchesTotal, r.value.switchesUp) == Tally(sw, Switches).value
            && Counts(r.value.apsTotal, r.value.apsUp) == Tally(ap, AccessPoints).value
            && ParseDetails(r.value.details) == Some((Tally(sw, Switches).value, Tally(ap, AccessPoints).value)))
  {
    var r := DeviceStatus(JObj(device), sys, sw, ap);
    if r.Returned? {
      DetailsRoundTrip(Tally(sw, Switches).value, Tally(ap, AccessPoints).value);
    }
  }

  /** CPU and memory come from `results` when it is there, else from the top level, else 0. */
  lemma SystemStatsSource(sys: map<string, Json>)
    ensures "results" !in sys ==>
      SystemStats(JObj(sys)) == Returned((Lookup(sys, "cpu", JNum(0.0)), Lookup(sys, "mem", JNum(0.0))))
    ensures "results" in sys && sys["results"].JObj? ==>
      var stats := sys["results"].fields;
      SystemStats(JObj(sys)) == Returned((Lookup(stats, "cpu", JNum(0.0)), Lookup(stats, "mem", JNum(0.0))))
  {
  }

  /** The three proxy requests a connected device costs, and none for any other entry. */
  function DeviceRequests(baseUrl: string, sessionId: Json, device: Json): seq<Request> {
    if device.JObj? && Connected(device.fields) then
      [ProxyRequest(baseUrl, sessionId, NameOf(device), SystemStatusPath),
       ProxyRequest(baseUrl, sessionId, NameOf(device), SwitchStatusPath),
       ProxyRequest(baseUrl, sessionId, NameOf(device), AccessPointPath)]
    else []
  }

  function Proxied(baseUrl: string, sessionId: Json, device: Json, path: string, net: Network): Json {
    ProxyDataOf(net(ProxyRequest(baseUrl, sessionId, NameOf(device), path)))
  }

  /** `fetch_device_status(device)` against the network `net`. */
  function FetchedStatus(baseUrl: string, sessionId: Json, device: Json, net: Network): Outcome<Report> {
    DeviceStatus(device,
                 Proxied(baseUrl, sessionId, device, SystemStatusPath, net),
                 Proxied(baseUrl, sessionId, device, SwitchStatusPath, net),
                 Proxied(baseUrl, sessionId, device, AccessPointPath, net))
  }

  // ---------------------------------------------------------------------------
  // The fleet

  /** The report the `except` branch synthesises; `device.get` raises again for a non-dict entry. */
  function ErrorReport(device: Json, message: string): Outcome<Report> {
    var name :- Get(device, "name", JNull);
    var serial :- Get(device, "sn", JNull);
    Returned(Report(name, serial, "Error", JNum(0.0), JNum(0.0), 0, 0, 0, 0, "Error: " + message))
  }

  /** The entry one completed fetch adds to the result list. */
  function ReportOf(device: Json, fetched: Outcome<Report>): Outcome<Report> {
    match fetched
    case Returned(_) => fetched
    case Raised(message) => ErrorReport(device, message)
  }

  function Prepend<T>(xs: seq<T>, o: Outcome<seq<T>>): Outcome<seq<T>> {
    match o
    case Returned(ys) => Returned(xs + ys)
    case Raised(m) => Raised(m)
  }

  lemma PrependNothing<T>(o: Outcome<seq<T>>)
    ensures Prepend([], o) == o
  {
    match o
    case Returned(ys) => assert [] + ys == ys;
    case Raised(_) =>
  }

  lemma PrependTwice<T>(xs: seq<T>, ys: seq<T>, o: Outcome<seq<T>>)
    ensures Prepend(xs, Prepend(ys, o)) == Prepend(xs + ys, o)
  {
    match o
    case Returned(zs) => assert xs + (ys + zs) == xs + ys + zs;
    case Raised(_) =>
  }

  /** Appending outcomes in order, stopping at the first exception. */
  function Collect<T>(os: seq<Outcome<T>>): Outcome<seq<T>> {
    if os == [] then Returned([])
    else match os[0]
      case Raised(m) => Raised(m)
      case Returned(x) => Prepend([x], Collect(os[1..]))
  }

  /**
   * The fold yields a list iff no outcome raised, and then the list of the
   * returned values in order; otherwise it raises the first exception.
   */
  lemma {:induction false} CollectMeaning<T>(os: seq<Outcome<T>>)
    ensures var r := Collect(os);
      && (r.Returned? <==> forall i :: 0 <= i < |os| ==> os[i].Returned?)
      && (r.Returned? ==> |r.value| == |os| && forall i :: 0 <= i < |os| ==> os[i] == Returned(r.value[i]))
      && (r.Raised? ==> exists i :: 0 <= i < |os| && os[i] == Raised(r.message)
                                    && forall j :: 0 <= j < i ==> os[j].Returned?)
  {
    if os != [] {
      var rest := os[1..];
      CollectMeaning(rest);
      assert forall i :: 0 <= i < |rest| ==> rest[i] == os[i + 1];
      var r := Collect(os);
      if os[0].Returned? && r.Raised? {
        var i :| 0 <= i < |rest| && rest[i] == Raised(r.message) && forall j :: 0 <= j < i ==> rest[j].Returned?;
        assert os[i + 1] == Raised(r.message);
        assert forall j :: 0 <= j < i + 1 ==> os[j].Returned? by {
          forall j | 0 <= j < i + 1 ensures os[j].Returned? {
            if j > 0 { assert os[j] == rest[j - 1]; }
          }
        }
      }
    }
  }

  /**
   * The outcome each device entry contributes. The pointwise `ensures` only
   * hands the solver the index form of the comprehension; the meaning of
   * these outcomes is stated by `EntryOutcome` and `FleetOneReportPerDevice`.
   */
  function Outcomes(entries: seq<Json>, baseUrl: string, sessionId: Json, net: Network): (os: seq<Outcome<Report>>)
    ensures |os| == |entries|
    ensures forall i {:trigger os[i]} :: 0 <= i < |entries| ==> os[i] == ReportOf(entries[i], FetchedStatus(baseUrl, sessionId, entries[i], net))
  {
    seq(|entries|, i requires 0 <= i < |entries| => ReportOf(entries[i], FetchedStatus(baseUrl, sessionId, entries[i], net)))
  }

  /**
   * The entries the completed fetches add, in submission order; as with
   * `Outcomes`, the `ensures` is the index form of the comprehension.
   */
  function Reported(entries: seq<Json>, fetched: seq<Outcome<Report>>): (os: seq<Outcome<Report>>)
    requires |fetched| == |entries|
    ensures |os| == |entries|
    ensures forall i {:trigger os[i]} :: 0 <= i < |entries| ==> os[i] == ReportOf(entries[i], fetched[i])
  {
    seq(|entries|, i requires 0 <= i < |entries| => ReportOf(entries[i], fetched[i]))
  }

  /** The result list of a fleet run over the given device entries. */
  function Fleet(entries: seq<Json>, baseUrl: string, sessionId: Json, net: Network): Outcome<seq<Report>> {
    Collect(Outcomes(entries, baseUrl, sessionId, net))
  }

  /** The proxy requests fetching all the entries sends, in order. */
  function FetchTrace(entries: seq<Json>, baseUrl: string, sessionId: Json): seq<Request> {
    if entries == [] then []
    else FetchTrace(entries[..|entries| - 1], baseUrl, sessionId) + DeviceRequests(baseUrl, sessionId, entries[|entries| - 1])
  }

  lemma FetchTraceStep(entries: seq<Json>, i: nat, baseUrl: string, sessionId: Json)
    requires i < |entries|
    ensures FetchTrace(entries[..i + 1], baseUrl, sessionId)
         == FetchTrace(entries[..i], baseUrl, sessionId) + DeviceRequests(baseUrl, sessionId, entries[i])
  {
    assert entries[..i + 1][..i] == entries[..i];
  }

  /** `f` applied to each element, in order. */
  function Each<A, B>(f: A -> B, xs: seq<A>): seq<B> {
    if xs == [] then [] else Each(f, xs[..|xs| - 1]) + [f(xs[|xs| - 1])]
  }

  lemma EachStep<A, B>(f: A -> B, xs: seq<A>, i: nat)
    requires i < |xs|
    ensures Each(f, xs[..i + 1]) == Each(f, xs[..i]) + [f(xs[i])]
  {
    assert xs[..i + 1][..i] == xs[..i];
  }

  lemma {:induction false} EachAt<A, B>(f: A -> B, xs: seq<A>)
    ensures |Each(f, xs)| == |xs|
    ensures forall j :: 0 <= j < |xs| ==> Each(f, xs)[j] == f(xs[j])
  {
    if xs != [] {
      var init := xs[..|xs| - 1];
      EachAt(f, init);
      forall j | 0 <= j < |init|
        ensures Each(f, xs)[j] == f(xs[j])
      {
        assert Each(f, xs)[j] == Each(f, init)[j] && init[j] == xs[j];
      }
    }
  }

  /** `fetch_device_status` as the function the pool applies to each entry. */
  function Fetch(baseUrl: string, sessionId: Json, net: Network): Json -> Outcome<Report> {
    device => FetchedStatus(baseUrl, sessionId, device, net)
  }

  /** The completed fetches, fed to the `as_completed` loop, give each entry's own outcome. */
  lemma FetchedAllReported(entries: seq<Json>, baseUrl: string, sessionId: Json, net: Network)
    ensures |Each(Fetch(baseUrl, sessionId, net), entries)| == |entries|
    ensures Reported(entries, Each(Fetch(baseUrl, sessionId, net), entries)) == Outcomes(entries, baseUrl, sessionId, net)
  {
    EachAt(Fetch(baseUrl, sessionId, net), entries);
  }

  function Names(reports: seq<Report>): seq<Json> {
    seq(|reports|, i requires 0 <= i < |reports| => reports[i].name)
  }

  function DeviceNames(entries: seq<Json>): seq<Json> {
    seq(|entries|, i requires 0 <= i < |entries| => NameOf(entries[i]))
  }

  /**
   * Exactly one report per device: the run yields a list iff every entry is a
   * dict, and then the list has one report per entry with that entry's name
   * and serial, so the multiset of names is that of the devices.
   */
  lemma FleetOneReportPerDevice(entries: seq<Json>, baseUrl: string, sessionId: Json, net: Network)
    ensures var r := Fleet(entries, baseUrl, sessionId, net);
      && (r.Returned? <==> forall i :: 0 <= i < |entries| ==> entries[i].JObj?)
      && (r.Returned? ==>
            && |r.value| == |entries|
            && (forall i :: 0 <= i < |entries| ==>
                  && r.value[i].name == NameOf(entries[i])
                  && r.value[i].serial == SerialOf(entries[i])
                  && r.value[i].switchesUp <= r.value[i].switchesTotal
                  && r.value[i].apsUp <= r.value[i].apsTotal)
            && multiset(Names(r.value)) == multiset(DeviceNames(entries)))
  {
    var os := Outcomes(entries, baseUrl, sessionId, net);
    var r := Collect(os);
    CollectMeaning(os);
    forall i | 0 <= i < |entries|
      ensures EntryReport(entries[i], os[i])
    {
      EntryOutcome(entries[i], baseUrl, sessionId, net);
    }
    if r.Returned? {
      assert Names(r.value) == DeviceNames(entries);
    }
  }

  /** The outcome an entry contributes is a report exactly for a dict, and then one that belongs to it. */
  predicate EntryReport(device: Json, o: Outcome<Report>) {
    && (o.Returned? <==> device.JObj?)
    && (o.Returned? ==>
          && o.value.name == NameOf(device) && o.value.serial == SerialOf(device)
          && o.value.switchesUp <= o.value.switchesTotal && o.value.apsUp <= o.value.apsTotal)
  }

  lemma EntryOutcome(device: Json, baseUrl: string, sessionId: Json, net: Network)
    ensures EntryReport(device, ReportOf(device, FetchedStatus(baseUrl, sessionId, device, net)))
  {
  }

  /**
   * Failure isolation: when the fleet yields a list, a device whose fetch
   * raised gets an "Error" report with zero figures and the exception text,
   * and every other device gets the report its own fetch returned.
   */
  lemma FleetIsolatesFailures(entries: seq<Json>, baseUrl: string, sessionId: Json, net: Network, i: nat)
    requires i < |entries|
    requires Fleet(entries, baseUrl, sessionId, net).Returned?
    ensures |Fleet(entries, baseUrl, sessionId, net).value| == |entries|
    ensures var report := Fleet(entries, baseUrl, sessionId, net).value[i];
      var fetched := FetchedStatus(baseUrl, sessionId, entries[i], net);
      && (fetched.Returned? ==> report == fetched.value)
      && (fetched.Raised? ==>
            report == Report(NameOf(entries[i]), SerialOf(entries[i]), "Error", JNum(0.0), JNum(0.0),
                             0, 0, 0, 0, "Error: " + fetched.message))
  {
    var os := Outcomes(entries, baseUrl, sessionId, net);
    CollectMeaning(os);
    assert os[i] == ReportOf(entries[i], FetchedStatus(baseUrl, sessionId, entries[i], net));
  }

  /** Entries that are strings (the characters of a string, the keys of a dict) fail the run at once. */
  lemma {:induction false} StringEntries(entries: seq<Json>, baseUrl: string, sessionId: Json, net: Network)
    requires forall i :: 0 <= i < |entries| ==> entries[i].JStr?
    ensures FetchTrace(entries, baseUrl, sessionId) == []
    ensures Fleet(entries, baseUrl, sessionId, net)
         == if entries == [] then Returned([]) else Raised(NoAttribute(JStr(""), "get"))
  {
    if entries != [] {
      StringEntries(entries[..|entries| - 1], baseUrl, sessionId, net);
      var os := Outcomes(entries, baseUrl, sessionId, net);
      assert os[0] == Raised(NoAttribute(JStr(""), "get"));
    }
  }

  /** The observable effect of one fleet run. */
  datatype Run = Run(sent: seq<Request>, result: Outcome<seq<Report>>, sessionId: Json, devices: Json)

  /** The run over the entries of a device list that `len` accepted: fetch all, fold, log out. */
  function Finish(opening: seq<Request>, entries: seq<Json>, baseUrl: string, sessionId: Json, net: Network, listed: Json): Run {
    var result := Fleet(entries, baseUrl, sessionId, net);
    Run(opening + (FetchTrace(entries, baseUrl, sessionId) + (if result.Returned? then [LogoutRequest(baseUrl)] else [])),
        result, sessionId, listed)
  }

  function Chars(s: string): seq<Json> {
    seq(|s|, i requires 0 <= i < |s| => JStr([s[i]]))
  }

  /**
   * `fetch_all_data`: the requests it posts, its result (the table's rows, or
   * the exception that escapes it), and the client's session id and the
   * collector's device list afterwards.
   */
  ghost function FleetRun(baseUrl: string, username: string, password: string, sessionBefore: Json,
                          devicesBefore: Json, adom: string, net: Network): Run
  {
    var loginRequest := LoginRequest(baseUrl, username, password);
    match LoginOutcomeOf(net(loginRequest))
    case Rejected => Run([loginRequest], Returned([]), sessionBefore, devicesBefore)
    case Accepted(sessionId) => ListedRun(loginRequest, baseUrl, sessionId, adom, net)
  }

  /**
   * What `for device in listed` visits: a list's items, a string's
   * characters, a dict's keys (in an order the model leaves open).
   */
  ghost function ListEntries(listed: Json): seq<Json> {
    match listed
    case JArr(xs) => xs
    case JStr(s) => Chars(s)
    case JObj(m) => KeyEntries(m.Keys)
    case _ => []
  }

  ghost function KeyEntries(keys: set<string>): (entries: seq<Json>)
    ensures |entries| == |keys|
    ensures forall i :: 0 <= i < |entries| ==> entries[i].JStr? && entries[i].s in keys
    ensures forall i, j :: 0 <= i < j < |entries| ==> entries[i] != entries[j]
    decreases |keys|
  {
    if keys == {} then []
    else
      var k :| k in keys;
      [JStr(k)] + KeyEntries(keys - {k})
  }

  /** An iteration order over `listed`: the list or string itself, or the dict's keys in any order. */
  predicate Visits(listed: Json, entries: seq<Json>) {
    match listed
    case JArr(xs) => entries == xs
    case JStr(s) => entries == Chars(s)
    case JObj(m) =>
      && |entries| == |m|
      && (forall i :: 0 <= i < |entries| ==> entries[i].JStr? && entries[i].s in m)
      && (forall i, j :: 0 <= i < j < |entries| ==> entries[i] != entries[j])
    case _ => false
  }

  /** The run after the login posted as `loginRequest` was accepted with `sessionId`. */
  ghost function ListedRun(loginRequest: Request, baseUrl: string, sessionId: Json, adom: string, net: Network): Run {
    var devicesRequest := DevicesRequest(baseUrl, sessionId, adom);
    var listed := DevicesOf(net(devicesRequest));
    var opening := [loginRequest, devicesRequest];
    match Len(listed)
    case Raised(message) => Run(opening, Raised(message), sessionId, listed)
    case Returned(_) => Finish(opening, ListEntries(listed), baseUrl, sessionId, net, listed)
  }

  /** Every iteration order over the device list gives the same run. */
  lemma ListedRunAsFinish(loginRequest: Request, baseUrl: string, sessionId: Json, adom: string, net: Network,
                          entries: seq<Json>)
    requires Visits(DevicesOf(net(DevicesRequest(baseUrl, sessionId, adom))), entries)
    ensures var devicesRequest := DevicesRequest(baseUrl, sessionId, adom);
      ListedRun(loginRequest, baseUrl, sessionId, adom, net)
        == Finish([loginRequest, devicesRequest], entries, baseUrl, sessionId, net, DevicesOf(net(devicesRequest)))
  {
    var listed := DevicesOf(net(DevicesRequest(baseUrl, sessionId, adom)));
    if listed.JObj? {
      assert |listed.fields.Keys| == |listed.fields|;
      StringEntries(entries, baseUrl, sessionId, net);
      StringEntries(KeyEntries(listed.fields.Keys), baseUrl, sessionId, net);
    }
  }

  /**
   * A dict as the device list: an empty one gives an empty table and a
   * logout; any other raises the AttributeError of its first key, and no
   * device is fetched either way.
   */
  lemma ListedDict(loginRequest: Request, baseUrl: string, sessionId: Json, adom: string, net: Network)
    requires DevicesOf(net(DevicesRequest(baseUrl, sessionId, adom))).JObj?
    ensures var devicesRequest := DevicesRequest(baseUrl, sessionId, adom);
      var m := DevicesOf(net(devicesRequest)).fields;
      var run := ListedRun(loginRequest, baseUrl, sessionId, adom, net);
      run == if m == map[] then Run([loginRequest, devicesRequest, LogoutRequest(baseUrl)], Returned([]), sessionId, JObj(m))
             else Run([loginRequest, devicesRequest], Raised(NoAttribute(JStr(""), "get")), sessionId, JObj(m))
  {
    var devicesRequest := DevicesRequest(baseUrl, sessionId, adom);
    var listed := DevicesOf(net(devicesRequest));
    var entries := KeyEntries(listed.fields.Keys);
    assert |listed.fields.Keys| == |listed.fields|;
    StringEntries(entries, baseUrl, sessionId, net);
    var opening := [loginRequest, devicesRequest];
    ListedRunAsFinish(loginRequest, baseUrl, sessionId, adom, net, entries);
    if listed.fields == map[] {
      assert opening + ([] + [LogoutRequest(baseUrl)]) == [loginRequest, devicesRequest, LogoutRequest(baseUrl)];
    } else {
      assert opening + ([] + []) == opening;
    }
  }

  /** A device list `len` refuses ends the run with the `TypeError`, before any device is fetched. */
  lemma ListedRunUnlisted(loginRequest: Request, baseUrl: string, sessionId: Json, adom: string, net: Network)
    requires Len(DevicesOf(net(DevicesRequest(baseUrl, sessionId, adom)))).Raised?
    ensures var devicesRequest := DevicesRequest(baseUrl, sessionId, adom);
      var listed := DevicesOf(net(devicesRequest));
      ListedRun(loginRequest, baseUrl, sessionId, adom, net)
        == Run([loginRequest, devicesRequest], Raised(Len(listed).message), sessionId, listed)
  {
  }

  /** A rejected login ends the run: an empty table, no device fetched, no logout, nothing changed. */
  lemma LoginGate(baseUrl: string, username: string, password: string, sessionBefore: Json,
                  devicesBefore: Json, adom: string, net: Network)
    requires !LoginOutcomeOf(net(LoginRequest(baseUrl, username, password))).Accepted?
    ensures FleetRun(baseUrl, username, password, sessionBefore, devicesBefore, adom, net)
         == Run([LoginRequest(baseUrl, username, password)], Returned([]), sessionBefore, devicesBefore)
  {
  }

  /**
   * After an accepted login and a device list, the run returns one report per
   * device and ends with a logout that leaves the session id in place, exactly
   * when every entry is a dict; otherwise an exception escapes and no logout
   * is posted.
   */
  lemma FleetRunOverList(baseUrl: string, username: string, password: string, sessionBefore: Json,
                         devicesBefore: Json, adom: string, net: Network)
    requires LoginOutcomeOf(net(LoginRequest(baseUrl, username, password))).Accepted?
    ensures var session := LoginOutcomeOf(net(LoginRequest(baseUrl, username, password))).session;
      var listed := DevicesOf(net(DevicesRequest(baseUrl, session, adom)));
      var run := FleetRun(baseUrl, username, password, sessionBefore, devicesBefore, adom, net);
      && run.sessionId == session
      && run.devices == listed
      && |run.sent| >= 2
      && (listed.JArr? ==>
            && (run.result.Returned? <==> forall i :: 0 <= i < |listed.items| ==> listed.items[i].JObj?)
            && (run.result.Returned? ==> |run.result.value| == |listed.items|
                                         && run.sent[|run.sent| - 1] == LogoutRequest(baseUrl))
            && (run.result.Raised? ==> LogoutRequest(baseUrl) !in run.sent))
  {
    var loginRequest := LoginRequest(baseUrl, username, password);
    var session := LoginOutcomeOf(net(loginRequest)).session;
    var devicesRequest := DevicesRequest(baseUrl, session, adom);
    var listed := DevicesOf(net(devicesRequest));
    var opening := [loginRequest, devicesRequest];
    if listed.JArr? {
      ListedRunAsFinish(loginRequest, baseUrl, session, adom, net, listed.items);
      OpeningIsNoLogout(baseUrl, username, password, session, adom);
      FinishOverEntries(opening, listed.items, baseUrl, session, net, listed);
    }
  }

  lemma OpeningIsNoLogout(baseUrl: string, username: string, password: string, sessionId: Json, adom: string)
    ensures LogoutRequest(baseUrl) !in [LoginRequest(baseUrl, username, password), DevicesRequest(baseUrl, sessionId, adom)]
  {
    assert LoginRequest(baseUrl, username, password).payload.fields["id"] == JNum(1.0);
    assert DevicesRequest(baseUrl, sessionId, adom).payload.fields["id"] == JNum(2.0);
    assert LogoutRequest(baseUrl).payload.fields["id"] == JNum(4.0);
  }

  /** The run over a list's entries: one report per entry and a final logout exactly when every entry is a dict. */
  lemma FinishOverEntries(opening: seq<Request>, entries: seq<Json>, baseUrl: string, sessionId: Json,
                          net: Network, listed: Json)
    requires LogoutRequest(baseUrl) !in opening
    ensures var run := Finish(opening, entries, baseUrl, sessionId, net, listed);
      && run.sessionId == sessionId
      && run.devices == listed
      && |run.sent| >= |opening|
      && (run.result.Returned? <==> forall i :: 0 <= i < |entries| ==> entries[i].JObj?)
      && (run.result.Returned? ==> |run.result.value| == |entries|
                                   && run.sent[|run.sent| - 1] == LogoutRequest(baseUrl))
      && (run.result.Raised? ==> LogoutRequest(baseUrl) !in run.sent)
  {
    FleetOneReportPerDevice(entries, baseUrl, sessionId, net);
    NoLogoutInFetches(entries, baseUrl, sessionId);
  }

  lemma {:induction false} NoLogoutInFetches(entries: seq<Json>, baseUrl: string, sessionId: Json)
    ensures LogoutRequest(baseUrl) !in FetchTrace(entries, baseUrl, sessionId)
  {
    if entries != [] {
      NoLogoutInFetches(entries[..|entries| - 1], baseUrl, sessionId);
      ProxiesAreNoLogout(baseUrl, sessionId, entries[|entries| - 1]);
    }
  }

  lemma ProxiesAreNoLogout(baseUrl: string, sessionId: Json, device: Json)
    ensures LogoutRequest(baseUrl) !in DeviceRequests(baseUrl, sessionId, device)
  {
    if device.JObj? && Connected(device.fields) {
      var requests := DeviceRequests(baseUrl, sessionId, device);
      assert LogoutRequest(baseUrl).payload.fields["id"] == JNum(4.0);
      assert forall k :: 0 <= k < |requests| ==> requests[k].payload.fields["id"] == JNum(3.0);
    }
  }

  // ---------------------------------------------------------------------------
  // The collector object

  class DataCollector {
    const client: FmgClient
    const adom: string
    var devices: Json

    constructor (fmgUrl: string, username: string, password: string, verifySsl: bool := false, adom: string := "root")
      ensures fresh(client)
      ensures client.baseUrl == Text.TrimRight(fmgUrl, '/') && client.sessionId == JNull
      ensures client.username == username && client.password == password && client.verifySsl == verifySsl
      ensures this.adom == adom && devices == JArr([])
    {
      client := new FmgClient(fmgUrl, username, password, verifySsl);
      this.adom := adom;
      devices := JArr([]);
    }

    /** The status report of one device entry, with the proxy requests it posted. */
    method FetchDeviceStatus(device: Json, net: Network) returns (sent: seq<Request>, r: Outcome<Report>)
      ensures sent == DeviceRequests(client.baseUrl, client.sessionId, device)
      ensures r == FetchedStatus(client.baseUrl, client.sessionId, device, net)
      // Implied by the first clause; stated for the reader.
      ensures !(device.JObj? && Connected(device.fields)) ==> sent == []
    {
      sent := [];
      if !device.JObj? {
        r := Raised(NoAttribute(device, "get"));
        return;
      }
      var name := Lookup(device.fields, "name", JNull);
      var serial := Lookup(device.fields, "sn", JNull);
      if !EqualsInt(Lookup(device.fields, "conn_status", JNull), 1) {
        r := Returned(DownReport(name, serial));
        return;
      }
      var sentSys, sys := client.ExecuteDeviceCommand(name, SystemStatusPath, net);
      var sentSw, sw := client.ExecuteDeviceCommand(name, SwitchStatusPath, net);
      var sentAp, ap := client.ExecuteDeviceCommand(name, AccessPointPath, net);
      sent := [sentSys, sentSw, sentAp];

      var cpu, mem := JNum(0.0), JNum(0.0);
      if Truthy(sys) && sys.JObj? {
        var stats := if "results" in sys.fields then sys.fields["results"] else sys;
        if !stats.JObj? {
          r := Raised(NoAttribute(stats, "get"));
          return;
        }
        cpu := Lookup(stats.fields, "cpu", JNum(0.0));
        mem := Lookup(stats.fields, "mem", JNum(0.0));
      }

      var switches := CountStatus(sw, Switches);
      if switches.Raised? {
        r := Raised(switches.message);
        return;
      }
      var aps := CountStatus(ap, AccessPoints);
      if aps.Raised? {
        r := Raised(aps.message);
        return;
      }
      r := Returned(Report(name, serial, if Truthy(sys) then "UP" else "Unreachable", cpu, mem,
                           switches.value.total, switches.value.up, aps.value.total, aps.value.up,
                           Details(switches.value, aps.value)));
    }

    /** The entries `for device in self.devices` visits, for a value `len` accepted. */
    static method Entries(listed: Json) returns (entries: seq<Json>)
      requires listed.JArr? || listed.JStr? || listed.JObj?
      ensures Visits(listed, entries)
    {
      match listed
      case JArr(xs) => entries := xs;
      case JStr(s) => entries := Chars(s);
      case JObj(m) =>
        // A dict is iterated over its keys, in an order the model leaves open.
        entries := [];
        var keys := m.Keys;
        while keys != {}
          invariant keys <= m.Keys
          invariant |entries| + |keys| == |m.Keys|
          invariant forall i :: 0 <= i < |entries| ==> entries[i].JStr? && entries[i].s in m.Keys - keys
          invariant forall i, j :: 0 <= i < j < |entries| ==> entries[i] != entries[j]
          decreases |keys|
        {
          var k :| k in keys;
          entries := entries + [JStr(k)];
          keys := keys - {k};
        }
        assert |m| == |m.Keys|;
    }

    /** One collection run: log in, list the devices, report on each, log out. */
    method FetchAllData(net: Network) returns (sent: seq<Request>, r: Outcome<seq<Report>>)
      modifies this`devices, client`sessionId
      ensures Run(sent, r, client.sessionId, devices)
           == FleetRun(client.baseUrl, client.username, client.password, old(client.sessionId), old(devices), adom, net)
    {
      var loginRequest, ok := client.Login(net);
      if !ok {
        LoginGate(client.baseUrl, client.username, client.password, old(client.sessionId), old(devices), adom, net);
        sent := [loginRequest];
        r := Returned([]);
        return;
      }
      sent, r := ListAndReport(loginRequest, net);
    }

    /** `fetch_all_data` after an accepted login: list the devices, report on each, log out. */
    method ListAndReport(loginRequest: Request, net: Network) returns (sent: seq<Request>, r: Outcome<seq<Report>>)
      modifies this`devices
      ensures Run(sent, r, client.sessionId, devices) == ListedRun(loginRequest, client.baseUrl, client.sessionId, adom, net)
    {
      var devicesRequest, listed := client.GetManagedDevices(net, adom);
      devices := listed;
      sent := [loginRequest, devicesRequest];
      var count := Len(devices);
      if count.Raised? {
        ListedRunUnlisted(loginRequest, client.baseUrl, client.sessionId, adom, net);
        r := Raised(count.message);
        return;
      }
      var entries := Entries(listed);
      ListedRunAsFinish(loginRequest, client.baseUrl, client.sessionId, adom, net, entries);
      var fleetSent;
      fleetSent, r := ReportOnAll(entries, net);
      sent := sent + fleetSent;
    }

    /** The pool's work for the listed entries: fetch every device, collect the outcomes, and log out if none escaped. */
    method ReportOnAll(entries: seq<Json>, net: Network) returns (sent: seq<Request>, r: Outcome<seq<Report>>)
      ensures r == Fleet(entries, client.baseUrl, client.sessionId, net)
      ensures sent == FetchTrace(entries, client.baseUrl, client.sessionId)
                      + (if r.Returned? then [LogoutRequest(client.baseUrl)] else [])
    {
      // Submit every device: each fetch runs, posting its own requests.
      var fetched;
      sent, fetched := FetchEach(entries, net);

      // Collect the outcomes; the `except` branch itself raises for a non-dict entry.
      FetchedAllReported(entries, client.baseUrl, client.sessionId, net);
      r := CollectReports(entries, fetched);
      if r.Returned? {
        var logoutRequest := client.Logout(net);
        sent := sent + [logoutRequest];
      }
    }

    /** Runs every device's fetch in submission order, with the requests the fetches post. */
    method FetchEach(entries: seq<Json>, net: Network) returns (sent: seq<Request>, fetched: seq<Outcome<Report>>)
      ensures sent == FetchTrace(entries, client.baseUrl, client.sessionId)
      ensures fetched == Each(Fetch(client.baseUrl, client.sessionId, net), entries)
    {
      sent := [];
      fetched := [];
      for i := 0 to |entries|
        invariant fetched == Each(Fetch(client.baseUrl, client.sessionId, net), entries[..i])
        invariant sent == FetchTrace(entries[..i], client.baseUrl, client.sessionId)
      {
        var requests, outcome := FetchDeviceStatus(entries[i], net);
        FetchTraceStep(entries, i, client.baseUrl, client.sessionId);
        EachStep(Fetch(client.baseUrl, client.sessionId, net), entries, i);
        sent := sent + requests;
        fetched := fetched + [outcome];
      }
      assert entries[..|entries|] == entries;
    }

    /** The `as_completed` loop: each outcome becomes a report, and the first exception escaping it ends the loop. */
    static method CollectReports(entries: seq<Json>, fetched: seq<Outcome<Report>>) returns (r: Outcome<seq<Report>>)
      requires |fetched| == |entries|
      ensures r == Collect(Reported(entries, fetched))
    {
      ghost var os := Reported(entries, fetched);
      var results: seq<Report> := [];
      assert os[0..] == os;
      PrependNothing(Collect(os));
      for i := 0 to |entries|
        invariant Collect(os) == Prepend(results, Collect(os[i..]))
      {
        assert os[i..][1..] == os[i + 1..];
        var report := ReportOf(entries[i], fetched[i]);
        assert os[i..][0] == report;
        if report.Raised? {
          assert Collect(os[i..]) == Raised(report.message);
          return Raised(report.message);
        }
        PrependTwice(results, [report.value], Collect(os[i + 1..]));
        results := results + [report.value];
      }
      assert os[|entries|..] == [];
      assert Collect(os) == Returned(results + []);
      assert results + [] == results;
      r := Returned(results);
    }
  }
}
