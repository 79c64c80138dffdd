/**
 * The JSON-RPC session client of the management server: request envelopes,
 * the classification of the server's replies, and the client object whose one
 * piece of mutable state is the session id.
 *
 * The HTTP transport is not modelled: a `Network` maps each posted request to
 * the reply the client obtains, which is either a decoded JSON body (with the
 * `session_id` cookie the HTTP session holds afterwards) or a failure of the
 * transport, of `raise_for_status` or of JSON decoding.
 */
module Fmg {

  import opened PyJson
  import opened Wrappers
  import Text

  datatype Request = Request(url: string, payload: Json)

  datatype Reply = Response(body: Json, sessionCookie: Option<string>) | TransportError

  type Network = Request -> Reply

  datatype LoginOutcome = Accepted(session: Json) | Rejected

  /** The one RPC path every request is posted to. */
  function Endpoint(baseUrl: string): string {
    baseUrl + "/jsonrpc"
  }

  function Envelope(rpcMethod: string, param: map<string, Json>, id: int): map<string, Json> {
    map["method" := JStr(rpcMethod), "params" := JArr([JObj(param)]), "id" := JNum(id as real)]
  }

  /** The envelope with the session id attached when it is truthy (`if self.session_id:`). */
  function WithSession(payload: map<string, Json>, sessionId: Json): (r: map<string, Json>)
    requires "session" !in payload
    ensures "session" in r <==> Truthy(sessionId)
    ensures "session" in r ==> r["session"] == sessionId
    ensures forall k :: k in payload ==> k in r && r[k] == payload[k]
    ensures forall k :: k in r && k != "session" ==> k in payload
  {
    if Truthy(sessionId) then payload["session" := sessionId] else payload
  }

  function LoginRequest(baseUrl: string, username: string, password: string): (r: Request)
    ensures r.url == Endpoint(baseUrl) && r.payload.JObj?
    ensures "session" !in r.payload.fields
  {
    var credentials := map["user" := JStr(username), "passwd" := JStr(password)];
    Request(Endpoint(baseUrl),
            JObj(Envelope("exec", map["url" := JStr("/sys/login/user"), "data" := JObj(credentials)], 1)))
  }

  function DevicesRequest(baseUrl: string, sessionId: Json, adom: string): (r: Request)
    ensures r.url == Endpoint(baseUrl) && r.payload.JObj?
    ensures "session" in r.payload.fields <==> Truthy(sessionId)
    ensures "session" in r.payload.fields ==> r.payload.fields["session"] == sessionId
  {
    var param := map["url" := JStr("/dvmdb/adom/" + adom + "/device")];
    Request(Endpoint(baseUrl), JObj(WithSession(Envelope("get", param, 2), sessionId)))
  }

  function ProxyRequest(baseUrl: string, sessionId: Json, target: Json, resource: string): (r: Request)
    ensures r.url == Endpoint(baseUrl) && r.payload.JObj?
    ensures "session" in r.payload.fields <==> Truthy(sessionId)
    ensures "session" in r.payload.fields ==> r.payload.fields["session"] == sessionId
  {
    var data := map["target" := target, "action" := JStr("get"), "resource" := JStr(resource)];
    var param := map["url" := JStr("/sys/proxy/json"), "data" := JObj(data)];
    Request(Endpoint(baseUrl), JObj(WithSession(Envelope("exec", param, 3), sessionId)))
  }

  /** The logout envelope never carries the session id. */
  function LogoutRequest(baseUrl: string): (r: Request)
    ensures r.url == Endpoint(baseUrl) && r.payload.JObj?
    ensures "session" !in r.payload.fields
  {
    Request(Endpoint(baseUrl),
            JObj(Envelope("exec", map["url" := JStr("/sys/login/user"), "data" := JObj(map[])], 4)))
  }

  /**
   * The reply shape every success test of the client looks for: a dict whose
   * `result` is a non-empty list whose first entry is a dict carrying a
   * `status` dict with a `code` equal to 0.
   */
  predicate FirstResultOk(data: Json) {
    && data.JObj?
    && "result" in data.fields
    && data.fields["result"].JArr?
    && |data.fields["result"].items| > 0
    && data.fields["result"].items[0].JObj?
    && var first := data.fields["result"].items[0].fields;
    && "status" in first
    && first["status"].JObj?
    && "code" in first["status"].fields
    && EqualsInt(first["status"].fields["code"], 0)
  }

  function FirstResult(data: Json): map<string, Json>
    requires FirstResultOk(data)
  {
    data.fields["result"].items[0].fields
  }

  /** `data['result'][0]['status']['code']`, each step of which may raise. */
  function ResultCode(data: Json): Outcome<Json> {
    var result :- Item(data, "result");
    var first :- At(result, 0);
    var status :- Item(first, "status");
    Item(status, "code")
  }

  /**
   * The body of `login` after `response.json()`: a `session` key wins; failing
   * that, a zero status code accepts the session cookie, which may be missing.
   */
  function LoginStep(data: Json, cookie: Option<string>): Outcome<LoginOutcome> {
    var hasSession :- Contains(data, "session");
    if hasSession then
      var session :- Item(data, "session");
      Returned(Accepted(session))
    else
      var hasResult :- Contains(data, "result");
      if !hasResult then Returned(Rejected)
      else
        var code :- ResultCode(data);
        Returned(if EqualsInt(code, 0) then Accepted(CookieValue(cookie)) else Rejected)
  }

  function CookieValue(cookie: Option<string>): Json {
    match cookie
    case None => JNull
    case Some(s) => JStr(s)
  }

  /** How `login` classifies its reply, every exception becoming a rejection. */
  function LoginOutcomeOf(reply: Reply): LoginOutcome {
    match reply
    case TransportError => Rejected
    case Response(data, cookie) =>
      match LoginStep(data, cookie)
      case Returned(outcome) => outcome
      case Raised(_) => Rejected
  }

  /**
   * The login's verdict in terms of the reply's shape: a `session` key wins,
   * then a zero status code accepts the cookie; anything else is a rejection.
   */
  lemma LoginOutcomeMeaning(reply: Reply)
    ensures LoginOutcomeOf(reply) == match reply
      case TransportError => Rejected
      case Response(data, cookie) =>
        if data.JObj? && "session" in data.fields then Accepted(data.fields["session"])
        else if FirstResultOk(data) then Accepted(CookieValue(cookie))
        else Rejected
  {
  }

  /** The body of `get_managed_devices` after `response.json()`. */
  function DevicesStep(data: Json): Outcome<Json> {
    var hasResult :- Contains(data, "result");
    if !hasResult then Returned(JArr([]))
    else
      var code :- ResultCode(data);
      if !EqualsInt(code, 0) then Returned(JArr([]))
      else
        var result :- Item(data, "result");
        var first :- At(result, 0);
        Item(first, "data")
  }

  /** The device list `get_managed_devices` returns. */
  function DevicesOf(reply: Reply): Json {
    match reply
    case TransportError => JArr([])
    case Response(data, _) =>
      match DevicesStep(data)
      case Returned(devices) => devices
      case Raised(_) => JArr([])
  }

  /** The device list is `result[0].data` of a successful reply, and `[]` on any failure. */
  lemma DevicesOfMeaning(reply: Reply)
    ensures DevicesOf(reply) == if reply.Response? && FirstResultOk(reply.body) && "data" in FirstResult(reply.body)
                                then FirstResult(reply.body)["data"] else JArr([])
  {
  }

  /** The body of `execute_device_command` after `response.json()`. */
  function ProxyStep(data: Json): Outcome<Json> {
    var hasResult :- Contains(data, "result");
    if !hasResult then Returned(JNull)
    else
      var result :- Item(data, "result");
      var n :- Len(result);
      if !(n > 0) then Returned(JNull)
      else
        var deviceResponse :- At(result, 0);
        var hasStatus :- Contains(deviceResponse, "status");
        if !hasStatus then Returned(JNull)
        else
          var status :- Item(deviceResponse, "status");
          var code :- Item(status, "code");
          if EqualsInt(code, 0) then Get(deviceResponse, "data", JObj(map[])) else Returned(JNull)
  }

  /** What `execute_device_command` returns. */
  function ProxyDataOf(reply: Reply): Json {
    match reply
    case TransportError => JNull
    case Response(data, _) =>
      match ProxyStep(data)
      case Returned(v) => v
      case Raised(_) => JNull
  }

  /**
   * The proxied payload is `result[0].data` (default `{}`) on a zero code, and
   * `None` (here `JNull`) for every other reply.
   */
  lemma ProxyDataMeaning(reply: Reply)
    ensures ProxyDataOf(reply) == if reply.Response? && FirstResultOk(reply.body)
                                  then Lookup(FirstResult(reply.body), "data", JObj(map[])) else JNull
  {
  }

  class FmgClient {
    const baseUrl: string
    const username: string
    const password: string
    const verifySsl: bool
    var sessionId: Json

    constructor (url: string, username: string, password: string, verifySsl: bool := false)
      ensures baseUrl == Text.TrimRight(url, '/')
      ensures this.username == username && this.password == password && this.verifySsl == verifySsl
      ensures sessionId == JNull
    {
      baseUrl := Text.TrimRight(url, '/');
      this.username := username;
      this.password := password;
      this.verifySsl := verifySsl;
      sessionId := JNull;
    }

    /** Posts the credentials; on acceptance stores the session id, otherwise leaves it alone. */
    method Login(net: Network) returns (sent: Request, ok: bool)
      modifies this`sessionId
      ensures sent == LoginRequest(baseUrl, username, password)
      ensures ok <==> LoginOutcomeOf(net(sent)).Accepted?
      ensures sessionId == if ok then LoginOutcomeOf(net(sent)).session else old(sessionId)
    {
      var credentials := map["user" := JStr(username), "passwd" := JStr(password)];
      var payload := Envelope("exec", map["url" := JStr("/sys/login/user"), "data" := JObj(credentials)], 1);
      sent := Request(Endpoint(baseUrl), JObj(payload));
      match LoginOutcomeOf(net(sent))
      case Accepted(session) =>
        sessionId := session;
        ok := true;
      case Rejected =>
        ok := false;
    }

    method GetManagedDevices(net: Network, adom: string := "root") returns (sent: Request, devices: Json)
      ensures sent == DevicesRequest(baseUrl, sessionId, adom)
      ensures devices == DevicesOf(net(sent))
    {
      var payload := Envelope("get", map["url" := JStr("/dvmdb/adom/" + adom + "/device")], 2);
      if Truthy(sessionId) {
        payload := payload["session" := sessionId];
      }
      sent := Request(Endpoint(baseUrl), JObj(payload));
      devices := DevicesOf(net(sent));
    }

    method ExecuteDeviceCommand(target: Json, path: string, net: Network) returns (sent: Request, data: Json)
      ensures sent == ProxyRequest(baseUrl, sessionId, target, path)
      ensures data == ProxyDataOf(net(sent))
    {
      var command := map["target" := target, "action" := JStr("get"), "resource" := JStr(path)];
      var payload := Envelope("exec", map["url" := JStr("/sys/proxy/json"), "data" := JObj(command)], 3);
      if Truthy(sessionId) {
        payload := payload["session" := sessionId];
      }
      sent := Request(Endpoint(baseUrl), JObj(payload));
      data := ProxyDataOf(net(sent));
    }

    /** Best effort: the reply is ignored, and the session id is kept. */
    method Logout(net: Network) returns (sent: Request)
      ensures sent == LogoutRequest(baseUrl)
    {
      sent := LogoutRequest(baseUrl);
      var _ := net(sent);
    }
  }

  /** The base URL keeps no trailing `/`, and only `/` characters were cut off. */
  lemma BaseUrlNormalised(url: string)
    ensures var base := Text.TrimRight(url, '/');
      && base <= url
      && (base == [] || base[|base| - 1] != '/')
      && forall i :: |base| <= i < |url| ==> url[i] == '/'
  {
  }

  /** The two documented login scenarios. */
  lemma LoginScenarios(cookie: Option<string>)
    ensures LoginOutcomeOf(Response(JObj(map["session" := JStr("test_session_id")]), cookie))
         == Accepted(JStr("test_session_id"))
    ensures var status := JObj(map["code" := JNum(-1.0), "message" := JStr("Auth failed")]);
      LoginOutcomeOf(Response(JObj(map["result" := JArr([JObj(map["status" := status])])]), cookie)) == Rejected
  {
  }

  /** A device list under a zero status code is handed back as it is. */
  lemma DevicesScenario(cookie: Option<string>)
    ensures var devices := JArr([JObj(map["name" := JStr("FGT1"), "sn" := JStr("FGT1SN")])]);
      var ok := JObj(map["code" := JNum(0.0)]);
      DevicesOf(Response(JObj(map["result" := JArr([JObj(map["status" := ok, "data" := devices])])]), cookie)) == devices
  {
  }

  /** A proxied payload under a zero status code is handed back as it is. */
  lemma ProxyScenario(cookie: Option<string>)
    ensures var stats := JObj(map["cpu" := JNum(10.0), "mem" := JNum(20.0)]);
      var ok := JObj(map["code" := JNum(0.0)]);
      ProxyDataOf(Response(JObj(map["result" := JArr([JObj(map["status" := ok, "data" := stats])])]), cookie)) == stats
  {
  }
}
