/**
 * The server (api/index.js): the start-up configuration check, the signed
 * delivery of `triggerAlarm` and `pushMessage` to the dispatch web service,
 * the roster query that depends on the incident state, and the key and
 * password gates of the routes.
 */
module Server {
  import opened Wrappers
  import opened Json
  import opened AssocList
  import opened Http

  // ---- Configuration ----

  /** `process.env`: a variable that is not set has no entry. */
  type Env = map<string, string>

  /** The variables that must be set and non-empty for the server to start, in the order they are checked. */
  const RequiredConfig: seq<string> := [
    "CERT_PASSWORD", "PRIVATE_AUTH_KEY", "WEB_PASSWORD", "DISPLAY_TOKEN", "ORGANISATION_TOKEN",
    "WEB_API_TOKEN", "SELECTIVE_CALL_CODE", "ACCESS_TOKEN", "WEB_API_KEY"]

  datatype Config = Config(
    certPassword: string,
    privateAuthKey: string,
    debug: bool,
    webPassword: string,
    displayToken: string,
    organisationToken: string,
    webApiToken: string,
    selectiveCallCode: string,
    accessToken: string,
    webApiKey: string)
  {
    /** Every credential is present and non-empty. */
    predicate Valid() {
      certPassword != "" && privateAuthKey != "" && webPassword != "" && displayToken != ""
      && organisationToken != "" && webApiToken != "" && selectiveCallCode != ""
      && accessToken != "" && webApiKey != ""
    }

    /** The credential read from the environment variable `key` (`config[key]`); "" for any other name. */
    function Credential(key: string): string {
      match key
      case "CERT_PASSWORD" => certPassword
      case "PRIVATE_AUTH_KEY" => privateAuthKey
      case "WEB_PASSWORD" => webPassword
      case "DISPLAY_TOKEN" => displayToken
      case "ORGANISATION_TOKEN" => organisationToken
      case "WEB_API_TOKEN" => webApiToken
      case "SELECTIVE_CALL_CODE" => selectiveCallCode
      case "ACCESS_TOKEN" => accessToken
      case "WEB_API_KEY" => webApiKey
      case _ => ""
    }
  }

  /** `config[key]` is truthy: the variable is set and not empty. */
  predicate IsSet(env: Env, key: string) {
    key in env && env[key] != ""
  }

  function EnvValue(env: Env, key: string): string {
    if key in env then env[key] else ""
  }

  /** A configuration is complete exactly when none of the required credentials is empty. */
  lemma ValidIffCredentialsSet(c: Config)
    ensures c.Valid() <==> forall i :: 0 <= i < |RequiredConfig| ==> c.Credential(RequiredConfig[i]) != ""
  {
    assert c.Credential(RequiredConfig[0]) == c.certPassword;
    assert c.Credential(RequiredConfig[1]) == c.privateAuthKey;
    assert c.Credential(RequiredConfig[2]) == c.webPassword;
    assert c.Credential(RequiredConfig[3]) == c.displayToken;
    assert c.Credential(RequiredConfig[4]) == c.organisationToken;
    assert c.Credential(RequiredConfig[5]) == c.webApiToken;
    assert c.Credential(RequiredConfig[6]) == c.selectiveCallCode;
    assert c.Credential(RequiredConfig[7]) == c.accessToken;
    assert c.Credential(RequiredConfig[8]) == c.webApiKey;
  }

  /** The `config` object read from the environment (an unset variable reads as ""). */
  function ConfigFrom(env: Env): (r: Config)
    ensures forall i :: 0 <= i < |RequiredConfig| ==> r.Credential(RequiredConfig[i]) == EnvValue(env, RequiredConfig[i])
    ensures r.Valid() <==> forall i :: 0 <= i < |RequiredConfig| ==> IsSet(env, RequiredConfig[i])
    ensures r.debug <==> "DEBUG" in env && env["DEBUG"] == "true"
  {
    var c := Config(
      EnvValue(env, "CERT_PASSWORD"), EnvValue(env, "PRIVATE_AUTH_KEY"),
      "DEBUG" in env && env["DEBUG"] == "true",
      EnvValue(env, "WEB_PASSWORD"), EnvValue(env, "DISPLAY_TOKEN"), EnvValue(env, "ORGANISATION_TOKEN"),
      EnvValue(env, "WEB_API_TOKEN"), EnvValue(env, "SELECTIVE_CALL_CODE"), EnvValue(env, "ACCESS_TOKEN"),
      EnvValue(env, "WEB_API_KEY"));
    ValidIffCredentialsSet(c);
    assert forall i :: 0 <= i < |RequiredConfig| ==> c.Credential(RequiredConfig[i]) == EnvValue(env, RequiredConfig[i]);
    c
  }

  function MissingConfigMessage(key: string): string {
    "Configuration error: Environment variable for '" + key + "' is missing."
  }

  /**
   * Start-up: the configuration is accepted exactly when every required
   * variable is set and non-empty; otherwise the error names the first one
   * that is not.
   */
  method LoadConfig(env: Env) returns (r: Result<Config, string>)
    ensures r.Success? <==> forall i :: 0 <= i < |RequiredConfig| ==> IsSet(env, RequiredConfig[i])
    ensures r.Success? ==> r.value == ConfigFrom(env) && r.value.Valid()
    ensures r.Failure? ==> exists i :: 0 <= i < |RequiredConfig| && !IsSet(env, RequiredConfig[i])
                                       && (forall j :: 0 <= j < i ==> IsSet(env, RequiredConfig[j]))
                                       && r.error == MissingConfigMessage(RequiredConfig[i])
  {
    var config := ConfigFrom(env);
    var i := 0;
    while i < |RequiredConfig|
      invariant 0 <= i <= |RequiredConfig|
      invariant forall j :: 0 <= j < i ==> IsSet(env, RequiredConfig[j])
    {
      var key := RequiredConfig[i];
      if !IsSet(env, key) {
        return Failure(MissingConfigMessage(key));
      }
      i := i + 1;
    }
    return Success(config);
  }

  /** The caller-auth gate: the `securitykey` query parameter equals `PRIVATE_AUTH_KEY`. */
  predicate Authorized(cfg: Config, securityKey: Option<string>) {
    securityKey == Some(cfg.privateAuthKey)
  }

  // ---- Signed delivery to the dispatch web service ----

  datatype Endpoint = TriggerAlarm | PushMessage

  function EndpointName(e: Endpoint): string {
    match e
    case TriggerAlarm => "triggerAlarm"
    case PushMessage => "pushMessage"
  }

  const ServiceBase := "https://api.service.ff-agent.com/v1/WebService/"
  const FailedPage := "components/failed.html"

  /** The identity tokens that precede the body in the signed message, in the order the service defines. */
  function TokenPrefix(cfg: Config, e: Endpoint): string {
    match e
    case TriggerAlarm => cfg.webApiToken + cfg.selectiveCallCode + cfg.accessToken
    case PushMessage => cfg.webApiToken
  }

  /** The identity headers of a signed request, the same tokens as in `TokenPrefix`. */
  function TokenHeaders(cfg: Config, e: Endpoint): seq<(string, string)> {
    match e
    case TriggerAlarm => [("webApiToken", cfg.webApiToken), ("selectiveCallCode", cfg.selectiveCallCode),
                          ("accessToken", cfg.accessToken)]
    case PushMessage => [("webApiToken", cfg.webApiToken)]
  }

  /** The content type and signature headers are added after the tokens, not over one of them. */
  lemma TokenHeaderNames(cfg: Config, e: Endpoint)
    ensures "Content-Type" !in Keys(TokenHeaders(cfg, e))
    ensures "hmac" !in Keys(TokenHeaders(cfg, e) + [("Content-Type", "application/json")])
  {
    var ks := Keys(TokenHeaders(cfg, e));
    assert forall i :: 0 <= i < |ks| ==> |ks[i]| == 11 || |ks[i]| == 17;
    assert |"Content-Type"| == 12 && |"hmac"| == 4;
  }

  function SuccessText(e: Endpoint): string {
    match e
    case TriggerAlarm => "Alarm was successfully triggered!"
    case PushMessage => "Push was successfully sent!"
  }

  /**
   * One call of `sendFfAgentRequest`: the string given to HMAC (if any), the
   * request handed to `fetch` (if any) and the reply sent to the caller.
   */
  datatype Delivery = Delivery(signed: Option<string>, sent: Option<Request>, reply: Reply)

  /**
   * `sendFfAgentRequest(endpoint, req, res)`. A wrong key is answered with 401
   * before anything is serialised, signed or sent. Otherwise the serialised
   * body is signed behind the endpoint's tokens, sent with the endpoint's
   * header set, and the upstream outcome is mapped to the reply status.
   */
  method SendFfAgentRequest(cfg: Config, prims: Primitives, endpoint: Endpoint, securityKey: Option<string>,
                            body: Json, fetch: Request -> Outcome) returns (d: Delivery)
    ensures !Authorized(cfg, securityKey) <==> d.sent.None?
    ensures !Authorized(cfg, securityKey) ==> d == Delivery(None, None, Reply(401, Page(FailedPage)))
    ensures Authorized(cfg, securityKey) ==>
      var data := prims.stringify(body);
      var message := TokenPrefix(cfg, endpoint) + data;
      && d.signed == Some(message)
      && d.sent.Some?
      && d.sent.value.url == ServiceBase + EndpointName(endpoint)
      && d.sent.value.verb == "POST"
      && d.sent.value.body == Some(data)
      && d.sent.value.headers == TokenHeaders(cfg, endpoint)
                                 + [("Content-Type", "application/json"),
                                    ("hmac", prims.hmacSha256Hex(cfg.webApiKey, message))]
    ensures d.sent.Some? ==>
      match fetch(d.sent.value)
      case Ok => d.reply == Reply(200, Text(SuccessText(endpoint)))
      case NotOk(status) => d.reply == Reply(status, Text("Error during " + EndpointName(endpoint) + "."))
      case Throws => d.reply == Reply(500, Text("Internal server error during " + EndpointName(endpoint) + "."))
  {
    if securityKey != Some(cfg.privateAuthKey) {
      return Delivery(None, None, Reply(401, Page(FailedPage)));
    }
    var dataString := prims.stringify(body);
    var message: string;
    var headers: seq<(string, string)>;
    if endpoint == TriggerAlarm {
      message := cfg.webApiToken + cfg.selectiveCallCode + cfg.accessToken + dataString;
      headers := [("webApiToken", cfg.webApiToken), ("selectiveCallCode", cfg.selectiveCallCode),
                  ("accessToken", cfg.accessToken)];
      assert cfg.webApiToken + cfg.selectiveCallCode + cfg.accessToken + dataString
          == TokenPrefix(cfg, endpoint) + dataString;
    } else {
      message := cfg.webApiToken + dataString;
      headers := [("webApiToken", cfg.webApiToken)];
    }
    assert message == TokenPrefix(cfg, endpoint) + dataString;
    assert headers == TokenHeaders(cfg, endpoint);
    var hashInHex := prims.hmacSha256Hex(cfg.webApiKey, message);
    TokenHeaderNames(cfg, endpoint);
    headers := AddSignatureHeaders(headers, hashInHex);

    var request := Request(ServiceBase + EndpointName(endpoint), "POST", headers, Some(dataString));
    var reply: Reply;
    match fetch(request) {
      case Ok =>
        reply := Reply(200, Text(SuccessText(endpoint)));
      case NotOk(status) =>
        reply := Reply(status, Text("Error during " + EndpointName(endpoint) + "."));
      case Throws =>
        reply := Reply(500, Text("Internal server error during " + EndpointName(endpoint) + "."));
    }
    return Delivery(Some(message), Some(request), reply);
  }

  /** `headers["Content-Type"] = ...; headers["hmac"] = hashInHex;` on headers that hold neither name yet. */
  method AddSignatureHeaders(tokens: seq<(string, string)>, hashInHex: string) returns (headers: seq<(string, string)>)
    requires "Content-Type" !in Keys(tokens)
    requires "hmac" !in Keys(tokens + [("Content-Type", "application/json")])
    ensures headers == tokens + [("Content-Type", "application/json"), ("hmac", hashInHex)]
  {
    SetFresh(tokens, "Content-Type", "application/json");
    headers := Set(tokens, "Content-Type", "application/json");
    SetFresh(headers, "hmac", hashInHex);
    headers := Set(headers, "hmac", hashInHex);
  }

  /**
   * The headers of a signed request: the tokens, then the content type and
   * the signature, each name once, so the receiver reads back every value.
   */
  lemma SignedHeadersRead(cfg: Config, e: Endpoint, hash: string)
    ensures var h := TokenHeaders(cfg, e) + [("Content-Type", "application/json"), ("hmac", hash)];
      && Distinct(Keys(h))
      && Get(h, "webApiToken") == Some(cfg.webApiToken)
      && (e == TriggerAlarm ==> Get(h, "selectiveCallCode") == Some(cfg.selectiveCallCode)
                                && Get(h, "accessToken") == Some(cfg.accessToken))
      && Get(h, "Content-Type") == Some("application/json")
      && Get(h, "hmac") == Some(hash)
  {
    var h := TokenHeaders(cfg, e) + [("Content-Type", "application/json"), ("hmac", hash)];
    var ks := Keys(h);
    assert "webApiToken"[0] == 'w' && "accessToken"[0] == 'a';
    assert forall i :: 0 <= i < |ks| ==> |ks[i]| in {11, 12, 17, 4};
    assert Distinct(ks);
    GetEntry(h, 0);
    GetEntry(h, |h| - 2);
    GetEntry(h, |h| - 1);
    if e == TriggerAlarm {
      GetEntry(h, 1);
      GetEntry(h, 2);
    }
  }

  /** The signature covers the body: for one endpoint and configuration, equal signed messages mean equal bodies. */
  lemma SignedMessageDeterminesBody(cfg: Config, e: Endpoint, data1: string, data2: string)
    requires TokenPrefix(cfg, e) + data1 == TokenPrefix(cfg, e) + data2
    ensures data1 == data2
  {
    var n := |TokenPrefix(cfg, e)|;
    assert data1 == (TokenPrefix(cfg, e) + data1)[n..];
    assert data2 == (TokenPrefix(cfg, e) + data2)[n..];
  }

  // ---- Roster and incident data from the widget interface ----

  datatype WidgetEndpoint = ActiveMissionInfo | TeamStatus | PersonsAvailability

  function WidgetName(e: WidgetEndpoint): string {
    match e
    case ActiveMissionInfo => "ACTIVE_MISSION_INFO"
    case TeamStatus => "TEAM_STATUS"
    case PersonsAvailability => "PERSONS_AVAILABILITY"
  }

  /** The options object posted to each widget endpoint. */
  function WidgetOptions(e: WidgetEndpoint): Json {
    match e
    case ActiveMissionInfo => JObj([])
    case TeamStatus => JObj([("includeSkills", JBool(true)), ("showPersonsRequested", JBool(true)),
                             ("showPersonsAccepted", JBool(true)), ("showPersonsRejected", JBool(true))])
    case PersonsAvailability => JObj([("individualPersons", JBool(true)), ("includeSummary", JBool(true))])
  }

  const WidgetBase := "https://www.ff-agent.com/status-monitor-v2/WidgetViewApi/ajax_data/"

  /**
   * The POST to a widget endpoint: the URL names the endpoint under the widget
   * base and ends with the display token; the cookie carries the organisation
   * token; the body is the endpoint's options.
   */
  function WidgetRequest(cfg: Config, prims: Primitives, e: WidgetEndpoint): (r: Request)
    ensures r.url == WidgetBase + WidgetName(e) + "?displayToken=" + cfg.displayToken
    ensures r.verb == "POST" && r.body == Some(prims.stringify(WidgetOptions(e)))
    ensures r.headers == [("accept", "application/json, text/plain, */*"),
                          ("content-type", "application/json;charset=UTF-8"),
                          ("cookie", "organisationToken=" + cfg.organisationToken)]
  {
    Request(
      WidgetBase + WidgetName(e) + "?displayToken=" + cfg.displayToken,
      "POST",
      [("accept", "application/json, text/plain, */*"),
       ("content-type", "application/json;charset=UTF-8"),
       ("cookie", "organisationToken=" + cfg.organisationToken)],
      Some(prims.stringify(WidgetOptions(e))))
  }

  /** Each widget endpoint is asked at its own URL: the URLs of two endpoints differ right after the base. */
  lemma WidgetUrlsDistinct(cfg: Config, prims: Primitives, e1: WidgetEndpoint, e2: WidgetEndpoint)
    requires e1 != e2
    ensures WidgetRequest(cfg, prims, e1).url != WidgetRequest(cfg, prims, e2).url
  {
    var n := |WidgetBase|;
    assert WidgetRequest(cfg, prims, e1).url[n] == WidgetName(e1)[0];
    assert WidgetRequest(cfg, prims, e2).url[n] == WidgetName(e2)[0];
  }

  /** The widget service's answer: parsed data, a non-2xx status with its text, or a transport or parse error. */
  datatype WidgetResponse = WidgetOk(data: Json) | WidgetNotOk(status: FailStatus, text: string) | WidgetThrows

  datatype WidgetError = ApiError(endpoint: WidgetEndpoint, status: FailStatus, text: string) | TransportError

  /** `fetchWidgetData(endpoint, body)`: a non-2xx answer becomes an error naming the endpoint. */
  function FetchWidgetData(cfg: Config, prims: Primitives, e: WidgetEndpoint, upstream: Request -> WidgetResponse)
    : (r: Result<Json, WidgetError>)
    ensures upstream(WidgetRequest(cfg, prims, e)).WidgetOk? <==> r.Success?
    ensures r.Success? ==> r.value == upstream(WidgetRequest(cfg, prims, e)).data
  {
    match upstream(WidgetRequest(cfg, prims, e))
    case WidgetOk(data) => Success(data)
    case WidgetNotOk(status, text) => Failure(ApiError(e, status, text))
    case WidgetThrows => Failure(TransportError)
  }

  /** `!callData?.error`: no truthy `error` property, which includes null data and a falsy `error`. */
  predicate CallActive(callData: Json): (r: bool)
    ensures callData.JNull? ==> r
    ensures callData.JObj? && "error" !in Keys(callData.fields) ==> r
    ensures callData.JObj? && Get(callData.fields, "error") in {Some(JNull), Some(JBool(false)), Some(JNum(0.0)), Some(JStr(""))}
            ==> r
    ensures (callData.JObj? && Get(callData.fields, "error").Some? && Get(callData.fields, "error").value.JStr?
             && Get(callData.fields, "error").value.s != "") ==> !r
  {
    !Truthy(Field(callData, "error"))
  }

  /** The widget queries one roster fetch issued, in order, and what it yields. */
  datatype Fetched = Fetched(queries: seq<WidgetEndpoint>, result: Result<Json, WidgetError>)

  /**
   * `getPeople()`: the incident state first; the status roster when a call is
   * active, the availability roster otherwise. A failing first query ends the
   * fetch with its error.
   */
  function GetPeople(cfg: Config, prims: Primitives, upstream: Request -> WidgetResponse): (r: Fetched)
    ensures |r.queries| >= 1 && r.queries[0] == ActiveMissionInfo
    ensures FetchWidgetData(cfg, prims, ActiveMissionInfo, upstream).Failure? ==>
              r.queries == [ActiveMissionInfo] && r.result == FetchWidgetData(cfg, prims, ActiveMissionInfo, upstream)
    ensures FetchWidgetData(cfg, prims, ActiveMissionInfo, upstream).Success? ==>
              var callData := FetchWidgetData(cfg, prims, ActiveMissionInfo, upstream).value;
              && |r.queries| == 2
              && (r.queries[1] == TeamStatus <==> CallActive(callData))
              && (r.queries[1] == PersonsAvailability <==> !CallActive(callData))
              && r.result == FetchWidgetData(cfg, prims, r.queries[1], upstream)
  {
    match FetchWidgetData(cfg, prims, ActiveMissionInfo, upstream)
    case Failure(err) => Fetched([ActiveMissionInfo], Failure(err))
    case Success(callData) =>
      if CallActive(callData) then
        Fetched([ActiveMissionInfo, TeamStatus], FetchWidgetData(cfg, prims, TeamStatus, upstream))
      else
        Fetched([ActiveMissionInfo, PersonsAvailability], FetchWidgetData(cfg, prims, PersonsAvailability, upstream))
  }

  // ---- Route gates ----

  /** A route's effect: the widget queries it issued and its reply. */
  datatype Handled = Handled(queries: seq<WidgetEndpoint>, reply: Reply)

  function FailureBody(what: string): Json {
    JObj([("error", JStr("Failed to fetch " + what + " data."))])
  }

  /** `POST /people`: a wrong key gets 403 before any query; a failed query gets 500; otherwise the roster. */
  function PeopleRoute(cfg: Config, prims: Primitives, securityKey: Option<string>,
                       upstream: Request -> WidgetResponse): (h: Handled)
    ensures h.reply.status == 403 <==> !Authorized(cfg, securityKey)
    ensures !Authorized(cfg, securityKey) ==> h.queries == [] && h.reply.body == Text("Forbidden")
    ensures Authorized(cfg, securityKey) ==> h.queries == GetPeople(cfg, prims, upstream).queries
    ensures h.reply.status == 500 <==> Authorized(cfg, securityKey) && GetPeople(cfg, prims, upstream).result.Failure?
    ensures h.reply.status == 500 ==> h.reply.body == JsonBody(FailureBody("people"))
    ensures h.reply.status == 200 ==> h.reply.body == JsonBody(GetPeople(cfg, prims, upstream).result.value)
    ensures Authorized(cfg, securityKey) && GetPeople(cfg, prims, upstream).result.Success? ==>
              h.reply == Reply(200, JsonBody(GetPeople(cfg, prims, upstream).result.value))
  {
    if securityKey != Some(cfg.privateAuthKey) then Handled([], Reply(403, Text("Forbidden")))
    else
      var fetched := GetPeople(cfg, prims, upstream);
      match fetched.result
      case Success(data) => Handled(fetched.queries, Reply(200, JsonBody(data)))
      case Failure(_) => Handled(fetched.queries, Reply(500, JsonBody(FailureBody("people"))))
  }

  /** `POST /call`: a wrong key gets 403 before any query; a failed query gets 500; otherwise the incident data. */
  function CallRoute(cfg: Config, prims: Primitives, securityKey: Option<string>,
                     upstream: Request -> WidgetResponse): (h: Handled)
    ensures h.reply.status == 403 <==> !Authorized(cfg, securityKey)
    ensures !Authorized(cfg, securityKey) ==> h.queries == [] && h.reply.body == Text("Forbidden")
    ensures Authorized(cfg, securityKey) ==> h.queries == [ActiveMissionInfo]
    ensures h.reply.status == 500 <==>
              Authorized(cfg, securityKey) && FetchWidgetData(cfg, prims, ActiveMissionInfo, upstream).Failure?
    ensures h.reply.status == 500 ==> h.reply.body == JsonBody(FailureBody("call"))
    ensures h.reply.status == 200 ==>
              h.reply.body == JsonBody(FetchWidgetData(cfg, prims, ActiveMissionInfo, upstream).value)
    ensures Authorized(cfg, securityKey) && FetchWidgetData(cfg, prims, ActiveMissionInfo, upstream).Success? ==>
              h.reply == Reply(200, JsonBody(FetchWidgetData(cfg, prims, ActiveMissionInfo, upstream).value))
  {
    if securityKey != Some(cfg.privateAuthKey) then Handled([], Reply(403, Text("Forbidden")))
    else
      match FetchWidgetData(cfg, prims, ActiveMissionInfo, upstream)
      case Success(data) => Handled([ActiveMissionInfo], Reply(200, JsonBody(data)))
      case Failure(_) => Handled([ActiveMissionInfo], Reply(500, JsonBody(FailureBody("call"))))
  }

  /**
   * `POST /passwordcheck`: the redirect carrying the caller key is handed out
   * exactly when `psw` is the configured password, strictly compared.
   */
  function PasswordCheck(cfg: Config, body: Json): (r: Reply)
    ensures r.status == 200 <==> Field(body, "psw") == Some(JStr(cfg.webPassword))
    ensures r.status == 200 ==> r.body == JsonBody(JObj([("redirectUrl", JStr("/?securitykey=" + cfg.privateAuthKey))]))
    ensures r.status != 200 ==> r == Reply(403, Text("Unauthorized"))
  {
    if Field(body, "psw") == Some(JStr(cfg.webPassword)) then
      Reply(200, JsonBody(JObj([("redirectUrl", JStr("/?securitykey=" + cfg.privateAuthKey))])))
    else
      Reply(403, Text("Unauthorized"))
  }
}
