/**
 * The browser's calls to the server (components/ApiService.js), each as the
 * request value it hands to `fetch`: URL, method, headers and body.
 */
module ApiService {
  import opened Wrappers
  import opened Json
  import opened AssocList
  import opened Http
  import Server

  /** `${securityKey}` in a template: a missing query parameter (`null`) becomes the text "null". */
  function KeyText(key: Option<string>): string {
    match key
    case Some(k) => k
    case None => "null"
  }

  function KeyedUrl(path: string, key: Option<string>): string {
    path + "?securitykey=" + KeyText(key)
  }

  const JsonContent: seq<(string, string)> := [("Content-Type", "application/json")]

  /** A JSON POST to one of the server's signed routes. */
  function JsonPost(path: string, key: Option<string>, prims: Primitives, payload: Json): (r: Request)
    ensures r.verb == "POST" && r.headers == JsonContent
    ensures r.url == KeyedUrl(path, key) && r.body == Some(prims.stringify(payload))
  {
    Request(KeyedUrl(path, key), "POST", JsonContent, Some(prims.stringify(payload)))
  }

  /** `triggerAlarm(securityKey, alarmData)`: the alarm object, serialised unchanged, to `/triggerAlarm`. */
  function TriggerAlarm(key: Option<string>, prims: Primitives, alarmData: seq<(string, Json)>): (r: Request)
    ensures r.url == KeyedUrl("/triggerAlarm", key)
    ensures r.body == Some(prims.stringify(JObj(alarmData)))
  {
    JsonPost("/triggerAlarm", key, prims, JObj(alarmData))
  }

  /**
   * `{ ...alarmData, keyword: "TEST" }`: the alarm object with `keyword`
   * forced to "TEST", replaced in place when present and appended otherwise.
   */
  function BackupPayload(alarmData: seq<(string, Json)>): (r: seq<(string, Json)>)
    ensures Keys(r) == if "keyword" in Keys(alarmData) then Keys(alarmData) else Keys(alarmData) + ["keyword"]
  {
    Set(alarmData, "keyword", JStr("TEST"))
  }

  /** `triggerBackupAlarm(securityKey, alarmData)`: the backup object, serialised, to `/triggerAlarm`. */
  function TriggerBackupAlarm(key: Option<string>, prims: Primitives, alarmData: seq<(string, Json)>): (r: Request)
    ensures r.url == KeyedUrl("/triggerAlarm", key)
    ensures r.body == Some(prims.stringify(JObj(BackupPayload(alarmData))))
  {
    JsonPost("/triggerAlarm", key, prims, JObj(BackupPayload(alarmData)))
  }

  /** `sendPushMessage(securityKey, pushData)`: the push payload, serialised unchanged, to `/pushMessage`. */
  function SendPushMessage(key: Option<string>, prims: Primitives, pushData: Json): (r: Request)
    ensures r.url == KeyedUrl("/pushMessage", key) && r.verb == "POST" && r.headers == JsonContent
    ensures r.body == Some(prims.stringify(pushData))
  {
    JsonPost("/pushMessage", key, prims, pushData)
  }

  function CallRequest(key: Option<string>): Request {
    Request(KeyedUrl("/call", key), "POST", [], None)
  }

  function PeopleRequest(key: Option<string>): Request {
    Request(KeyedUrl("/people", key), "POST", [], None)
  }

  /**
   * `fetchFFAgentData(securityKey)`: both reads are issued and both must
   * yield JSON; `respond` gives the parsed body, or `None` when the fetch or
   * the parse throws, which is passed on to the caller.
   */
  function FetchFFAgentData(key: Option<string>, respond: Request -> Option<Json>): (r: Option<(Json, Json)>)
    ensures r.Some? <==> respond(CallRequest(key)).Some? && respond(PeopleRequest(key)).Some?
    ensures r.Some? ==> r.value.0 == respond(CallRequest(key)).value && r.value.1 == respond(PeopleRequest(key)).value
  {
    match (respond(CallRequest(key)), respond(PeopleRequest(key)))
    case (Some(callRes), Some(peopleRes)) => Some((callRes, peopleRes))
    case _ => None
  }

  // ---- Properties ----

  /** The backup object carries keyword "TEST" and every other property of the alarm object unchanged. */
  lemma BackupPayloadFields(alarmData: seq<(string, Json)>, k: string)
    ensures Get(BackupPayload(alarmData), k) == if k == "keyword" then Some(JStr("TEST")) else Get(alarmData, k)
  {
    SetGet(alarmData, "keyword", JStr("TEST"), k);
  }

  /** Applying the backup transform twice is the same as applying it once. */
  lemma BackupPayloadIdempotent(alarmData: seq<(string, Json)>)
    ensures BackupPayload(BackupPayload(alarmData)) == BackupPayload(alarmData)
  {
    SetIdempotent(alarmData, "keyword", JStr("TEST"));
  }

  /**
   * The primary and the backup request go to the same URL with the same
   * method and headers; the backup body is the primary body of the backup
   * object, and the two coincide when the keyword already is "TEST".
   */
  lemma BackupSharesTarget(key: Option<string>, prims: Primitives, alarmData: seq<(string, Json)>)
    ensures var primary := TriggerAlarm(key, prims, alarmData);
            var backup := TriggerBackupAlarm(key, prims, alarmData);
      && backup.url == primary.url == KeyedUrl("/triggerAlarm", key)
      && backup.verb == primary.verb == "POST"
      && backup.headers == primary.headers == JsonContent
      && backup == TriggerAlarm(key, prims, BackupPayload(alarmData))
      && (Get(alarmData, "keyword") == Some(JStr("TEST")) ==> backup == primary)
  {
    if Get(alarmData, "keyword") == Some(JStr("TEST")) {
      SetUnchanged(alarmData, "keyword", JStr("TEST"));
    }
  }

  /** What the browser reads from a reply of the `/call` and `/people` routes: JSON bodies parse, "Forbidden" does not. */
  function ReadJson(reply: Reply): (r: Option<Json>)
    ensures r.Some? <==> reply.body.JsonBody?
    ensures reply.body.JsonBody? ==> r == Some(reply.body.value)
  {
    match reply.body
    case JsonBody(v) => Some(v)
    case _ => None
  }

  /**
   * The server's routes as the browser's `fetch` sees them. The key is
   * written into the URL as the text `KeyText(key)`, unencoded, and the
   * server reads back `decode` of that text from its parsed query string.
   */
  function ServerReads(cfg: Server.Config, prims: Primitives, upstream: Request -> Server.WidgetResponse,
                       key: Option<string>, decode: string -> string): Request -> Option<Json>
  {
    req => if req == CallRequest(key) then ReadJson(Server.CallRoute(cfg, prims, Some(decode(KeyText(key))), upstream).reply)
           else ReadJson(Server.PeopleRoute(cfg, prims, Some(decode(KeyText(key))), upstream).reply)
  }

  /**
   * End to end: the browser obtains incident and roster data exactly when
   * the key the server reads back from the query string is its own; a failed
   * widget query reaches the browser as the server's `{error}` object, not as
   * a failure.
   */
  lemma FetchNeedsKey(cfg: Server.Config, prims: Primitives, upstream: Request -> Server.WidgetResponse,
                      key: Option<string>, decode: string -> string)
    ensures var r := FetchFFAgentData(key, ServerReads(cfg, prims, upstream, key, decode));
      && (r.Some? <==> decode(KeyText(key)) == cfg.privateAuthKey)
      && (r.Some? ==> r.value.0 == (match Server.FetchWidgetData(cfg, prims, Server.ActiveMissionInfo, upstream)
                                    case Success(data) => data
                                    case Failure(_) => Server.FailureBody("call")))
      && (r.Some? && Server.FetchWidgetData(cfg, prims, Server.ActiveMissionInfo, upstream).Failure? ==>
            r.value.0 == Server.FailureBody("call"))
      && (r.Some? && Server.GetPeople(cfg, prims, upstream).result.Failure? ==>
            r.value.1 == Server.FailureBody("people"))
      && (r.Some? && Server.GetPeople(cfg, prims, upstream).result.Success? ==>
            r.value.1 == Server.GetPeople(cfg, prims, upstream).result.value)
  {
    var served := ServerReads(cfg, prims, upstream, key, decode);
    var received := Some(decode(KeyText(key)));
    assert CallRequest(key) != PeopleRequest(key) by {
      assert CallRequest(key).url[1] != PeopleRequest(key).url[1];
    }
    assert served(CallRequest(key)) == ReadJson(Server.CallRoute(cfg, prims, received, upstream).reply);
    assert served(PeopleRequest(key)) == ReadJson(Server.PeopleRoute(cfg, prims, received, upstream).reply);
  }
}
