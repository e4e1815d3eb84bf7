/**
 * How the controller shapes its JSON responses: the service's result spread
 * into a new object with a derived `webhook_url`, or a fixed disabled view.
 */
module Responses {
  import opened Wrappers

  /** A JSON value (numbers as integers). */
  datatype Json =
    | JNull
    | JBool(b: bool)
    | JNumber(n: int)
    | JString(s: string)
    | JArray(items: seq<Json>)
    | JObject(members: map<string, Json>)

  type JsonObject = map<string, Json>

  /** The address the provider posts events to for one instance. */
  function WebhookUrl(serverUrl: string, encodeUriComponent: string -> string, instanceName: string): (r: string)
    ensures |r| == |serverUrl| + |"/chatwoot/webhook/"| + |encodeUriComponent(instanceName)|
    ensures r[..|serverUrl|] == serverUrl
    ensures r[|serverUrl|..|serverUrl| + |"/chatwoot/webhook/"|] == "/chatwoot/webhook/"
    ensures r[|serverUrl| + |"/chatwoot/webhook/"|..] == encodeUriComponent(instanceName)
  {
    serverUrl + "/chatwoot/webhook/" + encodeUriComponent(instanceName)
  }

  /** `{ ...result }`: spreading `null` or `undefined` contributes no property. */
  function Spread(result: Option<JsonObject>): JsonObject
  {
    if result.Some? then result.value else map[]
  }

  /** `{ ...result, webhook_url: webhookUrl }`. */
  function WithWebhookUrl(result: Option<JsonObject>, webhookUrl: string): (r: JsonObject)
    ensures "webhook_url" in r && r["webhook_url"] == JString(webhookUrl)
    ensures r.Keys == Spread(result).Keys + {"webhook_url"}
    ensures forall k :: k in Spread(result) && k != "webhook_url" ==> r[k] == Spread(result)[k]
  {
    Spread(result)["webhook_url" := JString(webhookUrl)]
  }

  /** `Object.keys(result || {}).length === 0`. */
  predicate IsEmptyResult(result: Option<JsonObject>)
    ensures IsEmptyResult(result) <==> |Spread(result).Keys| == 0
  {
    result.None? || result.value == map[]
  }

  /** What `findChatwoot` returns when nothing is configured. */
  function DefaultView(): (r: JsonObject)
    ensures r.Keys == {"enabled", "url", "account_id", "token", "sign_msg", "name_inbox", "webhook_url"}
    ensures r["enabled"] == JBool(false) && r["sign_msg"] == JBool(false)
    ensures forall k :: k in r && k != "enabled" && k != "sign_msg" ==> r[k] == JString("")
  {
    map["enabled" := JBool(false),
        "url" := JString(""),
        "account_id" := JString(""),
        "token" := JString(""),
        "sign_msg" := JBool(false),
        "name_inbox" := JString(""),
        "webhook_url" := JString("")]
  }

  /** The response of `findChatwoot` for the service's result `result`. */
  function FindResponse(result: Option<JsonObject>, webhookUrl: string): (r: JsonObject)
    ensures "webhook_url" in r
    ensures r["webhook_url"] == JString(if IsEmptyResult(result) then "" else webhookUrl)
    ensures IsEmptyResult(result) ==> r == DefaultView()
    ensures !IsEmptyResult(result) ==>
              && r.Keys == result.value.Keys + {"webhook_url"}
              && forall k :: k in result.value && k != "webhook_url" ==> r[k] == result.value[k]
  {
    if IsEmptyResult(result) then DefaultView() else WithWebhookUrl(result, webhookUrl)
  }

  /** Two instances get the same webhook address only if their names encode alike. */
  lemma WebhookUrlDeterminesName(serverUrl: string, encodeUriComponent: string -> string, a: string, b: string)
    requires WebhookUrl(serverUrl, encodeUriComponent, a) == WebhookUrl(serverUrl, encodeUriComponent, b)
    ensures encodeUriComponent(a) == encodeUriComponent(b)
  {
  }
}
