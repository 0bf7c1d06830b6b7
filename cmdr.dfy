/** The caching proxy of router/cmdr.js: four handlers in front of Frontier's
    Companion API (CAPI). Each handler verifies the caller's session JWT, looks
    up the account's access token, calls CAPI and turns the answer into an
    HTTP status and body; the `:endpoint` handler also keeps a cache of CAPI
    responses per (commander, endpoint).

    The collaborators whose code is not part of this model (`verifyJwt`,
    `getAccessToken`, `fetch` and the reading of the response body) are given
    as a `World`: what each of them returns or throws for this request. The
    cache store behind `getCache`/`setCache`/`deleteCache` is the router's
    `cache` map. Every handler also returns the sequence of calls it made to
    those collaborators, so that what it does NOT do can be stated. */
module Cmdr {
  import opened Text

  /** `CAPI_ENDPOINTS`. */
  const CapiEndpoints: seq<string> :=
    ["profile", "market", "shipyard", "communitygoals", "journal", "fleetcarrier", "visitedstars"]

  /** `FRONTIER_API_BASE_URL` (lib/consts.js). */
  const FrontierApiBaseUrl: string := "https://companion.orerve.net"

  /** A JSON document, as `response.json()` parses it and as Koa serialises
      an object body. An object lists its keys in insertion order; a key whose
      value is `undefined` is not serialised and so is not listed. */
  datatype Json =
    | JNull
    | JBool(b: bool)
    | JNum(n: int)
    | JStr(s: string)
    | JArr(items: seq<Json>)
    | JObj(fields: seq<(string, Json)>)
  {
    predicate HasKey(key: string)
    {
      JObj? && exists i :: 0 <= i < |fields| && fields[i].0 == key
    }
  }

  /** What `ctx.body` is set to: an object (sent as JSON), a string (sent as
      text) or a Buffer (sent as bytes). */
  datatype Body = JsonBody(doc: Json) | TextBody(text: string) | BinaryBody(bytes: seq<int>)

  /** The response a handler produces: `ctx.status`, `ctx.body` and the
      Content-Type the handler sets explicitly, if any. */
  datatype HttpResult = HttpResult(status: int, body: Body, contentType: Option<string>)

  /** A thrown exception: an Error's `name`, `message` and `stack`. */
  datatype Fault = Fault(name: string, message: string, stack: string)
  {
    /** `Error.prototype.toString`. */
    function ToString(): string
    {
      if name == "" then message
      else if message == "" then name
      else name + ": " + message
    }
  }

  /** What a collaborator call returned, or the exception it threw. */
  datatype Outcome<T> = Done(value: T) | Threw(fault: Fault)

  /** A CAPI response: its status and what reading its body as text, as JSON
      or as bytes gives (each reader may throw, for example on malformed
      JSON). */
  datatype Response = Response(status: int, text: Outcome<string>, json: Outcome<Json>,
                               bytes: Outcome<seq<int>>)
  {
    /** `response.ok` (Fetch standard): a status in the range 200 to 299. */
    predicate Ok()
    {
      200 <= status <= 299
    }
  }

  /** The answers of the collaborators to one request. */
  datatype World = World(
    /** `verifyJwt(ctx)`: the token's `sub`, the commander id, or the error. */
    jwt: Outcome<string>,
    /** `getAccessToken(cmdrId)`: the stored token, `None` when there is none. */
    accessToken: string -> Outcome<Option<string>>,
    /** `fetch(url, { headers: { Authorization: `Bearer ${token}` } })`. */
    fetch: (string, string) -> Outcome<Response>)

  /** A call to a collaborator, in the order the handler makes it. */
  datatype Call =
    | VerifyJwt
    | GetCache(cmdrId: string, endpoint: string)
    | GetAccessToken(cmdrId: string)
    | Fetch(url: string, accessToken: string)
    | SetCache(cmdrId: string, endpoint: string)
    | DeleteCache(cmdrId: string)

  /** `!accessToken`: a missing or empty token is refused. */
  predicate HasToken(token: Option<string>)
  {
    token.Some? && token.value != ""
  }

  function ErrorObject(message: string): Json
  {
    JObj([("error", JStr(message))])
  }

  /** 404 `{ error: 'Unsupported CAPI endpoint' }`. */
  function UnsupportedEndpoint(): (r: HttpResult)
    ensures r.status == 404 && r.contentType == None
    ensures r.body == JsonBody(JObj([("error", JStr("Unsupported CAPI endpoint"))]))
  {
    HttpResult(404, JsonBody(ErrorObject("Unsupported CAPI endpoint")), None)
  }

  /** 401 `{ error: 'No valid access token found' }`. */
  function NoAccessToken(): (r: HttpResult)
    ensures r.status == 401 && r.contentType == None
    ensures r.body == JsonBody(JObj([("error", JStr("No valid access token found"))]))
  {
    HttpResult(401, JsonBody(ErrorObject("No valid access token found")), None)
  }

  /** A CAPI status that is not ok is passed on verbatim, both as the HTTP
      status and as the `status` field of `{ error, status }`. */
  function UpstreamFailure(status: int): (r: HttpResult)
    ensures r.status == status && r.contentType == None
    ensures r.body == JsonBody(JObj([("error", JStr("Frontier API request failed")),
                                     ("status", JNum(r.status))]))
  {
    HttpResult(status, JsonBody(JObj([("error", JStr("Frontier API request failed")),
                                      ("status", JNum(status))])), None)
  }

  /** The response when a handler assigns `ctx.body` without a status: Koa
      answers 200, except for a `null` body (a CAPI document that is JSON
      `null`), which it answers with 204 No Content. */
  function Success(body: Body, contentType: Option<string>): (r: HttpResult)
    ensures r.body == body && r.contentType == contentType
    ensures r.status == 204 <==> body == JsonBody(JNull)
    ensures r.status == 200 || r.status == 204
  {
    HttpResult(if body == JsonBody(JNull) then 204 else 200, body, contentType)
  }

  /** The message test of every `catch` block. */
  predicate IsAuthMessage(message: string)
  {
    message != "" && (Contains(message, "JWT") || Contains(message, "signed in"))
  }

  /** A message that mentions `JWT` or `signed in` anywhere is an
      authentication failure; one with neither a `J` nor an `s` in it is not. */
  lemma AuthMessages(before: string, after: string, message: string)
    ensures IsAuthMessage(before + "JWT" + after)
    ensures IsAuthMessage(before + "signed in" + after)
    ensures 'J' !in message && 's' !in message ==> !IsAuthMessage(message)
  {
    ContainsSpec(message, "JWT", before, after);
    ContainsSpec(message, "signed in", before, after);
    assert |before + "JWT" + after| > 0;
    assert |before + "signed in" + after| > 0;
  }

  /** The `catch` block shared by the handlers (`label` is the handler's own
      error text). A message naming the JWT or the sign-in is a 401
      `Unauthorized` that carries the message; anything else is a 500 with the
      error's string form, and with its stack only when `NODE_ENV` is
      `development` (an `undefined` stack is not serialised). */
  function ErrorResult(e: Fault, errorLabel: string, development: bool): (r: HttpResult)
    ensures r.status == 401 <==> IsAuthMessage(e.message)
    ensures r.status == 401 || r.status == 500
    ensures r.contentType == None && r.body.JsonBody? && r.body.doc.JObj?
    ensures r.status == 401 ==>
      r.body.doc == JObj([("error", JStr("Unauthorized")), ("message", JStr(e.message))])
    ensures r.status == 500 ==>
      |r.body.doc.fields| >= 2 && r.body.doc.fields[..2] == [("error", JStr(errorLabel)), ("message", JStr(e.ToString()))]
    ensures r.status == 500 ==> (r.body.doc.HasKey("stack") <==> development)
  {
    if IsAuthMessage(e.message) then
      HttpResult(401, JsonBody(JObj([("error", JStr("Unauthorized")), ("message", JStr(e.message))])), None)
    else
      var stack := if development then [("stack", JStr(e.stack))] else [];
      var r := HttpResult(500, JsonBody(JObj([("error", JStr(errorLabel)), ("message", JStr(e.ToString()))]
                                             + stack)), None);
      assert development ==> r.body.doc.fields[2].0 == "stack";
      r
  }

  /** The error label of the three GET handlers and of the delete handler. */
  const FetchFailed: string := "Frontier API request failed"
  const DeleteFailed: string := "Delete API request failed"

  /** The cache entries the router writes: never `visitedstars`, `journal` as
      text, every other supported endpoint as a JSON document. */
  predicate CachedShape(endpoint: string, payload: Body)
  {
    && endpoint in CapiEndpoints && endpoint != "visitedstars"
    && (endpoint == "journal" ==> payload.TextBody?)
    && (endpoint != "journal" ==> payload.JsonBody?)
  }

  class CmdrRouter {
    /** The CAPI response cache, by (commander id, endpoint). */
    var cache: map<(string, string), Body>
    /** `process.env.NODE_ENV === 'development'`. */
    const development: bool

    predicate Valid()
      reads this
    {
      forall k :: k in cache ==> CachedShape(k.1, cache[k])
    }

    constructor (development: bool)
      ensures Valid() && cache == map[] && this.development == development
    {
      this.development := development;
      cache := map[];
    }

    /** `GET /auth/cmdr`: the commander's profile document from the CAPI root,
        never cached. */
    method Root(w: World) returns (r: HttpResult, calls: seq<Call>)
      ensures forall i :: 0 <= i < |calls| ==> !calls[i].GetCache? && !calls[i].SetCache?
      ensures w.jwt.Threw? ==> r == ErrorResult(w.jwt.fault, FetchFailed, development) && calls == [VerifyJwt]
      ensures w.jwt.Done? ==>
        var id := w.jwt.value;
        var token := w.accessToken(id);
        && (token.Threw? ==> r == ErrorResult(token.fault, FetchFailed, development) &&
                             calls == [VerifyJwt, GetAccessToken(id)])
        && (token.Done? && !HasToken(token.value) ==>
              r == NoAccessToken() && calls == [VerifyJwt, GetAccessToken(id)])
        && (token.Done? && HasToken(token.value) ==>
              var response := w.fetch(FrontierApiBaseUrl, token.value.value);
              && calls == [VerifyJwt, GetAccessToken(id), Fetch(FrontierApiBaseUrl, token.value.value)]
              && (response.Threw? ==> r == ErrorResult(response.fault, FetchFailed, development))
              && (response.Done? && !response.value.Ok() ==> r == UpstreamFailure(response.value.status))
              && (response.Done? && response.value.Ok() ==>
                    && (response.value.json.Threw? ==>
                          r == ErrorResult(response.value.json.fault, FetchFailed, development))
                    && (response.value.json.Done? ==>
                          r == Success(JsonBody(response.value.json.value), None))))
    {
      calls := [VerifyJwt];
      if w.jwt.Threw? {
        return ErrorResult(w.jwt.fault, FetchFailed, development), calls;
      }
      var cmdrId := w.jwt.value;
      calls := calls + [GetAccessToken(cmdrId)];
      var token := w.accessToken(cmdrId);
      if token.Threw? {
        return ErrorResult(token.fault, FetchFailed, development), calls;
      }
      if !HasToken(token.value) {
        return NoAccessToken(), calls;
      }
      var accessToken := token.value.value;
      calls := calls + [Fetch(FrontierApiBaseUrl, accessToken)];
      var response := w.fetch(FrontierApiBaseUrl, accessToken);
      if response.Threw? {
        return ErrorResult(response.fault, FetchFailed, development), calls;
      }
      if !response.value.Ok() {
        return UpstreamFailure(response.value.status), calls;
      }
      var json := response.value.json;
      if json.Threw? {
        return ErrorResult(json.fault, FetchFailed, development), calls;
      }
      r := Success(JsonBody(json.value), None);
    }

    /** `POST /auth/cmdr/delete`: removes every cache entry of the signed-in
        commander and answers `{ success: true }`; other commanders' entries
        stay as they were. */
    method Delete(w: World) returns (r: HttpResult, calls: seq<Call>)
      requires Valid()
      modifies this
      ensures Valid()
      ensures w.jwt.Threw? ==>
        r == ErrorResult(w.jwt.fault, DeleteFailed, development) &&
        calls == [VerifyJwt] && cache == old(cache)
      ensures w.jwt.Done? ==>
        && r == Success(JsonBody(JObj([("success", JBool(true))])), None)
        && calls == [VerifyJwt, DeleteCache(w.jwt.value)]
        && (forall k :: k in cache <==> k in old(cache) && k.0 != w.jwt.value)
        && (forall k :: k in cache ==> cache[k] == old(cache)[k])
    {
      calls := [VerifyJwt];
      if w.jwt.Threw? {
        return ErrorResult(w.jwt.fault, DeleteFailed, development), calls;
      }
      var cmdrId := w.jwt.value;
      calls := calls + [DeleteCache(cmdrId)];
      cache := map k | k in cache && k.0 != cmdrId :: cache[k];
      r := Success(JsonBody(JObj([("success", JBool(true))])), None);
    }

    /** `GET /auth/cmdr/:endpoint`: an unsupported endpoint is refused before
        anything else is done; a cached response is served as it is; on a miss
        CAPI is called with the commander's access token, a failure status is
        passed on, and a successful response is returned and, unless it is
        `visitedstars`, cached. */
    method Endpoint(endpoint: string, w: World) returns (r: HttpResult, calls: seq<Call>)
      requires Valid()
      modifies this
      ensures Valid()
      // Nothing but the entry of this request is ever written.
      ensures forall k :: k in old(cache) ==> k in cache
      ensures forall k :: k in cache && (w.jwt.Threw? || k != (w.jwt.value, endpoint)) ==>
        k in old(cache) && cache[k] == old(cache)[k]
      ensures (forall i :: 0 <= i < |calls| ==> !calls[i].SetCache?) ==> cache == old(cache)
      ensures endpoint !in CapiEndpoints ==> r == UnsupportedEndpoint() && calls == [] && cache == old(cache)
      ensures endpoint in CapiEndpoints && w.jwt.Threw? ==>
        r == ErrorResult(w.jwt.fault, FetchFailed, development) && calls == [VerifyJwt]
      ensures endpoint in CapiEndpoints && w.jwt.Done? && (w.jwt.value, endpoint) in old(cache) ==>
        && r == Success(old(cache)[(w.jwt.value, endpoint)], None)
        && calls == [VerifyJwt, GetCache(w.jwt.value, endpoint)]
        && cache == old(cache)
      ensures endpoint in CapiEndpoints && w.jwt.Done? && (w.jwt.value, endpoint) !in old(cache) ==>
        var id := w.jwt.value;
        var token := w.accessToken(id);
        && |calls| >= 3 && calls[..3] == [VerifyJwt, GetCache(id, endpoint), GetAccessToken(id)]
        && (token.Threw? ==> r == ErrorResult(token.fault, FetchFailed, development) && |calls| == 3)
        && (token.Done? && !HasToken(token.value) ==> r == NoAccessToken() && |calls| == 3)
        && (token.Done? && HasToken(token.value) ==>
              var url := FrontierApiBaseUrl + "/" + endpoint;
              var response := w.fetch(url, token.value.value);
              && |calls| >= 4 && calls[3] == Fetch(url, token.value.value)
              && (response.Threw? ==> r == ErrorResult(response.fault, FetchFailed, development) && |calls| == 4)
              && (response.Done? && !response.value.Ok() ==>
                    r == UpstreamFailure(response.value.status) && |calls| == 4)
              && (response.Done? && response.value.Ok() ==>
                    EndpointFetched(endpoint, id, response.value, development, r, calls, old(cache), cache)))
    {
      if endpoint !in CapiEndpoints {
        return UnsupportedEndpoint(), [];
      }
      calls := [VerifyJwt];
      if w.jwt.Threw? {
        return ErrorResult(w.jwt.fault, FetchFailed, development), calls;
      }
      var cmdrId := w.jwt.value;
      var responseData: Body;
      var contentType: Option<string> := None;
      calls := calls + [GetCache(cmdrId, endpoint)];
      if (cmdrId, endpoint) in cache {
        responseData := cache[(cmdrId, endpoint)];
      } else {
        calls := calls + [GetAccessToken(cmdrId)];
        var token := w.accessToken(cmdrId);
        if token.Threw? {
          return ErrorResult(token.fault, FetchFailed, development), calls;
        }
        if !HasToken(token.value) {
          return NoAccessToken(), calls;
        }
        var accessToken := token.value.value;
        var url := FrontierApiBaseUrl + "/" + endpoint;
        calls := calls + [Fetch(url, accessToken)];
        var response := w.fetch(url, accessToken);
        if response.Threw? {
          return ErrorResult(response.fault, FetchFailed, development), calls;
        }
        if !response.value.Ok() {
          return UpstreamFailure(response.value.status), calls;
        }
        if endpoint == "journal" {
          var text := response.value.text;
          if text.Threw? {
            return ErrorResult(text.fault, FetchFailed, development), calls;
          }
          responseData := TextBody(text.value);
        } else if endpoint == "visitedstars" {
          var bytes := response.value.bytes;
          if bytes.Threw? {
            return ErrorResult(bytes.fault, FetchFailed, development), calls;
          }
          responseData := BinaryBody(bytes.value);
          contentType := Some("application/gzip");
        } else {
          var json := response.value.json;
          if json.Threw? {
            return ErrorResult(json.fault, FetchFailed, development), calls;
          }
          responseData := JsonBody(json.value);
        }
        if endpoint != "visitedstars" {
          calls := calls + [SetCache(cmdrId, endpoint)];
          cache := cache[(cmdrId, endpoint) := responseData];
          assert calls[|calls| - 1].SetCache?;
        }
      }
      r := Success(responseData, contentType);
    }

    /** `GET /auth/cmdr/journal/:year/:month/:day`: one day of the journal as
        text, never cached. */
    method JournalForDay(year: string, month: string, day: string, w: World)
      returns (r: HttpResult, calls: seq<Call>)
      ensures forall i :: 0 <= i < |calls| ==> !calls[i].GetCache? && !calls[i].SetCache?
      ensures w.jwt.Threw? ==> r == ErrorResult(w.jwt.fault, FetchFailed, development) && calls == [VerifyJwt]
      ensures w.jwt.Done? ==>
        var id := w.jwt.value;
        var token := w.accessToken(id);
        && (token.Threw? ==> r == ErrorResult(token.fault, FetchFailed, development) &&
                             calls == [VerifyJwt, GetAccessToken(id)])
        && (token.Done? && !HasToken(token.value) ==>
              r == NoAccessToken() && calls == [VerifyJwt, GetAccessToken(id)])
        && (token.Done? && HasToken(token.value) ==>
              var url := FrontierApiBaseUrl + "/journal/" + year + "/" + month + "/" + day;
              var response := w.fetch(url, token.value.value);
              && calls == [VerifyJwt, GetAccessToken(id), Fetch(url, token.value.value)]
              && (response.Threw? ==> r == ErrorResult(response.fault, FetchFailed, development))
              && (response.Done? && !response.value.Ok() ==> r == UpstreamFailure(response.value.status))
              && (response.Done? && response.value.Ok() ==>
                    && (response.value.text.Threw? ==>
                          r == ErrorResult(response.value.text.fault, FetchFailed, development))
                    && (response.value.text.Done? ==>
                          r == Success(TextBody(response.value.text.value), None))))
    {
      calls := [VerifyJwt];
      if w.jwt.Threw? {
        return ErrorResult(w.jwt.fault, FetchFailed, development), calls;
      }
      var cmdrId := w.jwt.value;
      calls := calls + [GetAccessToken(cmdrId)];
      var token := w.accessToken(cmdrId);
      if token.Threw? {
        return ErrorResult(token.fault, FetchFailed, development), calls;
      }
      if !HasToken(token.value) {
        return NoAccessToken(), calls;
      }
      var accessToken := token.value.value;
      var url := FrontierApiBaseUrl + "/journal/" + year + "/" + month + "/" + day;
      calls := calls + [Fetch(url, accessToken)];
      var response := w.fetch(url, accessToken);
      if response.Threw? {
        return ErrorResult(response.fault, FetchFailed, development), calls;
      }
      if !response.value.Ok() {
        return UpstreamFailure(response.value.status), calls;
      }
      var text := response.value.text;
      if text.Threw? {
        return ErrorResult(text.fault, FetchFailed, development), calls;
      }
      r := Success(TextBody(text.value), None);
    }
  }

  /** A CAPI response that the `:endpoint` handler accepts as JSON. */
  predicate ServesJson(w: World, endpoint: string)
  {
    && w.jwt.Done?
    && w.accessToken(w.jwt.value).Done?
    && HasToken(w.accessToken(w.jwt.value).value)
    && w.fetch(FrontierApiBaseUrl + "/" + endpoint, w.accessToken(w.jwt.value).value.value).Done?
    && w.fetch(FrontierApiBaseUrl + "/" + endpoint, w.accessToken(w.jwt.value).value.value).value.Ok()
    && w.fetch(FrontierApiBaseUrl + "/" + endpoint, w.accessToken(w.jwt.value).value.value).value.json.Done?
  }

  /** The document CAPI answered with. */
  function FetchedJson(w: World, endpoint: string): Json
    requires ServesJson(w, endpoint)
  {
    w.fetch(FrontierApiBaseUrl + "/" + endpoint, w.accessToken(w.jwt.value).value.value).value.json.value
  }

  /** Two `market` requests of the same commander: the first reaches CAPI and
      fills the cache; the second, even after the access token was rotated or
      revoked and whatever CAPI would now answer, is served from the cache
      without fetching and gets the same response. */
  method MarketServedFromCache(w1: World, w2: World)
    returns (first: HttpResult, second: HttpResult, secondCalls: seq<Call>)
    requires ServesJson(w1, "market")
    requires w2.jwt == w1.jwt
    ensures first == Success(JsonBody(FetchedJson(w1, "market")), None)
    ensures second == first
    ensures secondCalls == [VerifyJwt, GetCache(w1.jwt.value, "market")]
  {
    var router := new CmdrRouter(false);
    assert CapiEndpoints[1] == "market";
    var firstCalls;
    first, firstCalls := router.Endpoint("market", w1);
    second, secondCalls := router.Endpoint("market", w2);
  }

  /** A commander's `market` response is cached by a first request; after
      `delete`, the next `market` request goes to CAPI again and is served
      what CAPI now answers, not the cached document. */
  method DeleteForcesRefetch(before: World, w: World) returns (r: HttpResult, calls: seq<Call>)
    requires ServesJson(before, "market")
    requires ServesJson(w, "market") && w.jwt == before.jwt
    ensures r == Success(JsonBody(FetchedJson(w, "market")), None)
    ensures |calls| == 5
    ensures calls[3] == Fetch(FrontierApiBaseUrl + "/" + "market", w.accessToken(w.jwt.value).value.value)
  {
    var router := new CmdrRouter(false);
    assert CapiEndpoints[1] == "market";
    var first, firstCalls := router.Endpoint("market", before);
    assert (w.jwt.value, "market") in router.cache;
    var deleted, deleteCalls := router.Delete(w);
    r, calls := router.Endpoint("market", w);
  }

  /** A `market` request whose `fetch` rejects goes to the `catch` block
      before anything is cached, so the next `market` request of the same
      commander reaches CAPI and is served what CAPI answers then. */
  method FailedFetchCachesNothing(failing: World, w: World)
    returns (first: HttpResult, second: HttpResult, secondCalls: seq<Call>)
    requires ServesJson(w, "market") && failing.jwt == w.jwt
    requires failing.accessToken(w.jwt.value) == w.accessToken(w.jwt.value)
    requires failing.fetch(FrontierApiBaseUrl + "/" + "market", w.accessToken(w.jwt.value).value.value).Threw?
    ensures first == ErrorResult(
      failing.fetch(FrontierApiBaseUrl + "/" + "market", w.accessToken(w.jwt.value).value.value).fault,
      FetchFailed, false)
    ensures second == Success(JsonBody(FetchedJson(w, "market")), None)
    ensures |secondCalls| == 5
    ensures secondCalls[3] == Fetch(FrontierApiBaseUrl + "/" + "market", w.accessToken(w.jwt.value).value.value)
  {
    var router := new CmdrRouter(false);
    assert CapiEndpoints[1] == "market";
    var firstCalls;
    first, firstCalls := router.Endpoint("market", failing);
    assert (w.jwt.value, "market") !in router.cache;
    second, secondCalls := router.Endpoint("market", w);
  }

  /** The outcome of the `:endpoint` handler once CAPI answered with an ok
      status: the body is read as text for `journal`, as gzip bytes with
      Content-Type `application/gzip` for `visitedstars` and as JSON otherwise;
      a body that cannot be read goes to the `catch` block; what is returned is
      what is cached, under (commander, endpoint), except for `visitedstars`,
      which is never cached. */
  ghost predicate EndpointFetched(endpoint: string, id: string, response: Response, development: bool,
                                  r: HttpResult,
                                  calls: seq<Call>, before: map<(string, string), Body>,
                                  after: map<(string, string), Body>)
    requires |calls| >= 4
  {
    var read: Outcome<Body> :=
      if endpoint == "journal" then
        (if response.text.Threw? then Threw(response.text.fault) else Done(TextBody(response.text.value)))
      else if endpoint == "visitedstars" then
        (if response.bytes.Threw? then Threw(response.bytes.fault) else Done(BinaryBody(response.bytes.value)))
      else
        (if response.json.Threw? then Threw(response.json.fault) else Done(JsonBody(response.json.value)));
    && (read.Threw? ==> r == ErrorResult(read.fault, FetchFailed, development) && |calls| == 4 && after == before)
    && (read.Done? && endpoint == "visitedstars" ==>
          r == Success(read.value, Some("application/gzip")) && |calls| == 4 && after == before)
    && (read.Done? && endpoint != "visitedstars" ==>
          && r == Success(read.value, None)
          && calls[4..] == [SetCache(id, endpoint)]
          && after == before[(id, endpoint) := read.value])
  }
}
