/**
 * The request layer of the backend (backend/app/main.py): the Referer gate
 * and model lookup of the assistant endpoint, the session-token endpoint,
 * and the header handling of the generic /anam/api proxy.
 *
 * The OpenAI and HTTP clients are not modelled: what they would answer is
 * passed in as a value (a thread id, an upstream reply).
 */
module Backend {
  import opened Wrappers
  import opened Text
  import opened Protocol

  /** Header pairs in the order a request or response carries them. */
  type Headers = seq<(string, string)>

  /** Header names that are never passed through the proxy, compared lower-cased. */
  const HopHeaders: set<string> := {
    "connection", "keep-alive", "proxy-authenticate", "proxy-authorization",
    "te", "trailers", "transfer-encoding", "upgrade", "host", "content-length"
  }

  predicate IsHopByHop(name: string) {
    AsciiLower(name) in HopHeaders
  }

  /** Proof helper: only names of the lengths of the listed ones can be hop-by-hop. */
  lemma HopByHopLengths(name: string)
    requires IsHopByHop(name)
    ensures |name| in {2, 4, 7, 8, 10, 14, 17, 18, 19}
  {
    var l := AsciiLower(name);
    assert |l| == |name|;
  }

  /* ---------- Referer gate and assistant lookup ---------- */

  const SitePrefix := "https://psychology-machines.ru/"
  const DevPrefix := "http://localhost:5173"

  /**
   * The Referer check of generate_assistant_response, written in the shape
   * of the source's condition; a missing header reads as "".
   */
  function RefererAllowed(referer: Option<string>): (ok: bool)
    ensures ok <==> SitePrefix <= referer.GetOr("") || DevPrefix <= referer.GetOr("")
  {
    var r := referer.GetOr("");
    !((r == "" || !(SitePrefix <= r)) && !(DevPrefix <= r))
  }

  /** A request without a Referer, or with an empty one, is refused. */
  lemma MissingRefererRejected()
    ensures !RefererAllowed(None) && !RefererAllowed(Some(""))
  {
    assert !(SitePrefix <= "") && !(DevPrefix <= "");
  }

  /**
   * Prefixes are matched literally: the site without its trailing slash is
   * refused, and whatever follows "http://localhost:5173" is accepted, so
   * "http://localhost:51730/" passes as well.
   */
  lemma RefererPrefixEdges(rest: string)
    ensures !RefererAllowed(Some("https://psychology-machines.ru"))
    ensures RefererAllowed(Some(DevPrefix + rest))
    ensures RefererAllowed(Some("http://localhost:51730/"))
  {
    assert DevPrefix <= DevPrefix + rest;
    assert DevPrefix <= "http://localhost:51730/";
    assert "https://psychology-machines.ru"[4] != DevPrefix[4];
  }

  /** MODEL_MAP of backend/app/models.py: both model names lead to the same assistant. */
  const ModelMap: map<string, string> := map[
    "MARIA_MODEL" := "asst_bd82EF3r58NnxLeVjgvtuNzH",
    "MARIA_RU_MODEL" := "asst_bd82EF3r58NnxLeVjgvtuNzH"
  ]

  /** Starlette's answer to an exception the endpoint does not handle. */
  const Unhandled := HttpError(500, "Internal Server Error")

  /** What the assistant endpoint asks of OpenAI and the headers the handler passes to its event-stream response. */
  datatype AssistantRun = AssistantRun(threadId: string, prompt: string, assistantId: string,
                                       headers: map<string, string>)

  /**
   * generate_assistant_response up to the start of the stream, for a
   * thread the client has created: 403 on a bad Referer, Starlette's 500
   * when the model name is not in the map (after the thread and the user
   * message were created), otherwise the run and the headers the handler
   * passes to EventSourceResponse (which adds defaults of its own).
   */
  function AssistantRequest(referer: Option<string>, prompt: string, model: string, threadId: string)
    : (r: Result<AssistantRun, HttpError>)
    ensures !RefererAllowed(referer) ==> r == Failure(HttpError(403, "Invalid Referer"))
    ensures RefererAllowed(referer) && model !in ModelMap ==> r == Failure(Unhandled)
    ensures RefererAllowed(referer) && model in ModelMap ==>
              && r.Success? && r.value.assistantId == ModelMap[model]
              && r.value.threadId == threadId && r.value.prompt == prompt
              && r.value.headers.Keys == {"x-thread-id", "Cache-Control", "Connection"}
              && r.value.headers["x-thread-id"] == threadId
              && r.value.headers["Cache-Control"] == "no-cache"
              && r.value.headers["Connection"] == "keep-alive"
  {
    if !RefererAllowed(referer) then Failure(HttpError(403, "Invalid Referer"))
    else if model !in ModelMap then Failure(Unhandled)
    else
      var hs := map["x-thread-id" := threadId, "Cache-Control" := "no-cache", "Connection" := "keep-alive"];
      Success(AssistantRun(threadId, prompt, ModelMap[model], hs))
  }

  /** Both known model names lead to the same answer: the same assistant, or the same 403. */
  lemma BothModelsShareAssistant(referer: Option<string>, prompt: string, threadId: string)
    ensures AssistantRequest(referer, prompt, "MARIA_MODEL", threadId)
         == AssistantRequest(referer, prompt, "MARIA_RU_MODEL", threadId)
  {
  }

  /* ---------- Header filtering ---------- */

  /** Some pair of `hs` is named `k` (names compared exactly). */
  predicate Present(hs: Headers, k: string) {
    exists i :: 0 <= i < |hs| && hs[i].0 == k
  }

  /** The last pair of `hs` named `k` carries `v`. */
  predicate LastIs(hs: Headers, k: string, v: string) {
    exists i :: 0 <= i < |hs| && hs[i] == (k, v) && forall j :: i < j < |hs| ==> hs[j].0 != k
  }

  /**
   * Apart from the names in `except`, `m` holds exactly the names of `hs`
   * that are not hop-by-hop, each with the value of its last occurrence.
   */
  ghost predicate Mirrors(hs: Headers, m: map<string, string>, except: set<string>) {
    forall k :: k !in except ==>
      && (k in m <==> Present(hs, k) && !IsHopByHop(k))
      && (k in m ==> LastIs(hs, k, m[k]))
  }

  /**
   * The dict comprehension over header items (lines 141 and 159): pairs in
   * order, a hop-by-hop name skipped, a later pair overriding an earlier one.
   */
  function FilterHeaders(hs: Headers): (m: map<string, string>)
    ensures Mirrors(hs, m, {})
  {
    if hs == [] then map[]
    else
      var init, last := hs[..|hs| - 1], hs[|hs| - 1];
      assert hs == init + [last];
      var m := FilterHeaders(init);
      FilterStep(init, last, m);
      if IsHopByHop(last.0) then m else m[last.0 := last.1]
  }

  /** One more pair keeps the mirroring. */
  lemma FilterStep(init: Headers, last: (string, string), m: map<string, string>)
    requires Mirrors(init, m, {})
    ensures Mirrors(init + [last], if IsHopByHop(last.0) then m else m[last.0 := last.1], {})
  {
    var hs := init + [last];
    var m' := if IsHopByHop(last.0) then m else m[last.0 := last.1];
    forall k
      ensures (k in m' <==> Present(hs, k) && !IsHopByHop(k))
      ensures k in m' ==> LastIs(hs, k, m'[k])
    {
      if k == last.0 {
        assert hs[|init|] == last;
        if k in m' {
          assert m'[k] == last.1;
          assert hs[|init|] == (k, m'[k]);
        }
      } else {
        if Present(hs, k) {
          var i :| 0 <= i < |hs| && hs[i].0 == k;
          assert i < |init| && init[i].0 == k;
        }
        if Present(init, k) {
          var i :| 0 <= i < |init| && init[i].0 == k;
          assert hs[i].0 == k;
        }
        if k in m' {
          var i :| 0 <= i < |init| && init[i] == (k, m[k]) && forall j :: i < j < |init| ==> init[j].0 != k;
          assert hs[i] == (k, m'[k]);
          assert forall j :: i < j < |hs| ==> hs[j].0 != k;
        }
      }
    }
  }

  /**
   * Hop-by-hop names are dropped whatever their case: no name whose
   * lower-cased spelling is listed survives, from any header list, and a
   * name is forwarded when some pair carries it and it is not listed.
   */
  lemma HopHeadersDroppedInAnyCase(hs: Headers, name: string)
    ensures AsciiLower(name) in HopHeaders ==> name !in FilterHeaders(hs)
    ensures AsciiLower(name) !in HopHeaders && Present(hs, name) ==> name in FilterHeaders(hs)
  {
  }

  /** For instance, "TE" is dropped and "X-Request" kept. */
  lemma TeDroppedExample()
    ensures FilterHeaders([("TE", "trailers"), ("X-Request", "7")]) == map["X-Request" := "7"]
  {
    var hs := [("TE", "trailers"), ("X-Request", "7")];
    assert AsciiLower("TE") == "te";
    if IsHopByHop("X-Request") {
      HopByHopLengths("X-Request");
    }
    assert hs[..1] == [("TE", "trailers")];
    assert hs[..1][..0] == [];
  }

  /* ---------- The /anam/api proxy ---------- */

  /** The methods the proxy route is registered for. */
  const ProxyMethods: set<string> := {"GET", "POST", "PUT", "PATCH", "DELETE", "OPTIONS"}

  /** A request as it reaches the proxy route. */
  datatype ProxyRequest = ProxyRequest(httpMethod: string, path: string, query: string,
                                       headers: Headers, body: seq<bv8>)

  /** What the proxy does with a request: answer a preflight itself, or send it upstream. */
  datatype ProxyPlan =
    | Preflight(status: int)
    | Upstream(httpMethod: string, url: string, query: string,
               headers: map<string, string>, body: seq<bv8>)

  /**
   * The request half of anam_proxy (lines 134-146): OPTIONS is answered
   * with 204 and nothing goes upstream; any other method is sent to
   * `anamBase + "/" + path` with its query and body unchanged and its
   * headers filtered, with Accept-Encoding forced to identity.
   */
  method PlanProxy(anamBase: string, req: ProxyRequest) returns (plan: ProxyPlan)
    requires req.httpMethod in ProxyMethods
    ensures plan.Preflight? <==> req.httpMethod == "OPTIONS"
    ensures plan.Preflight? ==> plan.status == 204
    ensures plan.Upstream? ==>
              && plan.url == anamBase + "/" + req.path
              && plan.httpMethod == req.httpMethod
              && plan.query == req.query && plan.body == req.body
              && Mirrors(req.headers, plan.headers, {"Accept-Encoding"})
              && "Accept-Encoding" in plan.headers && plan.headers["Accept-Encoding"] == "identity"
  {
    if req.httpMethod == "OPTIONS" {
      return Preflight(204);
    }
    var url := anamBase + "/" + req.path;
    var fwd := FilterHeaders(req.headers);
    fwd := fwd["Accept-Encoding" := "identity"];
    plan := Upstream(req.httpMethod, url, req.query, fwd, req.body);
  }

  /**
   * The media type of a proxied reply (line 158): a missing or empty
   * content type falls back to application/octet-stream.
   */
  function ProxyMediaType(contentType: Option<string>): (media: string)
    ensures contentType.Some? && contentType.value != "" ==> media == contentType.value
    ensures contentType.None? || contentType == Some("") ==> media == "application/octet-stream"
  {
    if contentType.Some? && contentType.value != "" then contentType.value else "application/octet-stream"
  }

  /** The three headers an event-stream reply gets (lines 163-165). */
  const SseHeaders: set<string> := {"X-Accel-Buffering", "Cache-Control", "Connection"}

  /** What the upstream answered: a status, headers and content type, or a transport failure. */
  datatype UpstreamReply =
    | Reply(status: int, headers: Headers, contentType: Option<string>)
    | RequestFailed(reason: string)

  /** The proxy's own reply: the upstream status, its media type and the headers passed back. */
  datatype ProxyReply = ProxyReply(status: int, mediaType: string, headers: map<string, string>)

  /**
   * The response half of anam_proxy (lines 156-188): a transport failure
   * becomes 502; otherwise the status is kept, the media type defaulted,
   * the headers filtered, and an event stream gets buffering off, no-cache
   * and keep-alive, Connection included although filtering removed it.
   */
  method ProxyResponse(reply: UpstreamReply) returns (r: Result<ProxyReply, HttpError>)
    ensures reply.RequestFailed? ==> r == Failure(HttpError(502, "Proxy error: " + reply.reason))
    ensures reply.Reply? ==>
              && r.Success? && r.value.status == reply.status
              && r.value.mediaType == ProxyMediaType(reply.contentType)
    ensures reply.Reply? && !Contains(ProxyMediaType(reply.contentType), "text/event-stream") ==>
              Mirrors(reply.headers, r.value.headers, {})
    ensures reply.Reply? && Contains(ProxyMediaType(reply.contentType), "text/event-stream") ==>
              && Mirrors(reply.headers, r.value.headers, SseHeaders)
              && SseHeaders <= r.value.headers.Keys
              && r.value.headers["X-Accel-Buffering"] == "no"
              && r.value.headers["Cache-Control"] == "no-cache"
              && r.value.headers["Connection"] == "keep-alive"
  {
    if reply.RequestFailed? {
      return Failure(HttpError(502, "Proxy error: " + reply.reason));
    }
    var media := ProxyMediaType(reply.contentType);
    var hs := FilterHeaders(reply.headers);
    if Contains(media, "text/event-stream") {
      hs := hs["X-Accel-Buffering" := "no"];
      hs := hs["Cache-Control" := "no-cache"];
      hs := hs["Connection" := "keep-alive"];
    }
    r := Success(ProxyReply(reply.status, media, hs));
  }

  /**
   * Names are compared exactly: a client header that differs from
   * Accept-Encoding only in case is forwarded next to the forced one.
   */
  lemma OtherSpellingForwardedBeside(name: string, v: string)
    requires !IsHopByHop(name) && name != "Accept-Encoding"
    ensures var m := FilterHeaders([(name, v)])["Accept-Encoding" := "identity"];
      name in m && m[name] == v && m["Accept-Encoding"] == "identity"
  {
    var hs := [(name, v)];
    assert hs[..0] == [];
  }

  /** The lower-case spelling a browser sends is such a header. */
  lemma AcceptEncodingNotHopByHop()
    ensures !IsHopByHop("accept-encoding")
  {
    if IsHopByHop("accept-encoding") {
      HopByHopLengths("accept-encoding");
    }
  }

  /* ---------- Session token ---------- */

  /** The call the session-token endpoint makes upstream. */
  datatype TokenCall = TokenCall(url: string, headers: map<string, string>, payload: string)

  /** The payload sent when the incoming body is not valid JSON. */
  const EmptyObject := "{}"

  /**
   * anam_session_token up to the upstream call (lines 101-117): 500 when
   * no API key is configured, whatever the body; otherwise the parsed body
   * (or {} when it did not parse) is posted with a bearer token, JSON
   * content type and identity encoding.
   */
  function SessionTokenCall(apiKey: string, anamBase: string, parsed: Option<string>)
    : (r: Result<TokenCall, HttpError>)
    ensures apiKey == "" <==> r.Failure?
    ensures apiKey == "" ==> r.error == HttpError(500, "ANAM_API_KEY is not set")
    ensures apiKey != "" ==>
              && r.value.url == anamBase + "/v1/auth/session-token"
              && r.value.payload == (if parsed.Some? then parsed.value else EmptyObject)
              && r.value.headers.Keys == {"Authorization", "Content-Type", "Accept-Encoding"}
              && r.value.headers["Authorization"] == "Bearer " + apiKey
              && r.value.headers["Content-Type"] == "application/json"
              && r.value.headers["Accept-Encoding"] == "identity"
  {
    if apiKey == "" then Failure(HttpError(500, "ANAM_API_KEY is not set"))
    else
      var payload := parsed.GetOr(EmptyObject);
      var hs := map[
        "Authorization" := "Bearer " + apiKey,
        "Content-Type" := "application/json",
        "Accept-Encoding" := "identity"
      ];
      Success(TokenCall(anamBase + "/v1/auth/session-token", hs, payload))
  }

  /** The key is checked before the body is looked at: without a key the body does not matter. */
  lemma MissingKeyIgnoresBody(anamBase: string, p: Option<string>, q: Option<string>)
    ensures SessionTokenCall("", anamBase, p) == SessionTokenCall("", anamBase, q)
  {
  }

  /**
   * The media type of the session-token reply (line 121): application/json
   * only when the header is missing, unlike the proxy, an empty header
   * value is passed through as it is.
   */
  function SessionMediaType(contentType: Option<string>): (media: string)
    ensures contentType.None? ==> media == "application/json"
    ensures contentType.Some? ==> media == contentType.value
  {
    contentType.GetOr("application/json")
  }

  /** The two endpoints default an empty upstream content type differently. */
  lemma EmptyContentTypeDefaults()
    ensures SessionMediaType(Some("")) == ""
    ensures ProxyMediaType(Some("")) == "application/octet-stream"
  {
  }
}
