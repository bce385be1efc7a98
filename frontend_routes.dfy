/**
 * The browser-side rerouting of the avatar SDK's network calls and the
 * choice of avatar persona (frontend/src/main.ts).
 *
 * Every fetch and every EventSource whose URL starts with the avatar
 * service's origin is sent to the same-origin proxy path instead.
 */
module AnamRoutes {
  import opened Text

  /** The same-origin path the backend proxies to the avatar service. */
  const AnamBase := "/anam/api"
  /** The avatar service's own origin, as the SDK addresses it. */
  const AnamOrigin := "https://api.anam.ai"

  /** The URL a patched call actually uses: the origin prefix is replaced by the proxy path. */
  function ProxiedUrl(url: string): (r: string)
    ensures AnamOrigin <= url ==> r == AnamBase + url[|AnamOrigin|..]
    ensures !(AnamOrigin <= url) ==> r == url
  {
    if AnamOrigin <= url then
      ReplaceFirst(url, AnamOrigin, AnamBase)
    else
      url
  }

  /** The request fields the patched fetch copies into a rebuilt Request. */
  datatype RequestFields = RequestFields(
    httpMethod: string, headers: seq<(string, string)>, body: seq<bv8>, mode: string,
    credentials: string, cache: string, redirect: string, referrer: string,
    referrerPolicy: string, integrity: string, keepalive: bool)

  /** The three shapes of fetch's first argument. */
  datatype FetchInput =
    | UrlString(url: string)
    | UrlObject(href: string)
    | RequestObject(requestUrl: string, fields: RequestFields)
  {
    /** The URL the input designates (lines 18-20). */
    function Url(): string {
      match this
      case UrlString(u) => u
      case UrlObject(h) => h
      case RequestObject(u, _) => u
    }
  }

  /**
   * The first argument the patched fetch hands to the browser's fetch: an
   * input aimed at the avatar origin is redirected, a Request is rebuilt with
   * the same fields, a string or URL becomes the rewritten string; every other
   * input is passed on untouched.
   */
  function PatchedFetchInput(input: FetchInput): (r: FetchInput)
    ensures r.Url() == ProxiedUrl(input.Url())
    ensures !(AnamOrigin <= input.Url()) ==> r == input
    ensures AnamOrigin <= input.Url() && input.RequestObject? ==>
              r == RequestObject(AnamBase + input.Url()[|AnamOrigin|..], input.fields)
    ensures AnamOrigin <= input.Url() && !input.RequestObject? ==>
              r == UrlString(AnamBase + input.Url()[|AnamOrigin|..])
  {
    var url := input.Url();
    if AnamOrigin <= url then
      var newUrl := ProxiedUrl(url);
      match input
      case RequestObject(_, fields) => RequestObject(newUrl, fields)
      case _ => UrlString(newUrl)
    else
      input
  }

  /** The URL argument of an EventSource constructor: a string or a URL object. */
  datatype EventSourceUrl = Raw(s: string) | Parsed(href: string)

  /** The URL the patched EventSource connects to (lines 50-51). */
  function PatchedEventSourceUrl(u: EventSourceUrl): (r: string)
    ensures var raw := match u case Raw(s) => s case Parsed(h) => h;
      && (AnamOrigin <= raw ==> r == AnamBase + raw[|AnamOrigin|..])
      && (!(AnamOrigin <= raw) ==> r == raw)
  {
    var raw := match u case Raw(s) => s case Parsed(h) => h;
    ProxiedUrl(raw)
  }

  /** fetch and EventSource reroute a URL in the same way. */
  lemma FetchAndEventSourceAgree(url: string)
    ensures PatchedFetchInput(UrlString(url)).Url() == PatchedEventSourceUrl(Raw(url))
    ensures PatchedFetchInput(UrlObject(url)).Url() == PatchedEventSourceUrl(Parsed(url))
  {
  }

  /**
   * The prefix test has no boundary: whatever follows the origin's text (a
   * longer host name such as ".example.com" included) is kept after the proxy path.
   */
  lemma PrefixWithoutBoundary(rest: string)
    ensures ProxiedUrl(AnamOrigin + rest) == AnamBase + rest
  {
    assert AnamOrigin <= AnamOrigin + rest;
    assert (AnamOrigin + rest)[|AnamOrigin|..] == rest;
  }

  /** The avatar personas the frontend can start a session with. */
  datatype Persona = Eva | Leo | Pablo

  /** The persona for a model name: two names are special, everything else gets the default. */
  function PersonaFromModel(model: string): (p: Persona)
    ensures p == Leo <==> model == "NICK_MODEL"
    ensures p == Pablo <==> model == "JOHN_PULSE_MODEL"
    ensures p == Eva <==> model != "NICK_MODEL" && model != "JOHN_PULSE_MODEL"
  {
    if model == "NICK_MODEL" then Leo
    else if model == "JOHN_PULSE_MODEL" then Pablo
    else Eva
  }
}
