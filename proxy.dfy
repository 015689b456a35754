/**
 * The forwarding proxy's request handler (`onRequest` in proxy.js).
 *
 * The handler reads the `target` query parameter, validates it with the WHATWG
 * URL parser, re-issues the inbound request against the target over `http` or
 * `https`, and relays the upstream status and headers with the two framing
 * headers removed. The URL parser and the network client are foreign code: the
 * parser is the parameter `parseUrl` and the upstream's answer is the parameter
 * `send`. Node has already lower-cased every header name, so header maps are
 * keyed by lower-case names.
 */
module Proxy {
  import opened Wrappers

  type Headers = map<string, string>

  /**
   * The fields of a WHATWG URL record that the handler reads. `port` is the
   * empty string when the URL names no port (or its scheme's default port);
   * `search` is either empty or starts with `?`.
   */
  datatype UrlRecord = UrlRecord(protocol: string, hostname: string, port: string, pathname: string, search: string)

  datatype Transport = Http | Https

  /** The `port` option: the URL's own port text, or a numeric default. */
  datatype Port = Explicit(text: string) | Default(number: nat)

  /** The options object handed to `request` (lines 53-62). */
  datatype OutboundRequest = OutboundRequest(
    transport: Transport,
    hostname: string,
    port: Port,
    path: string,
    verb: string,
    headers: Headers)

  /**
   * What the upstream request produces: a response, an `error` event, or a
   * synchronous throw from `request` itself (line 65), as when Node refuses a
   * path holding a character outside U+0021-U+00FF (`data:text/plain,a b`).
   */
  datatype Upstream = Responded(statusCode: int, headers: Headers) | Failed(message: string) | Threw(message: string)

  /** A plain-text body written by the handler, or the upstream body piped through. */
  datatype Body = Text(text: string) | UpstreamBody

  datatype ClientResponse = ClientResponse(statusCode: int, headers: Headers, body: Body)

  /**
   * One handled request: the options handed to `request`, if it was called,
   * and the answer to the caller. No answer means `request` threw before any
   * upstream connection existed: the call at line 65 is outside the `try`, so
   * the exception leaves the handler and ends the process.
   */
  datatype Exchange = Exchange(sent: Option<OutboundRequest>, response: Option<ClientResponse>)

  const PlainText: Headers := map["Content-Type" := "text/plain; charset=utf-8"]
  const MissingTargetMessage := "错误：请求中缺少 'target' URL 参数。"
  const InvalidTargetPrefix := "错误：提供的 'target' URL 无效。"
  const GatewayErrorPrefix := "代理网关错误：无法连接到目标服务器。\n"

  /** The upstream headers the relay removes so the page can be framed. */
  const StrippedHeaders: set<string> := {"x-frame-options", "content-security-policy"}

  function BadRequest(message: string): ClientResponse
  {
    ClientResponse(400, PlainText, Text(message))
  }

  /**
   * Lines 25-47. `query` is what lines 27-28 produce: `Err(m)` when parsing the
   * inbound URL threw with message `m`, otherwise the value of the `target`
   * parameter, if any. A missing or empty value is rejected by `!targetUrl`; a
   * value the parser rejects is answered with the parser's message.
   */
  function ResolveTarget(query: Result<Option<string>, string>, parseUrl: string -> Result<UrlRecord, string>)
    : (r: Result<UrlRecord, ClientResponse>)
    ensures r.Err? ==> r.error.statusCode == 400 && r.error.headers == PlainText
  {
    match query
    case Err(m) => Err(BadRequest(InvalidTargetPrefix + m))
    case Ok(None) => Err(BadRequest(MissingTargetMessage))
    case Ok(Some(t)) =>
      if t == "" then Err(BadRequest(MissingTargetMessage))
      else match parseUrl(t)
        case Err(m) => Err(BadRequest(InvalidTargetPrefix + m))
        case Ok(u) => Ok(u)
  }

  /** Line 50: `https` for the `https:` scheme and plain `http` for every other scheme. */
  function SelectTransport(u: UrlRecord): (t: Transport)
    ensures t == Https <==> u.protocol == "https:"
  {
    if u.protocol == "https:" then Https else Http
  }

  /** Line 55: `target.port || (https ? 443 : 80)`; the empty string is falsy. */
  function SelectPort(u: UrlRecord): (p: Port)
    ensures u.port != "" ==> p == Explicit(u.port)
    ensures u.port == "" && u.protocol == "https:" ==> p == Default(443)
    ensures u.port == "" && u.protocol != "https:" ==> p == Default(80)
  {
    if u.port != "" then Explicit(u.port)
    else if u.protocol == "https:" then Default(443) else Default(80)
  }

  /**
   * Lines 58-61: the inbound headers spread into a new object whose `host` is
   * then the target's bare hostname (no port).
   */
  function OutboundHeaders(inbound: Headers, hostname: string): (h: Headers)
    ensures h.Keys == inbound.Keys + {"host"}
    ensures h["host"] == hostname
    ensures forall k :: k in inbound && k != "host" ==> h[k] == inbound[k]
  {
    inbound["host" := hostname]
  }

  /** Lines 50-62: the transport and the options passed to `request`. */
  function BuildRequest(u: UrlRecord, verb: string, inbound: Headers): (o: OutboundRequest)
    ensures o.transport == Https <==> u.protocol == "https:"
    ensures o.hostname == u.hostname
    ensures o.port == SelectPort(u)
    ensures o.path == u.pathname + u.search
    ensures o.verb == verb
    ensures o.headers.Keys == inbound.Keys + {"host"} && o.headers["host"] == u.hostname
    ensures forall k :: k in inbound && k != "host" ==> o.headers[k] == inbound[k]
  {
    OutboundRequest(SelectTransport(u), u.hostname, SelectPort(u), u.pathname + u.search, verb,
                    OutboundHeaders(inbound, u.hostname))
  }

  /**
   * `relayed` is `upstream` with exactly the stripped names removed: no name
   * added, no other name dropped, no value changed.
   */
  ghost predicate RelayedFrom(relayed: Headers, upstream: Headers)
  {
    && relayed.Keys == upstream.Keys - StrippedHeaders
    && forall k :: k in relayed ==> relayed[k] == upstream[k]
  }

  /** Lines 69-72: copy the upstream headers, then delete the two framing headers. */
  method StripSecurityHeaders(upstream: Headers) returns (headers: Headers)
    ensures RelayedFrom(headers, upstream)
  {
    headers := upstream;
    headers := headers - {"x-frame-options"};
    headers := headers - {"content-security-policy"};
  }

  /** The relayed header set is determined by the upstream one. */
  lemma RelayedFromUnique(a: Headers, b: Headers, upstream: Headers)
    requires RelayedFrom(a, upstream) && RelayedFrom(b, upstream)
    ensures a == b
  {
  }

  /**
   * An upstream answer with a content-security-policy and one custom header is
   * relayed with the custom header alone.
   */
  lemma RelayScenario(relayed: Headers)
    requires RelayedFrom(relayed, map["content-security-policy" := "default-src 'self'", "x-custom" := "v"])
    ensures relayed == map["x-custom" := "v"]
  {
  }

  /**
   * `onRequest` (lines 23-90). Every rejection is a 400 made before `request`
   * is called; for an accepted target `request` is called once; a response is
   * relayed with its status unchanged, an `error` event becomes a 502
   * carrying the error's message, and a synchronous throw leaves no answer.
   */
  method OnRequest(
    query: Result<Option<string>, string>,
    inboundMethod: string,
    inboundHeaders: Headers,
    parseUrl: string -> Result<UrlRecord, string>,
    send: OutboundRequest -> Upstream)
    returns (x: Exchange)
    ensures query == Ok(None) || query == Ok(Some("")) ==>
      x == Exchange(None, Some(BadRequest(MissingTargetMessage)))
    ensures query.Err? ==> x == Exchange(None, Some(BadRequest(InvalidTargetPrefix + query.error)))
    ensures query.Ok? && query.value.Some? && query.value.value != "" ==>
      var target := query.value.value;
      && (parseUrl(target).Err? ==>
            x == Exchange(None, Some(BadRequest(InvalidTargetPrefix + parseUrl(target).error))))
      && (parseUrl(target).Ok? ==>
            x.sent == Some(BuildRequest(parseUrl(target).value, inboundMethod, inboundHeaders)))
    ensures x.sent.None? ==> x.response.Some? && x.response.value.statusCode == 400 && x.response.value.body.Text?
    ensures x.sent.Some? ==>
      match send(x.sent.value)
      case Responded(status, upstream) =>
        && x.response.Some?
        && x.response.value.statusCode == status
        && RelayedFrom(x.response.value.headers, upstream)
        && x.response.value.body == UpstreamBody
      case Failed(message) =>
        x.response == Some(ClientResponse(502, PlainText, Text(GatewayErrorPrefix + message)))
      case Threw(_) =>
        x.response.None?
  {
    var resolved := ResolveTarget(query, parseUrl);
    if resolved.Err? {
      return Exchange(None, Some(resolved.error));
    }
    var request := BuildRequest(resolved.value, inboundMethod, inboundHeaders);
    var answer := send(request);
    match answer {
      case Responded(status, upstream) =>
        var headers := StripSecurityHeaders(upstream);
        x := Exchange(Some(request), Some(ClientResponse(status, headers, UpstreamBody)));
      case Failed(message) =>
        x := Exchange(Some(request), Some(ClientResponse(502, PlainText, Text(GatewayErrorPrefix + message))));
      case Threw(_) =>
        x := Exchange(Some(request), None);
    }
  }
}
