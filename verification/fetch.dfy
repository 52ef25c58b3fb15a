/** The fetchURL tool handler: checks the URL, builds the outbound request
    (method default, body, User-Agent, Content-Type, custom headers), sends
    it through the client, reads a bounded body and reports the response,
    whatever its status code. */
module Fetch {
  import opened Text
  import opened Outcomes
  import opened Http

  /** Server-held configuration, fixed when the server is built. */
  datatype FetchConfig = FetchConfig(userAgent: string, maxBodySize: int)

  /** The decoded tool arguments; an absent argument is the empty string. */
  datatype FetchParams = FetchParams(
    url: string,
    verb: string,
    body: string,
    contentType: string,
    headers: string)

  /** The record the handler reports (status, first header values, body,
      requested URL and the method used). */
  datatype ResponseDetails = ResponseDetails(
    statusCode: int,
    headers: map<string, string>,
    body: string,
    url: string,
    verb: string)

  /** Success: the heading line and the record pretty-printed after it. */
  datatype FetchReport = FetchReport(heading: string, details: ResponseDetails)

  /** Decoding of the `headers` argument as a JSON object of strings: the
      entries in the order Go's map iteration visits them, or None when
      the text is not such an object. */
  type HeaderDecoder = string -> Option<seq<(string, string)>>

  predicate IsHttpUrl(url: string) {
    HasPrefix(url, "http://") || HasPrefix(url, "https://")
  }

  /** The method the request is sent with. */
  function EffectiveVerb(verb: string): string {
    if verb == "" then "GET" else verb
  }

  /** The Content-Type the handler sets, if any: the explicit one, else
      application/json for a non-empty body sent with POST, PUT or PATCH. */
  function ContentTypeFor(p: FetchParams): Option<string> {
    var verb := EffectiveVerb(p.verb);
    if p.contentType != "" then Some(p.contentType)
    else if p.body != "" && (verb == "POST" || verb == "PUT" || verb == "PATCH") then Some("application/json")
    else None
  }

  /** The custom header entries the request receives, in the order they are set. */
  function CustomHeaders(p: FetchParams, decode: HeaderDecoder): seq<(string, string)> {
    if p.headers == "" then []
    else match decode(p.headers)
      case None => []
      case Some(entries) => entries
  }

  /** The headers before the custom ones: User-Agent, then Content-Type. */
  function BaseHeader(cfg: FetchConfig, p: FetchParams): Header {
    var withAgent := SetHeader(map[], UserAgentKey, cfg.userAgent);
    match ContentTypeFor(p)
    case Some(ct) => SetHeader(withAgent, ContentTypeKey, ct)
    case None => withAgent
  }

  /** Request construction, everything before the request is sent. */
  function BuildFetchRequest(cfg: FetchConfig, p: FetchParams, client: Client, decode: HeaderDecoder): (r: Result<HttpRequest>)
    ensures !IsHttpUrl(p.url) ==> r == Err(InvalidUrl)
    ensures r.Ok? <==>
              && IsHttpUrl(p.url)
              && CanCreateRequest(client, EffectiveVerb(p.verb), p.url)
              && (p.headers != "" ==> decode(p.headers).Some?)
    ensures IsHttpUrl(p.url) && !CanCreateRequest(client, EffectiveVerb(p.verb), p.url) ==> r == Err(RequestNotCreated)
    ensures (&& IsHttpUrl(p.url)
             && CanCreateRequest(client, EffectiveVerb(p.verb), p.url)
             && p.headers != "" && decode(p.headers).None?) ==> r == Err(InvalidHeadersJson)
    ensures r.Ok? ==> r.value.verb == (if p.verb == "" then "GET" else p.verb)
    ensures r.Ok? ==> r.value.url == p.url && r.value.query == map[]
    ensures r.Ok? ==> (r.value.body.Some? <==> p.body != "")
    ensures r.Ok? && r.value.body.Some? ==> r.value.body.value == p.body
  {
    if !IsHttpUrl(p.url) then Err(InvalidUrl)
    else
      var verb := EffectiveVerb(p.verb);
      var body := if p.body != "" then Some(p.body) else None;
      if !CanCreateRequest(client, verb, p.url) then Err(RequestNotCreated)
      else if p.headers != "" && decode(p.headers).None? then Err(InvalidHeadersJson)
      else
        var header := SetHeaders(BaseHeader(cfg, p), CustomHeaders(p, decode));
        Ok(HttpRequest(verb, p.url, map[], header, body))
  }

  /** The handler: the built request is sent, its body read within the
      size cap, and the response reported. */
  function HandleFetchUrl(cfg: FetchConfig, p: FetchParams, client: Client, decode: HeaderDecoder): (r: Result<FetchReport>)
    ensures BuildFetchRequest(cfg, p, client, decode).Err? ==>
              r == Err(BuildFetchRequest(cfg, p, client, decode).failure)
    ensures r.Ok? ==>
              && BuildFetchRequest(cfg, p, client, decode).Ok?
              && client.send(BuildFetchRequest(cfg, p, client, decode).value).Received?
    ensures r.Ok? ==>
              && r.value.details.url == p.url
              && r.value.details.verb == EffectiveVerb(p.verb)
              && HasPrefix(r.value.heading, "Response from " + p.url + " (status: ")
    ensures r.Ok? ==> |r.value.details.body| <= if cfg.maxBodySize < 0 then 0 else cfg.maxBodySize
    ensures BuildFetchRequest(cfg, p, client, decode).Ok? ==>
              var x := client.send(BuildFetchRequest(cfg, p, client, decode).value);
              && (x.TransportError? ==> r == Err(RequestFailed))
              && (x.Received? && ReadLimited(x.body, cfg.maxBodySize).Err? ==> r == Err(ReadFailure))
  {
    match BuildFetchRequest(cfg, p, client, decode)
    case Err(f) => Err(f)
    case Ok(req) =>
      match client.send(req)
      case TransportError => Err(RequestFailed)
      case Received(status, header, stream) =>
        match ReadLimited(stream, cfg.maxBodySize)
        case Err(f) => Err(f)
        case Ok(bytes) =>
          var details := ResponseDetails(status, FirstValues(header), BytesToText(bytes), p.url, req.verb);
          Ok(FetchReport("Response from " + p.url + " (status: " + IntToString(status) + "):\n", details))
  }

  // ---------------------------------------------------------------------
  // Properties

  /** A custom header set last under a name wins over the User-Agent, the
      Content-Type and any earlier custom header of the same name. */
  lemma CustomHeaderWins(cfg: FetchConfig, p: FetchParams, client: Client, decode: HeaderDecoder, i: nat)
    requires BuildFetchRequest(cfg, p, client, decode).Ok?
    requires i < |CustomHeaders(p, decode)|
    requires var entries := CustomHeaders(p, decode);
             forall j :: i < j < |entries| ==> CanonicalKey(entries[j].0) != CanonicalKey(entries[i].0)
    ensures var entries := CustomHeaders(p, decode);
            var h := BuildFetchRequest(cfg, p, client, decode).value.header;
            CanonicalKey(entries[i].0) in h && h[CanonicalKey(entries[i].0)] == entries[i].1
  {
    SetHeadersLastWriteWins(BaseHeader(cfg, p), CustomHeaders(p, decode), i);
  }

  /** Unless a custom header overrides it, User-Agent is the configured one. */
  lemma UserAgentFromConfig(cfg: FetchConfig, p: FetchParams, client: Client, decode: HeaderDecoder)
    requires BuildFetchRequest(cfg, p, client, decode).Ok?
    requires var entries := CustomHeaders(p, decode);
             forall j :: 0 <= j < |entries| ==> CanonicalKey(entries[j].0) != UserAgentKey
    ensures var h := BuildFetchRequest(cfg, p, client, decode).value.header;
            UserAgentKey in h && h[UserAgentKey] == cfg.userAgent
  {
    WellKnownKeysAreCanonical();
    var base := BaseHeader(cfg, p);
    assert UserAgentKey in base && base[UserAgentKey] == cfg.userAgent;
    SetHeadersKeepsUnwritten(base, CustomHeaders(p, decode), UserAgentKey);
  }

  /** Unless a custom header overrides it, Content-Type is the explicit
      one when given; otherwise application/json exactly when the body is
      non-empty and the method is literally POST, PUT or PATCH; otherwise
      absent. */
  lemma ContentTypeRule(cfg: FetchConfig, p: FetchParams, client: Client, decode: HeaderDecoder)
    requires BuildFetchRequest(cfg, p, client, decode).Ok?
    requires var entries := CustomHeaders(p, decode);
             forall j :: 0 <= j < |entries| ==> CanonicalKey(entries[j].0) != ContentTypeKey
    ensures var h := BuildFetchRequest(cfg, p, client, decode).value.header;
            var verb := BuildFetchRequest(cfg, p, client, decode).value.verb;
            && (ContentTypeKey in h <==>
                  p.contentType != "" || (p.body != "" && verb in {"POST", "PUT", "PATCH"}))
            && (p.contentType != "" ==> h[ContentTypeKey] == p.contentType)
            && (p.contentType == "" && ContentTypeKey in h ==> h[ContentTypeKey] == "application/json")
  {
    WellKnownKeysAreCanonical();
    var base := BaseHeader(cfg, p);
    assert ContentTypeKey in base <==> ContentTypeFor(p).Some?;
    assert ContentTypeFor(p).Some? ==> base[ContentTypeKey] == ContentTypeFor(p).value;
    SetHeadersKeepsUnwritten(base, CustomHeaders(p, decode), ContentTypeKey);
  }

  /** Apart from User-Agent and Content-Type, the request carries only the
      names the custom headers set. */
  lemma NoOtherHeaders(cfg: FetchConfig, p: FetchParams, client: Client, decode: HeaderDecoder, key: string)
    requires BuildFetchRequest(cfg, p, client, decode).Ok?
    requires key != UserAgentKey && key != ContentTypeKey
    requires var entries := CustomHeaders(p, decode);
             forall j :: 0 <= j < |entries| ==> CanonicalKey(entries[j].0) != key
    ensures key !in BuildFetchRequest(cfg, p, client, decode).value.header
  {
    WellKnownKeysAreCanonical();
    SetHeadersKeepsUnwritten(BaseHeader(cfg, p), CustomHeaders(p, decode), key);
  }

  /** Every response obtained is reported as success, whatever its status
      code, with that status, the first header values and the read body. */
  lemma AnyStatusIsReported(cfg: FetchConfig, p: FetchParams, client: Client, decode: HeaderDecoder)
    requires BuildFetchRequest(cfg, p, client, decode).Ok?
    requires client.send(BuildFetchRequest(cfg, p, client, decode).value).Received?
    requires var x := client.send(BuildFetchRequest(cfg, p, client, decode).value);
             ReadLimited(x.body, cfg.maxBodySize).Ok?
    ensures var x := client.send(BuildFetchRequest(cfg, p, client, decode).value);
            var r := HandleFetchUrl(cfg, p, client, decode);
            && r.Ok?
            && r.value.heading == "Response from " + p.url + " (status: " + IntToString(x.status) + "):\n"
            && r.value.details.statusCode == x.status
            && r.value.details.headers == FirstValues(x.header)
            && r.value.details.body == BytesToText(ReadLimited(x.body, cfg.maxBodySize).value)
  {
  }

  /** A request that cannot be built never reaches the network: the result
      is the same whatever the client would have answered. */
  lemma RejectedBeforeSending(cfg: FetchConfig, p: FetchParams, parsesUrl: string -> bool,
                              send1: HttpRequest -> Exchange, send2: HttpRequest -> Exchange, decode: HeaderDecoder)
    requires BuildFetchRequest(cfg, p, Client(parsesUrl, send1), decode).Err?
    ensures HandleFetchUrl(cfg, p, Client(parsesUrl, send1), decode).Err?
    ensures HandleFetchUrl(cfg, p, Client(parsesUrl, send1), decode)
         == HandleFetchUrl(cfg, p, Client(parsesUrl, send2), decode)
  {
  }
}
