# mcphost tool servers: the handlers' logic in Dafny

This project models the request-handling logic of three MCP tool servers
that ship with mcphost:

- **googlesearch**
  - `getApiStatus` reports which credential is missing.
  - `searchGoogle` does the following, in order:
    - checks the credential gate;
    - rejects an empty query;
    - normalises `num` and `start`;
    - builds the Custom Search query parameters and the GET request;
    - reads the response body within a size cap;
    - accepts only status 200;
    - formats the numbered result list.
- **fetch**
  - `fetchURL` checks the URL scheme and defaults the method to GET.
  - It attaches the body and sets User-Agent, Content-Type and custom headers, using Go's `Header.Set` with canonical key case.
  - It sends the request and reads a bounded body.
  - It reports the response whatever its status code, with the first value of each response header.
- **timeserver**
  - `convertTimeToTimezone` resolves the zone (requested, else the default) and checks it before the timestamp.
  - It converts "now" or the parsed RFC 3339 instant into that zone. Every failure is the all-or-nothing triple.
  - `getCurrentTime` picks "Current time" or "Converted time".

Modules, one file each:

- `Text` (text.dfy): prefix and suffix tests, and `strconv.Itoa` / `%d` rendering. A decimal reader is its inverse.
- `Outcomes` (outcomes.dfy): `Option`, the handlers' failure taxonomy with its error texts, and `Result`.
- `Http` (http.dfy): what the handlers use from net/http, namely:
  - header key canonicalisation and `Header.Set`;
  - `io.LimitReader` reads;
  - response header flattening;
  - requests, and a client given as parameters.
- `Fetch` (fetch.dfy), `Search` (search.dfy) and `TimeServer` (timeserver.dfy): the handlers.

The environment is passed in as plain function parameters:

- URL parsing and the outcome of `client.Do`;
- the JSON decoders;
- the tz database, the clock, and RFC 3339 parsing and rendering.

Every property is proved for every behaviour of these parameters, except where a lemma names an assumption about them in its precondition. Other preconditions only select the case a lemma is about, for example a particular client answer or decoder output. The only assumption that constrains how the environment behaves in general is `TimeServer.RendersToSecond`: rendering a time and parsing the text back gives the instant truncated to the whole second.

## Model

| member | source | states |
|---|---|---|
| Search.ApiStatus | cmd/mcp/servers/googlesearch/main.go:143-150 | The status is one of the three fixed texts. It is "ready" exactly when both credentials are set. It names the API key exactly when the key is missing, whatever the engine id. |
| Search.StatusAgreesWithGate | cmd/mcp/servers/googlesearch/main.go:143-174 | getApiStatus and the search gate agree. Each missing-credential status corresponds exactly to the search failing on that credential. "ready" corresponds exactly to the search passing the gate (it then either builds a request or stops at the query check). |
| Search.Truncate | cmd/mcp/servers/googlesearch/main.go:224-225 | Go's `int(float64)` truncates toward zero. A non-negative x gives the greatest integer n with n ≤ x, and a negative x gives the least integer n with x ≤ n. |
| Search.EffectiveNum | cmd/mcp/servers/googlesearch/main.go:208-212 | A `num` of zero or less becomes 5 and one above 10 becomes 10. Otherwise `num` is truncated toward zero. The result lies in 0..10, and it is 0 exactly when `num` lies strictly between 0 and 1. |
| Search.EffectiveStart | cmd/mcp/servers/googlesearch/main.go:214-216 | A `start` of zero or less becomes 1. Otherwise `start` is truncated toward zero. The result is 0 exactly when `start` lies strictly between 0 and 1. |
| Search.WholeNumClamped | cmd/mcp/servers/googlesearch/main.go:208-216 | For whole-number arguments, the count sent is in 1..10 and an in-range count is kept. The start sent is at least 1, and a positive start is kept. |
| Search.QueryValues | cmd/mcp/servers/googlesearch/main.go:219-239 | The parameter names are exactly q, key, cx, num, start and safe. `lr` is added only for a non-empty language and `gl` only for a non-empty country. The contract also gives each parameter's value: the query verbatim, the credentials, the decimal normalised num and start, "lang_" + language, the country, and active/off for safe. |
| Search.NumParameterReadsBack | cmd/mcp/servers/googlesearch/main.go:224-225 | The num and start parameter texts are well-formed decimals that read back as the normalised values. |
| Search.BuildSearchRequest | cmd/mcp/servers/googlesearch/main.go:169-252 | A missing API key, then a missing engine id, then an empty query is each reported with its own error, in that order. Otherwise the request is always built: a GET to the Custom Search endpoint with no body, the modelled parameters, and exactly the User-Agent and Accept: application/json headers. |
| Search.SearchResponse | cmd/mcp/servers/googlesearch/main.go:256-316 | The contract covers every outcome. A transport failure is the request error, and a failed read is the read error. A non-200 status whose body was read gives the upstream error carrying the body read and the status. A 200 whose body does not decode is the parse error. A 200 whose body decodes gives exactly the formatted text of the decoded response. Only a 200 yields text. |
| Search.HandleSearch | cmd/mcp/servers/googlesearch/main.go:165-329 | A build failure is the handler's failure. For a built request, the result is the response outcome for the client's answer to it, with every case (transport, read, non-200, undecodable, formatted) as SearchResponse states. A success implies the request was built and sent, and that the response status was exactly 200. |
| Search.SearchSuccessIsFormatted | cmd/mcp/servers/googlesearch/main.go:270-328 | A built search whose response has status 200 and whose body is read and decoded returns exactly the formatted text of that decoded response. |
| Search.Non200IsUpstreamError | cmd/mcp/servers/googlesearch/main.go:264-273 | For a built and sent search, every non-200 status gives the API error with the status and the body. The body is read within the cap, so it is never longer than maxBodySize. |
| Search.RejectedBeforeSending | cmd/mcp/servers/googlesearch/main.go:169-205 | A search with a missing credential or an empty query fails, and it gives the same result whatever the client would answer, so nothing is sent. |
| Search.FormatResults | cmd/mcp/servers/googlesearch/main.go:304-316 | The text starts with the heading that names the query, followed by the summary line. The summary's counters come from searchInformation, or are empty when it is absent. With no items, the summary is followed by exactly "No results found." Otherwise it is followed by exactly the numbered entries. |
| Search.NoResultsIffEmpty | cmd/mcp/servers/googlesearch/main.go:308-316 | The text ends with "No results found." if and only if the response has no items. |
| Search.EntriesInOrder | cmd/mcp/servers/googlesearch/main.go:311-315 | The item at index i is rendered as entry number first+i. It comes after the entries of all earlier items and before those of all later items. |
| Search.ResultNumbering | cmd/mcp/servers/googlesearch/main.go:283-316 | In the result text, item i of the upstream response appears as entry i+1, in upstream order, right after the heading and summary and the entries before it. |
| Fetch.BuildFetchRequest | cmd/mcp/servers/fetch/main.go:105-152 | A URL without an http:// or https:// prefix is rejected first. A request is built exactly when the URL is accepted, the method is a valid token that the client can use for this URL, and a non-empty headers argument decodes. A request that cannot be created (the method is not a token, or the URL does not parse) gives the create-request error, and this is checked before the headers. Undecodable headers give the invalid-headers error. The method defaults to GET. The URL is kept, and a body is attached exactly when the body argument is non-empty. |
| Fetch.UserAgentFromConfig | cmd/mcp/servers/fetch/main.go:131 | Unless a custom header of the same canonical name overrides it, the request's User-Agent is the configured one. |
| Fetch.ContentTypeRule | cmd/mcp/servers/fetch/main.go:133-139 | Unless overridden by a custom header, Content-Type is the explicit value when one is given. Otherwise it is application/json exactly when the body is non-empty and the method is literally POST, PUT or PATCH. Otherwise it is absent. |
| Fetch.CustomHeaderWins | cmd/mcp/servers/fetch/main.go:141-152 | The last custom header set under a canonical name wins. It overrides User-Agent, Content-Type and earlier custom headers of that name. |
| Fetch.NoOtherHeaders | cmd/mcp/servers/fetch/main.go:130-152 | Apart from User-Agent and Content-Type, the request carries only the names the custom headers set. |
| Fetch.HandleFetchUrl | cmd/mcp/servers/fetch/main.go:80-214 | A build failure is the handler's failure. For a built request, a transport failure is the request error and a failed read is the read error. Success requires a built and sent request. The report carries the requested URL and the method used, its heading starts with "Response from <url> (status: ", and the body never exceeds the size cap. |
| Fetch.AnyStatusIsReported | cmd/mcp/servers/fetch/main.go:156-201 | Every response received and read is a success, whatever its status code. The report carries that status in the heading and the record, together with the first header values and the body read. |
| Fetch.RejectedBeforeSending | cmd/mcp/servers/fetch/main.go:105-152 | A request that cannot be built fails, and it gives the same result whatever the client would answer. |
| Http.ReadLimited | cmd/mcp/servers/fetch/main.go:164-168 | At most `limit` bytes are read. Hitting the limit truncates silently. A read error is reported exactly when the stream fails before the limit is reached. The body read is always a prefix of the stream, and it is the whole stream when that fits. |
| Http.FirstValues | cmd/mcp/servers/fetch/main.go:170-176 | The flattened map holds exactly the fields with at least one value, each mapped to its first value. |
| Http.FirstValuesOfSingletons | cmd/mcp/servers/fetch/main.go:170-176 | Flattening a header whose fields carry one value each returns that header unchanged. |
| Http.SetHeader | cmd/mcp/servers/fetch/main.go:131 | Header.Set writes the value under the canonical key and leaves every other key as it was. |
| Http.CanonicalKeyIgnoresCase | cmd/mcp/servers/fetch/main.go:149-151 | Two token header names map to the same canonical key if and only if they are equal up to ASCII case. |
| Http.SetHeadersLastWriteWins | cmd/mcp/servers/fetch/main.go:149-151 | After a run of Header.Set calls, a name holds the value of the last entry written under its canonical key. |
| Http.SetHeadersKeepsUnwritten | cmd/mcp/servers/fetch/main.go:149-151 | A key that no entry writes keeps its earlier presence and value. |
| Http.WellKnownKeyIsCanonical | cmd/mcp/servers/fetch/main.go:131-138 | Each of "User-Agent", "Content-Type" and "Accept" is a token already in canonical case, so Header.Set stores it as written. |
| Text.IntToStringRoundTrip | cmd/mcp/servers/googlesearch/main.go:224-225 | The decimal text of any integer is well formed and reads back as that integer. |
| Text.IntToStringInjective | cmd/mcp/servers/fetch/main.go:201 | Distinct status codes render as distinct texts. |
| TimeServer.ResolveTimezone | cmd/mcp/servers/timeserver/main.go:61-65 | The requested zone is used when it is given. Otherwise the server default is used. |
| TimeServer.ConvertTimeToTimezone | cmd/mcp/servers/timeserver/main.go:59-91 | An error occurs exactly when the zone is unknown, or when a timestamp is given and does not parse. Every error returns "" and the zero time. An unknown zone is the reported error even when the timestamp is also bad. On success the resolved zone name is returned, together with the same instant as "now" or as the parsed timestamp, expressed in that zone. |
| TimeServer.ZoneCheckedFirst | cmd/mcp/servers/timeserver/main.go:67-71 | An unknown zone gives the same zone error whatever the timestamp, parser or clock. |
| TimeServer.ReconvertingIsStable | cmd/mcp/servers/timeserver/main.go:75-90 | Assume the rendered time parses back to its instant truncated to the second, as RFC 3339 rendering does. Converting the rendered result again to the same zone then succeeds, keeps the zone name and location, and drops only the sub-second part of the instant. For a whole-second instant the result is the same conversion. |
| TimeServer.ConversionsCompose | cmd/mcp/servers/timeserver/main.go:75-90 | Under the same rendering assumption, converting a result (of a given timestamp or of "now") into a second zone gives the same zone and location as converting the original timestamp there directly. The instant matches up to its sub-second part, and the two results are equal when the instant is a whole second. |
| TimeServer.HandleGetCurrentTime | cmd/mcp/servers/timeserver/main.go:113-125 | The handler fails exactly when the conversion fails, with the conversion's error. The text starts with "Current time (" exactly when no timestamp was given and with "Converted time (" otherwise. It ends with the zone, "): " and the rendered time, and it has exactly the length of the prefix plus that ending, so nothing else appears between them. |

The model follows the handler code wherever the tool schema's defaults and descriptions (cmd/mcp/servers/googlesearch/main.go:99-124) suggest otherwise:

- A `num` or `start` strictly between 0 and 1 is sent as 0. The `start` description says indices start at 1 (cmd/mcp/servers/googlesearch/main.go:110), and `num` defaults to 5, yet neither value is raised to 1.
- An absent `safeSearch` means "off", not the schema's default of true.
- An empty language or country is omitted, rather than replaced by the schema defaults "en" and "us".

## Left out

- Server construction, flags, environment variables, logging and tool registration (including schema defaults) are outside the handlers' logic.
- The "failed to marshal arguments" and "invalid parameters" errors are left out. They come from re-decoding the MCP arguments as JSON, and the model starts from the decoded parameters.
- JSON decoding of the fetch `headers` argument and of the Custom Search response is a decoder parameter. The decoder returns the header entries in Go's map iteration order, which is unspecified. `json.MarshalIndent` of the fetch record is left out: the report carries the record itself.
- `url.Values.Encode` (percent-encoding and sorting by key) is left out. The request carries the parameter map before encoding.
- The search handler's "failed to create request" branch is left out. Its method is the literal GET and its URL is the fixed endpoint plus an encoded query, so `http.NewRequestWithContext` cannot reject it.
- Go strings are byte strings; the model's strings are sequences of characters. Response bodies are turned into text one byte to one character (`Http.BytesToText`), so a multi-byte UTF-8 body is not decoded. No property depends on this: the size cap counts bytes, and every prefix and token test uses ASCII.
- Contexts, client timeouts, redirects and closing the body are not modelled. `client.Do` is a parameter that answers with a transport error or a response.
- Error values keep their fixed text. The wrapped library cause (`%w`) is not modelled.
- Go's float64 arithmetic and int64 width are not modelled: `num` and `start` are exact reals, and the integers are unbounded. A `start` beyond the int64 range is therefore not modelled.
- The tz database (`time.LoadLocation`, including its treatment of "" and "Local"), the clock, and RFC 3339 parsing and rendering are parameters of `TimeEnv`.
- TimeServer.ReconvertingIsStable: applies only to times whose rendering parses back to the instant truncated to the second (`RendersToSecond`). Go's RFC 3339 text does not meet this for years outside 0000-9999, or for historical zone offsets that include seconds.
- TimeServer.ConversionsCompose: depends on the same `RendersToSecond` assumption, for the same reason.
- Http.CanonicalKeyIgnoresCase: covers token header names only. Go keeps non-token names verbatim, so those names are case-sensitive in `Header.Set`, and the model's CanonicalKey does the same.
