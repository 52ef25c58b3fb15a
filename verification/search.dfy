/** The Google search server's two tools: getApiStatus, which reports which
    credential (if any) is missing, and searchGoogle, which gates on the
    credentials, validates and normalises the arguments, builds the Custom
    Search API query, accepts only an exact 200 answer and formats the
    results as text. */
module Search {
  import opened Text
  import opened Outcomes
  import opened Http

  /** Server-held configuration, fixed when the server is built. */
  datatype SearchConfig = SearchConfig(
    userAgent: string,
    maxBodySize: int,
    apiKey: string,
    searchEngineId: string)

  /** The decoded tool arguments. `num` and `start` are JSON numbers
      (float64); an absent argument is 0, "" or false. */
  datatype SearchParams = SearchParams(
    query: string,
    num: real,
    start: real,
    language: string,
    country: string,
    safeSearch: bool)

  /** One result as the handler keeps it. */
  datatype SearchItem = SearchItem(title: string, link: string, snippet: string, displayLink: string)

  /** The formatted counters of the API's `searchInformation` object. */
  datatype SearchInformation = SearchInformation(formattedTotalResults: string, formattedSearchTime: string)

  /** The parts of the API response the handler reads; absent `items` is
      the empty sequence. */
  datatype ApiResponse = ApiResponse(items: seq<SearchItem>, searchInformation: Option<SearchInformation>)

  /** JSON decoding of the response body; None when it is not valid. */
  type ResponseDecoder = seq<byte> -> Option<ApiResponse>

  const Endpoint := "https://www.googleapis.com/customsearch/v1"

  const ApiKeyMissingStatus :=
    "Error: API key is not configured. Please set the API_KEY environment variable or use the -api-key flag."
  const SearchEngineIdMissingStatus :=
    "Error: Search Engine ID is not configured. Please set the SEARCH_ENGINE_ID environment variable or use the -search-engine-id flag."
  const ReadyStatus := "Google Search API is properly configured and ready to use."

  // ---------------------------------------------------------------------
  // getApiStatus

  /** The getApiStatus text; this tool never fails. */
  function ApiStatus(cfg: SearchConfig): (msg: string)
    ensures msg in {ApiKeyMissingStatus, SearchEngineIdMissingStatus, ReadyStatus}
    ensures msg == ReadyStatus <==> cfg.apiKey != "" && cfg.searchEngineId != ""
    ensures msg == ApiKeyMissingStatus <==> cfg.apiKey == ""
  {
    if cfg.apiKey == "" then ApiKeyMissingStatus
    else if cfg.searchEngineId == "" then SearchEngineIdMissingStatus
    else ReadyStatus
  }

  // ---------------------------------------------------------------------
  // Argument normalisation

  /** Go's int(x) for a float64: truncation toward zero. */
  function Truncate(x: real): (n: int)
    ensures x >= 0.0 ==> n >= 0 && n as real <= x < n as real + 1.0
    ensures x < 0.0 ==> n <= 0 && n as real - 1.0 < x <= n as real
  {
    if x >= 0.0 then x.Floor else -((-x).Floor)
  }

  /** The `num` sent: 5 when not positive, 10 above 10, else truncated. */
  function EffectiveNum(num: real): (n: int)
    ensures 0 <= n <= 10
    ensures num <= 0.0 ==> n == 5
    ensures num > 10.0 ==> n == 10
    ensures 0.0 < num <= 10.0 ==> n as real <= num < n as real + 1.0
    ensures n == 0 <==> 0.0 < num < 1.0
  {
    var clamped := if num <= 0.0 then 5.0 else if num > 10.0 then 10.0 else num;
    Truncate(clamped)
  }

  /** The `start` sent: 1 when not positive, else truncated. */
  function EffectiveStart(start: real): (n: int)
    ensures n >= 0
    ensures start <= 0.0 ==> n == 1
    ensures start > 0.0 ==> n as real <= start < n as real + 1.0
    ensures n == 0 <==> 0.0 < start < 1.0
  {
    Truncate(if start <= 0.0 then 1.0 else start)
  }

  /** For whole-number arguments the count sent lies in 1..10, and a count
      already in range is sent unchanged. */
  lemma WholeNumClamped(k: int)
    ensures 1 <= EffectiveNum(k as real) <= 10
    ensures 1 <= k <= 10 ==> EffectiveNum(k as real) == k
    ensures 1 <= EffectiveStart(k as real)
    ensures k >= 1 ==> EffectiveStart(k as real) == k
  {
  }

  // ---------------------------------------------------------------------
  // Request construction

  /** The Custom Search query parameters. The handler calls url.Values.Add
      once per name on an empty set, so each name holds exactly the one
      value added under it. */
  function QueryValues(cfg: SearchConfig, p: SearchParams): (v: Values)
    ensures v.Keys == {"q", "key", "cx", "num", "start", "safe"}
                      + (if p.language != "" then {"lr"} else {})
                      + (if p.country != "" then {"gl"} else {})
    ensures v["q"] == [p.query] && v["key"] == [cfg.apiKey] && v["cx"] == [cfg.searchEngineId]
    ensures v["num"] == [IntToString(EffectiveNum(p.num))]
    ensures v["start"] == [IntToString(EffectiveStart(p.start))]
    ensures p.language != "" ==> v["lr"] == ["lang_" + p.language]
    ensures p.country != "" ==> v["gl"] == [p.country]
    ensures v["safe"] == [if p.safeSearch then "active" else "off"]
  {
    var v0 := map[]["q" := [p.query]]["key" := [cfg.apiKey]]["cx" := [cfg.searchEngineId]];
    var v1 := v0["num" := [IntToString(EffectiveNum(p.num))]]["start" := [IntToString(EffectiveStart(p.start))]];
    var v2 := if p.language != "" then v1["lr" := ["lang_" + p.language]] else v1;
    var v3 := if p.country != "" then v2["gl" := [p.country]] else v2;
    v3["safe" := [if p.safeSearch then "active" else "off"]]
  }

  /** Everything before the request is sent: the credential gate, then the
      query check, then the GET request to the endpoint. */
  function BuildSearchRequest(cfg: SearchConfig, p: SearchParams): (r: Result<HttpRequest>)
    ensures cfg.apiKey == "" ==> r == Err(MissingApiKey)
    ensures cfg.apiKey != "" && cfg.searchEngineId == "" ==> r == Err(MissingSearchEngineId)
    ensures cfg.apiKey != "" && cfg.searchEngineId != "" && p.query == "" ==> r == Err(EmptyQuery)
    ensures r.Ok? <==> cfg.apiKey != "" && cfg.searchEngineId != "" && p.query != ""
    ensures r.Ok? ==>
              && r.value.verb == "GET" && r.value.url == Endpoint && r.value.body.None?
              && r.value.query == QueryValues(cfg, p)
              && r.value.header == map[UserAgentKey := cfg.userAgent, AcceptKey := "application/json"]
  {
    if cfg.apiKey == "" then Err(MissingApiKey)
    else if cfg.searchEngineId == "" then Err(MissingSearchEngineId)
    else if p.query == "" then Err(EmptyQuery)
    else
      WellKnownKeysAreCanonical();
      var header := SetHeader(SetHeader(map[], UserAgentKey, cfg.userAgent), AcceptKey, "application/json");
      Ok(HttpRequest("GET", Endpoint, QueryValues(cfg, p), header, None))
  }

  // ---------------------------------------------------------------------
  // Result text

  /** The heading line, naming the query. */
  function Heading(query: string): string {
    "Google Search Results for: " + query + "\n\n"
  }

  /** The summary line; the counters are empty when the response has no
      searchInformation. */
  function Summary(info: Option<SearchInformation>): string {
    var total := if info.Some? then info.value.formattedTotalResults else "";
    var time := if info.Some? then info.value.formattedSearchTime else "";
    "Found approximately " + total + " results in " + time + " seconds\n\n"
  }

  /** The heading and summary lines. */
  function Intro(query: string, info: Option<SearchInformation>): string {
    Heading(query) + Summary(info)
  }

  /** The block for the result numbered `n`. */
  function Entry(n: int, item: SearchItem): string {
    IntToString(n) + ". " + item.title + "\n"
      + "   URL: " + item.link + "\n"
      + "   " + item.snippet + "\n\n"
  }

  /** The blocks for `items`, numbered from `first` on. */
  function Entries(items: seq<SearchItem>, first: int): string
    decreases |items|
  {
    if items == [] then "" else Entry(first, items[0]) + Entries(items[1..], first + 1)
  }

  /** The part after the summary: the numbered entries, or the notice
      that there are none. */
  function ResultList(items: seq<SearchItem>): string {
    if |items| == 0 then "No results found." else Entries(items, 1)
  }

  /** The success text for a decoded response. */
  function FormatResults(query: string, resp: ApiResponse): (text: string)
    ensures HasPrefix(text, Heading(query))
    ensures HasPrefix(text, Intro(query, resp.searchInformation))
    ensures |resp.items| == 0 ==> text == Intro(query, resp.searchInformation) + "No results found."
    ensures |resp.items| > 0 ==> text == Intro(query, resp.searchInformation) + Entries(resp.items, 1)
  {
    var heading, summary, list := Heading(query), Summary(resp.searchInformation), ResultList(resp.items);
    ConcatAssoc(heading, summary, list);
    PrefixOfConcat(heading, summary + list);
    PrefixOfConcat(heading + summary, list);
    heading + summary + list
  }

  // ---------------------------------------------------------------------
  // The handler

  /** The response half of the handler: the body is read within the size
      cap, and only an exact 200 status is turned into result text; any
      other status is an error carrying the body read and the status. */
  function SearchResponse(cfg: SearchConfig, query: string, x: Exchange, decode: ResponseDecoder): (r: Result<string>)
    ensures r.Ok? ==> x.Received? && x.status == 200
    ensures r.Ok? ==> HasPrefix(r.value, Heading(query))
    ensures x.TransportError? ==> r == Err(RequestFailed)
    ensures x.Received? && ReadLimited(x.body, cfg.maxBodySize).Err? ==> r == Err(ReadFailure)
    ensures x.Received? && x.status != 200 && ReadLimited(x.body, cfg.maxBodySize).Ok? ==>
              r == Err(UpstreamError(BytesToText(ReadLimited(x.body, cfg.maxBodySize).value), x.status))
    ensures x.Received? && x.status == 200 && ReadLimited(x.body, cfg.maxBodySize).Ok? ==>
              var decoded := decode(ReadLimited(x.body, cfg.maxBodySize).value);
              && (decoded.None? ==> r == Err(InvalidApiResponse))
              && (decoded.Some? ==> r == Ok(FormatResults(query, decoded.value)))
  {
    match x
    case TransportError => Err(RequestFailed)
    case Received(status, _, stream) =>
      match ReadLimited(stream, cfg.maxBodySize)
      case Err(f) => Err(f)
      case Ok(bytes) =>
        if status != 200 then Err(UpstreamError(BytesToText(bytes), status))
        else match decode(bytes)
          case None => Err(InvalidApiResponse)
          case Some(resp) => Ok(FormatResults(query, resp))
  }

  /** The searchGoogle handler. */
  function HandleSearch(cfg: SearchConfig, p: SearchParams, client: Client, decode: ResponseDecoder): (r: Result<string>)
    ensures BuildSearchRequest(cfg, p).Err? ==> r == Err(BuildSearchRequest(cfg, p).failure)
    ensures BuildSearchRequest(cfg, p).Ok? ==>
              r == SearchResponse(cfg, p.query, client.send(BuildSearchRequest(cfg, p).value), decode)
    ensures r.Ok? ==>
              && BuildSearchRequest(cfg, p).Ok?
              && client.send(BuildSearchRequest(cfg, p).value).Received?
              && client.send(BuildSearchRequest(cfg, p).value).status == 200
  {
    match BuildSearchRequest(cfg, p)
    case Err(f) => Err(f)
    case Ok(req) => SearchResponse(cfg, p.query, client.send(req), decode)
  }

  // ---------------------------------------------------------------------
  // Properties

  /** getApiStatus and the search handler's gate agree: the status names
      the same missing credential the search fails on, and reports ready
      exactly when the gate lets every search through to the query check. */
  lemma StatusAgreesWithGate(cfg: SearchConfig, p: SearchParams)
    ensures ApiStatus(cfg) == ApiKeyMissingStatus <==> BuildSearchRequest(cfg, p) == Err(MissingApiKey)
    ensures ApiStatus(cfg) == SearchEngineIdMissingStatus <==> BuildSearchRequest(cfg, p) == Err(MissingSearchEngineId)
    ensures ApiStatus(cfg) == ReadyStatus <==>
              (BuildSearchRequest(cfg, p).Ok? || BuildSearchRequest(cfg, p) == Err(EmptyQuery))
  {
  }

  /** The `num` and `start` parameters read back as the normalised count
      and start index. */
  lemma NumParameterReadsBack(cfg: SearchConfig, p: SearchParams)
    ensures IsDecimal(QueryValues(cfg, p)["num"][0])
    ensures IsDecimal(QueryValues(cfg, p)["start"][0])
    ensures DecimalValue(QueryValues(cfg, p)["num"][0]) == EffectiveNum(p.num)
    ensures DecimalValue(QueryValues(cfg, p)["start"][0]) == EffectiveStart(p.start)
  {
    IntToStringRoundTrip(EffectiveNum(p.num));
    IntToStringRoundTrip(EffectiveStart(p.start));
  }

  /** Any status other than exactly 200 yields the upstream error with the
      body read (within the cap) and that status, never result text. */
  lemma Non200IsUpstreamError(cfg: SearchConfig, p: SearchParams, client: Client, decode: ResponseDecoder)
    requires BuildSearchRequest(cfg, p).Ok?
    requires var x := client.send(BuildSearchRequest(cfg, p).value);
             x.Received? && x.status != 200 && ReadLimited(x.body, cfg.maxBodySize).Ok?
    ensures var x := client.send(BuildSearchRequest(cfg, p).value);
            var body := ReadLimited(x.body, cfg.maxBodySize).value;
            && HandleSearch(cfg, p, client, decode) == Err(UpstreamError(BytesToText(body), x.status))
            && |body| <= if cfg.maxBodySize < 0 then 0 else cfg.maxBodySize
  {
  }

  /** A built search whose 200 response is read and decoded succeeds with
      the formatted text of that decoded response. */
  lemma SearchSuccessIsFormatted(cfg: SearchConfig, p: SearchParams, client: Client, decode: ResponseDecoder)
    requires BuildSearchRequest(cfg, p).Ok?
    requires var x := client.send(BuildSearchRequest(cfg, p).value);
             && x.Received? && x.status == 200
             && ReadLimited(x.body, cfg.maxBodySize).Ok?
             && decode(ReadLimited(x.body, cfg.maxBodySize).value).Some?
    ensures var x := client.send(BuildSearchRequest(cfg, p).value);
            var resp := decode(ReadLimited(x.body, cfg.maxBodySize).value).value;
            HandleSearch(cfg, p, client, decode) == Ok(FormatResults(p.query, resp))
  {
  }

  /** A search stopped by the credential gate or the query check never
      reaches the network: the result is the same whatever the client
      would have answered. */
  lemma RejectedBeforeSending(cfg: SearchConfig, p: SearchParams, c1: Client, c2: Client, decode: ResponseDecoder)
    requires cfg.apiKey == "" || cfg.searchEngineId == "" || p.query == ""
    ensures HandleSearch(cfg, p, c1, decode).Err?
    ensures HandleSearch(cfg, p, c1, decode) == HandleSearch(cfg, p, c2, decode)
  {
  }

  lemma {:induction false} EntriesEndWithBlankLine(items: seq<SearchItem>, first: int)
    requires |items| > 0
    ensures var e := Entries(items, first); |e| >= 2 && e[|e| - 1] == '\n'
    decreases |items|
  {
    var head := Entry(first, items[0]);
    var rest := Entries(items[1..], first + 1);
    if |items| > 1 {
      EntriesEndWithBlankLine(items[1..], first + 1);
    }
    assert Entries(items, first) == head + rest;
    assert head[|head| - 1] == '\n';
  }

  /** The text ends with exactly "No results found." when and only when
      the response has no items. */
  lemma NoResultsIffEmpty(query: string, resp: ApiResponse)
    ensures HasSuffix(FormatResults(query, resp), "No results found.") <==> |resp.items| == 0
  {
    var text := FormatResults(query, resp);
    var intro := Intro(query, resp.searchInformation);
    if |resp.items| == 0 {
      assert text == intro + "No results found.";
      assert text[|text| - 17..] == "No results found.";
    } else {
      var e := Entries(resp.items, 1);
      EntriesEndWithBlankLine(resp.items, 1);
      assert text == intro + e;
      assert text[|text| - 1] == '\n';
      if HasSuffix(text, "No results found.") {
        assert false;
      }
    }
  }

  /** The blocks for a non-empty list: the first item's block, then the
      rest numbered from the next number. */
  lemma EntriesCons(item: SearchItem, rest: seq<SearchItem>, first: int)
    ensures Entries([item] + rest, first) == Entry(first, item) + Entries(rest, first + 1)
  {
    assert ([item] + rest)[1..] == rest;
  }

  /** Rendering a concatenation renders each part, the second part's
      numbering continuing where the first part's ends. */
  lemma {:induction false} EntriesAppend(a: seq<SearchItem>, b: seq<SearchItem>, first: int)
    ensures Entries(a + b, first) == Entries(a, first) + Entries(b, first + |a|)
    decreases |a|
  {
    if a == [] {
      assert a + b == b;
    } else {
      var rest := a[1..];
      assert a == [a[0]] + rest;
      assert a + b == [a[0]] + (rest + b);
      EntriesCons(a[0], rest + b, first);
      EntriesAppend(rest, b, first + 1);
      EntriesCons(a[0], rest, first);
      ConcatAssoc(Entry(first, a[0]), Entries(rest, first + 1), Entries(b, first + |a|));
    }
  }

  /** Entries keep upstream order and numbering: the item at index `i` is
      rendered as entry `first + i`, after the entries of the items before
      it and before those of the items after it. */
  lemma EntriesInOrder(items: seq<SearchItem>, first: int, i: nat)
    requires i < |items|
    ensures Entries(items, first)
         == Entries(items[..i], first) + Entry(first + i, items[i]) + Entries(items[i + 1..], first + i + 1)
  {
    var before, after := items[..i], items[i + 1..];
    var tail := [items[i]] + after;
    assert items == before + tail;
    EntriesAppend(before, tail, first);
    EntriesCons(items[i], after, first + i);
    ConcatAssoc(Entries(before, first), Entry(first + i, items[i]), Entries(after, first + i + 1));
  }

  /** In the text of a response with items, the item at index `i` appears
      as entry number `i + 1`, in upstream order, right after the intro and
      the entries before it. */
  lemma ResultNumbering(query: string, resp: ApiResponse, i: nat)
    requires i < |resp.items|
    ensures FormatResults(query, resp)
         == Intro(query, resp.searchInformation)
            + Entries(resp.items[..i], 1) + Entry(i + 1, resp.items[i]) + Entries(resp.items[i + 1..], i + 2)
  {
    var intro := Intro(query, resp.searchInformation);
    var a, b, c := Entries(resp.items[..i], 1), Entry(i + 1, resp.items[i]), Entries(resp.items[i + 1..], i + 2);
    assert FormatResults(query, resp) == intro + Entries(resp.items, 1) by {
      assert ResultList(resp.items) == Entries(resp.items, 1);
    }
    EntriesInOrder(resp.items, 1, i);
    ConcatAssoc(intro, a + b, c);
    ConcatAssoc(intro, a, b);
  }
}
