/** The HTTP vocabulary the fetch and search handlers share: request and
    response header maps, the bounded body reader, and the abstract client
    that stands in for net/http. */
module Http {
  import opened Outcomes

  newtype byte = x: int | 0 <= x < 256

  /** Go's `string(b)`: a Go string is the byte sequence itself, so each
      byte becomes the character with the same code. */
  function BytesToText(b: seq<byte>): (t: string)
    ensures |t| == |b|
    ensures forall i :: 0 <= i < |b| ==> t[i] as int == b[i] as int
  {
    seq(|b|, i requires 0 <= i < |b| => b[i] as int as char)
  }

  // ---------------------------------------------------------------------
  // Header field names

  /** The characters allowed in an HTTP field name (a `token`). */
  predicate IsTokenChar(c: char) {
    || 'a' <= c <= 'z'
    || 'A' <= c <= 'Z'
    || '0' <= c <= '9'
    || c == '!' || c == '#' || c == '$' || c == '%' || c == '&' || c == '\''
    || c == '*' || c == '+' || c == '-' || c == '.' || c == '^' || c == '_'
    || c == '`' || c == '|' || c == '~'
  }

  predicate IsToken(s: string) {
    forall i :: 0 <= i < |s| ==> IsTokenChar(s[i])
  }

  function ToUpperAscii(c: char): char {
    if 'a' <= c <= 'z' then (c as int - 32) as char else c
  }

  function ToLowerAscii(c: char): char {
    if 'A' <= c <= 'Z' then (c as int + 32) as char else c
  }

  /** Two names that differ at most in ASCII letter case. */
  predicate EqualFold(a: string, b: string) {
    |a| == |b| && forall i :: 0 <= i < |a| ==> ToLowerAscii(a[i]) == ToLowerAscii(b[i])
  }

  /** Canonical case from `s` on: a letter is upper-cased at the start and
      after '-', lower-cased elsewhere. */
  function CanonicalFrom(s: string, upper: bool): (r: string)
    ensures |r| == |s|
    decreases |s|
  {
    if s == [] then []
    else
      var c := if upper then ToUpperAscii(s[0]) else ToLowerAscii(s[0]);
      [c] + CanonicalFrom(s[1..], c == '-')
  }

  /** The key under which Header.Set stores a field (net/textproto's
      canonical MIME header key): a token gets canonical case, any other
      string is kept as it is. */
  function CanonicalKey(key: string): string {
    if IsToken(key) then CanonicalFrom(key, true) else key
  }

  lemma FoldAgrees(x: char, y: char)
    ensures ToUpperAscii(x) == ToUpperAscii(y) <==> ToLowerAscii(x) == ToLowerAscii(y)
  {
  }

  lemma {:induction false} CanonicalFromRespectsFold(a: string, b: string, upper: bool)
    requires |a| == |b|
    ensures CanonicalFrom(a, upper) == CanonicalFrom(b, upper) <==> EqualFold(a, b)
    decreases |a|
  {
    if a != [] {
      var ca := if upper then ToUpperAscii(a[0]) else ToLowerAscii(a[0]);
      var cb := if upper then ToUpperAscii(b[0]) else ToLowerAscii(b[0]);
      var ra := CanonicalFrom(a[1..], ca == '-');
      var rb := CanonicalFrom(b[1..], cb == '-');
      assert CanonicalFrom(a, upper) == [ca] + ra;
      assert CanonicalFrom(b, upper) == [cb] + rb;
      FoldAgrees(a[0], b[0]);
      if EqualFold(a, b) {
        assert ca == cb;
        assert EqualFold(a[1..], b[1..]) by {
          forall i | 0 <= i < |a| - 1
            ensures ToLowerAscii(a[1..][i]) == ToLowerAscii(b[1..][i])
          {
            assert a[1..][i] == a[i + 1] && b[1..][i] == b[i + 1];
          }
        }
        CanonicalFromRespectsFold(a[1..], b[1..], ca == '-');
      }
      if CanonicalFrom(a, upper) == CanonicalFrom(b, upper) {
        assert ([ca] + ra)[0] == ca && ([cb] + rb)[0] == cb;
        assert ca == cb;
        assert ra == ([ca] + ra)[1..] && rb == ([cb] + rb)[1..];
        CanonicalFromRespectsFold(a[1..], b[1..], ca == '-');
        forall i | 0 <= i < |a|
          ensures ToLowerAscii(a[i]) == ToLowerAscii(b[i])
        {
          if i > 0 {
            assert a[i] == a[1..][i - 1] && b[i] == b[1..][i - 1];
          }
        }
      }
    }
  }

  /** Field names are matched case-insensitively (section 5.1 of RFC 9110):
      two token names share a header slot exactly when they differ only in
      letter case. */
  lemma CanonicalKeyIgnoresCase(a: string, b: string)
    requires IsToken(a) && IsToken(b)
    ensures CanonicalKey(a) == CanonicalKey(b) <==> EqualFold(a, b)
  {
    if |a| == |b| {
      CanonicalFromRespectsFold(a, b, true);
    }
  }

  /** Whether letter case at index `i` follows the canonical rule: upper
      at the start (when `upper`) and after '-', lower elsewhere. */
  predicate UpperAt(s: string, upper: bool, i: int)
    requires 0 <= i < |s|
  {
    if i == 0 then upper else s[i - 1] == '-'
  }

  predicate InCanonicalCase(s: string, upper: bool) {
    forall i :: 0 <= i < |s| ==>
      if UpperAt(s, upper, i) then !('a' <= s[i] <= 'z') else !('A' <= s[i] <= 'Z')
  }

  /** A name already in canonical case is left as it is. */
  lemma {:induction false} CanonicalFromFixes(s: string, upper: bool)
    requires InCanonicalCase(s, upper)
    ensures CanonicalFrom(s, upper) == s
    decreases |s|
  {
    if s != [] {
      var c := if upper then ToUpperAscii(s[0]) else ToLowerAscii(s[0]);
      assert c == s[0];
      forall i | 0 <= i < |s| - 1
        ensures if UpperAt(s[1..], c == '-', i) then !('a' <= s[1..][i] <= 'z') else !('A' <= s[1..][i] <= 'Z')
      {
        assert UpperAt(s[1..], c == '-', i) == UpperAt(s, upper, i + 1);
        assert s[1..][i] == s[i + 1];
      }
      CanonicalFromFixes(s[1..], c == '-');
    }
  }

  const UserAgentKey := "User-Agent"
  const ContentTypeKey := "Content-Type"
  const AcceptKey := "Accept"

  /** Each name the handlers set themselves is a token already in
      canonical case, so Header.Set stores it as written. */
  lemma WellKnownKeyIsCanonical(k: string)
    requires k in {UserAgentKey, ContentTypeKey, AcceptKey}
    ensures CanonicalKey(k) == k
  {
    forall i | 0 <= i < |k|
      ensures IsTokenChar(k[i])
      ensures if UpperAt(k, true, i) then !('a' <= k[i] <= 'z') else !('A' <= k[i] <= 'Z')
    {}
    CanonicalFromFixes(k, true);
  }

  lemma WellKnownKeysAreCanonical()
    ensures CanonicalKey(UserAgentKey) == UserAgentKey
    ensures CanonicalKey(ContentTypeKey) == ContentTypeKey
    ensures CanonicalKey(AcceptKey) == AcceptKey
  {
    WellKnownKeyIsCanonical(UserAgentKey);
    WellKnownKeyIsCanonical(ContentTypeKey);
    WellKnownKeyIsCanonical(AcceptKey);
  }

  // ---------------------------------------------------------------------
  // Request headers

  /** Request headers as Header.Set leaves them: one value per canonical key. */
  type Header = map<string, string>

  /** Go's Header.Set: replace whatever the canonical key held. */
  function SetHeader(h: Header, key: string, value: string): (r: Header)
    ensures r.Keys == h.Keys + {CanonicalKey(key)}
    ensures r[CanonicalKey(key)] == value
    ensures forall k :: k in h && k != CanonicalKey(key) ==> r[k] == h[k]
  {
    h[CanonicalKey(key) := value]
  }

  /** Header.Set applied to each entry in turn, first entry first. */
  function SetHeaders(h: Header, entries: seq<(string, string)>): Header
    decreases |entries|
  {
    if entries == [] then h
    else
      var last := entries[|entries| - 1];
      SetHeader(SetHeaders(h, entries[..|entries| - 1]), last.0, last.1)
  }

  /** The last entry written under a canonical key is the value that stays,
      whatever was there before. */
  lemma {:induction false} SetHeadersLastWriteWins(h: Header, entries: seq<(string, string)>, i: nat)
    requires i < |entries|
    requires forall j :: i < j < |entries| ==> CanonicalKey(entries[j].0) != CanonicalKey(entries[i].0)
    ensures CanonicalKey(entries[i].0) in SetHeaders(h, entries)
    ensures SetHeaders(h, entries)[CanonicalKey(entries[i].0)] == entries[i].1
    decreases |entries|
  {
    var n := |entries|;
    if i < n - 1 {
      var front := entries[..n - 1];
      assert front[i] == entries[i];
      forall j | i < j < |front|
        ensures CanonicalKey(front[j].0) != CanonicalKey(front[i].0)
      {
        assert front[j] == entries[j];
      }
      SetHeadersLastWriteWins(h, front, i);
    }
  }

  /** A key no entry writes keeps its earlier presence and value. */
  lemma {:induction false} SetHeadersKeepsUnwritten(h: Header, entries: seq<(string, string)>, key: string)
    requires forall j :: 0 <= j < |entries| ==> CanonicalKey(entries[j].0) != key
    ensures key in SetHeaders(h, entries) <==> key in h
    ensures key in h ==> SetHeaders(h, entries)[key] == h[key]
    decreases |entries|
  {
    if entries != [] {
      var front := entries[..|entries| - 1];
      forall j | 0 <= j < |front|
        ensures CanonicalKey(front[j].0) != key
      {
        assert front[j] == entries[j];
      }
      SetHeadersKeepsUnwritten(h, front, key);
    }
  }

  // ---------------------------------------------------------------------
  // Responses

  /** Response headers as received: every field with its list of values. */
  type ResponseHeader = map<string, seq<string>>

  /** The first value of each response field that has one. */
  function FirstValues(h: ResponseHeader): (r: map<string, string>)
    ensures forall k :: k in r <==> k in h && |h[k]| > 0
    ensures forall k :: k in r ==> r[k] == h[k][0]
  {
    map k | k in h && |h[k]| > 0 :: h[k][0]
  }

  /** Flattening loses nothing on a header whose fields carry one value each. */
  lemma FirstValuesOfSingletons(flat: map<string, string>)
    ensures FirstValues(map k | k in flat :: [flat[k]]) == flat
  {
  }

  /** A response body stream: the bytes it delivers, and whether it then
      fails with an I/O error instead of ending cleanly. */
  datatype Stream = Stream(data: seq<byte>, failsAtEnd: bool)

  /** io.ReadAll(io.LimitReader(body, limit)): at most `limit` bytes are
      read; hitting the limit truncates silently, and only a stream error
      met before the limit is reported. */
  function ReadLimited(s: Stream, limit: int): (r: Result<seq<byte>>)
    ensures r.Err? <==> s.failsAtEnd && |s.data| < limit
    ensures r.Err? ==> r.failure == ReadFailure
    ensures r.Ok? ==> r.value <= s.data
    ensures r.Ok? && |s.data| <= limit ==> r.value == s.data
    ensures r.Ok? && limit <= |s.data| ==> |r.value| == if limit < 0 then 0 else limit
  {
    if limit <= 0 then Ok([])
    else if limit <= |s.data| then Ok(s.data[..limit])
    else if s.failsAtEnd then Err(ReadFailure)
    else Ok(s.data)
  }

  // ---------------------------------------------------------------------
  // Requests and the client

  /** url.Values: each query parameter name with its values in insertion order. */
  type Values = map<string, seq<string>>

  /** An outbound request: method (verb), target URL, query parameters (before
      percent-encoding), headers, and body if one is attached. */
  datatype HttpRequest = HttpRequest(
    verb: string,
    url: string,
    query: Values,
    header: Header,
    body: Option<string>)

  /** What http.Client.Do yields: a transport failure, or a response. */
  datatype Exchange =
    | TransportError
    | Received(status: int, header: ResponseHeader, body: Stream)

  /** The parts of net/http the handlers consult: whether the url.Parse
      call inside http.NewRequestWithContext accepts a URL, and the outcome
      of http.Client.Do for a request. */
  datatype Client = Client(parsesUrl: string -> bool, send: HttpRequest -> Exchange)

  /** http.NewRequestWithContext succeeds when the method name is a token and the
      URL parses. */
  predicate CanCreateRequest(client: Client, verb: string, url: string) {
    verb != "" && IsToken(verb) && client.parsesUrl(url)
  }
}
