/** operator/config_manager.go: the client of the Grafana Agent's scrape
    config API and the manager that does nothing. The HTTP round trip is not
    modelled: an operation builds the request it would send, and a `net`
    function stands for the transport and the agent, returning what came
    back for that request. */
module ConfigManager {
  import opened Wrappers
  import opened Text
  import opened Monitoring

  type byte = b: int | 0 <= b < 256

  /** The UTF-8 encoding of one code point; Go strings hold these bytes. */
  function EncodeRune(c: char): (bs: seq<byte>)
    ensures 1 <= |bs| <= 4
    ensures |bs| == 1 <==> (c as int) < 0x80
    ensures |bs| == 1 ==> bs[0] == c as int
    ensures |bs| > 1 ==> forall k :: 0 <= k < |bs| ==> bs[k] >= 0x80
    ensures |bs| == RuneLength(bs[0])
  {
    var n := c as int;
    if n < 0x80 then [n]
    else if n < 0x800 then [0xC0 + n / 64, 0x80 + n % 64]
    else if n < 0x10000 then [0xE0 + n / 4096, 0x80 + (n / 64) % 64, 0x80 + n % 64]
    else [0xF0 + n / 262144, 0x80 + (n / 4096) % 64, 0x80 + (n / 64) % 64, 0x80 + n % 64]
  }

  /** The number of bytes of an encoding, read off its first byte. */
  function RuneLength(lead: byte): nat {
    if lead < 0x80 then 1 else if lead < 0xE0 then 2 else if lead < 0xF0 then 3 else 4
  }

  /** Splitting off the low six bits of `n` and of its higher part. */
  lemma SixBits(n: nat)
    ensures n == (n / 64) * 64 + n % 64
    ensures n / 64 / 64 == n / 4096
    ensures n / 4096 / 64 == n / 262144
  {
  }

  /** A number is determined by its low six bits and the rest. */
  lemma SameSixBits(n: nat, m: nat)
    requires n / 64 == m / 64 && n % 64 == m % 64
    ensures n == m
  {
    SixBits(n);
    SixBits(m);
  }

  lemma EncodeRuneInjective(c: char, d: char)
    ensures EncodeRune(c) == EncodeRune(d) ==> c == d
  {
    var n, m := c as int, d as int;
    if EncodeRune(c) == EncodeRune(d) && n >= 0x800 {
      var e := EncodeRune(c);
      SixBits(n);
      SixBits(m);
      if n >= 0x10000 {
        assert (n / 4096) % 64 == e[1] - 0x80 == (m / 4096) % 64;
        SameSixBits(n / 4096, m / 4096);
      }
      assert (n / 64) % 64 == e[|e| - 2] - 0x80 == (m / 64) % 64;
      SameSixBits(n / 64, m / 64);
    }
  }

  function EncodeString(s: string): (bs: seq<byte>)
    ensures |bs| >= |s|
  {
    if s == [] then [] else EncodeRune(s[0]) + EncodeString(s[1..])
  }

  /** Two texts with the same bytes are the same text. */
  lemma {:induction false} EncodeStringInjective(a: string, b: string)
    ensures EncodeString(a) == EncodeString(b) ==> a == b
  {
    if EncodeString(a) == EncodeString(b) && a != [] && b != [] {
      var s := EncodeString(a);
      var ea, eb := EncodeRune(a[0]), EncodeRune(b[0]);
      assert s == ea + EncodeString(a[1..]) && s == eb + EncodeString(b[1..]);
      assert ea[0] == s[0] == eb[0];
      assert ea == s[..|ea|] == eb;
      EncodeRuneInjective(a[0], b[0]);
      assert EncodeString(a[1..]) == s[|ea|..] == EncodeString(b[1..]);
      EncodeStringInjective(a[1..], b[1..]);
      assert a == [a[0]] + a[1..] && b == [b[0]] + b[1..];
    }
  }

  /** Characters `url.PathEscape` leaves alone in a path segment: letters,
      digits, `-_.~` and the sub-delimiters `$&+:=@`. Everything else,
      `/`, `;`, `,` and `?` included, is percent-encoded. */
  predicate Unreserved(c: char) {
    || ('a' <= c <= 'z') || ('A' <= c <= 'Z') || ('0' <= c <= '9')
    || c == '-' || c == '_' || c == '.' || c == '~'
    || c == '$' || c == '&' || c == '+' || c == ':' || c == '=' || c == '@'
  }

  /** What may appear in an escaped segment. */
  predicate SegmentChar(c: char) {
    c == '%' || Unreserved(c)
  }

  /** Upper-case hexadecimal digit, as Go writes escapes. */
  function HexDigit(d: nat): (c: char)
    requires d < 16
    ensures Unreserved(c)
  {
    if d < 10 then ('0' as int + d) as char else ('A' as int + d - 10) as char
  }

  predicate IsHex(c: char) {
    ('0' <= c <= '9') || ('a' <= c <= 'f') || ('A' <= c <= 'F')
  }

  function HexValue(c: char): (d: nat)
    requires IsHex(c)
    ensures d < 16
  {
    if '0' <= c <= '9' then c as int - '0' as int
    else if 'a' <= c <= 'f' then c as int - 'a' as int + 10
    else c as int - 'A' as int + 10
  }

  function EscapeByte(b: byte): (r: string)
    ensures 1 <= |r| <= 3
    ensures forall j :: 0 <= j < |r| ==> SegmentChar(r[j])
  {
    if Unreserved(b as char) then [b as char] else ['%', HexDigit(b / 16), HexDigit(b % 16)]
  }

  function EscapeBytes(bs: seq<byte>): (r: string)
    ensures forall j :: 0 <= j < |r| ==> SegmentChar(r[j])
  {
    if bs == [] then [] else EscapeByte(bs[0]) + EscapeBytes(bs[1..])
  }

  /** `url.PathEscape`: percent-encodes every byte of the UTF-8 text that may
      not stand for itself inside one path segment. */
  function PathEscape(name: string): (r: string)
    ensures forall j :: 0 <= j < |r| ==> SegmentChar(r[j])
  {
    EscapeBytes(EncodeString(name))
  }

  /** `url.PathUnescape`: the bytes an escaped path segment stands for, or
      `None` for a `%` that does not start two hexadecimal digits. */
  function PathUnescape(s: string): Option<seq<byte>>
    decreases |s|
  {
    if s == [] then Some([])
    else if s[0] == '%' then
      if |s| >= 3 && IsHex(s[1]) && IsHex(s[2]) then
        match PathUnescape(s[3..])
        case None => None
        case Some(rest) => Some([HexValue(s[1]) * 16 + HexValue(s[2])] + rest)
      else None
    else
      match PathUnescape(s[1..])
      case None => None
      case Some(rest) => Some(EncodeRune(s[0]) + rest)
  }

  lemma HexRoundTrip(d: nat)
    requires d < 16
    ensures IsHex(HexDigit(d)) && HexValue(HexDigit(d)) == d
  {
  }

  /** Unescaping reads one byte back off the front: a byte that stands for
      itself ... */
  lemma UnescapeKeptByte(b: byte, t: string)
    requires Unreserved(b as char)
    ensures PathUnescape([b as char] + t) ==
      if PathUnescape(t).Some? then Some([b] + PathUnescape(t).value) else None
  {
    var s := [b as char] + t;
    assert s[0] == b as char && s[0] != '%' && s[1..] == t;
  }

  /** ... and a percent-encoded byte. */
  lemma UnescapeEncodedByte(b: byte, t: string)
    ensures PathUnescape(['%', HexDigit(b / 16), HexDigit(b % 16)] + t) ==
      if PathUnescape(t).Some? then Some([b] + PathUnescape(t).value) else None
  {
    var s := ['%', HexDigit(b / 16), HexDigit(b % 16)] + t;
    HexRoundTrip(b / 16);
    HexRoundTrip(b % 16);
    assert s[0] == '%' && s[3..] == t;
  }

  lemma {:induction false} UnescapeEscapeBytes(bs: seq<byte>)
    ensures PathUnescape(EscapeBytes(bs)) == Some(bs)
  {
    if bs != [] {
      if Unreserved(bs[0] as char) {
        UnescapeKeptByte(bs[0], EscapeBytes(bs[1..]));
      } else {
        UnescapeEncodedByte(bs[0], EscapeBytes(bs[1..]));
      }
      UnescapeEscapeBytes(bs[1..]);
      assert bs == [bs[0]] + bs[1..];
    }
  }

  /** Unescaping an escaped name gives back the name's bytes. */
  lemma PathEscapeRoundTrip(name: string)
    ensures PathUnescape(PathEscape(name)) == Some(EncodeString(name))
  {
    UnescapeEscapeBytes(EncodeString(name));
  }

  /** Distinct names escape to distinct segments. */
  lemma PathEscapeInjective(a: string, b: string)
    ensures PathEscape(a) == PathEscape(b) ==> a == b
  {
    PathEscapeRoundTrip(a);
    PathEscapeRoundTrip(b);
    EncodeStringInjective(a, b);
  }

  /** The two managers: one talking to the agent whose API is rooted at
      `apiRoot`, and the no-op manager. */
  datatype Manager = GrafanaAgent(apiRoot: string) | NoOp

  /** The API root is kept without one trailing slash. */
  function NewGrafanaAgentConfigManager(apiRoot: string): (m: Manager)
    ensures m.GrafanaAgent?
    ensures m.apiRoot == apiRoot || m.apiRoot + "/" == apiRoot
    ensures |apiRoot| > 0 && apiRoot[|apiRoot| - 1] == '/' ==> m.apiRoot + "/" == apiRoot
  {
    GrafanaAgent(TrimSuffix(apiRoot, "/"))
  }

  function NewNoOpConfigManager(): (m: Manager)
    ensures m.NoOp?
  {
    NoOp
  }

  const ConfigPath := "/agent/api/v1/config/"
  const ConfigsPath := "/agent/api/v1/configs"

  /** Where one named config lives on the agent. */
  function Route(m: Manager, name: string): string
    requires m.GrafanaAgent?
  {
    m.apiRoot + ConfigPath + PathEscape(name)
  }

  datatype HttpMethod = MethodGet | MethodPost | MethodDelete

  /** A request as sent; the body of an update is the config it marshals. */
  datatype Request = Request(verb: HttpMethod, url: string, body: Option<InstanceConfig>)

  /** What the transport returned for a request: an error before any
      response, or a response with its code, its status line (such as
      "500 Internal Server Error") and what its JSON body decodes to as a
      config listing. */
  datatype Exchange =
    | TransportError(err: string)
    | Response(statusCode: int, status: string, listing: Result<seq<string>, string>)

  const StatusOK := 200
  const StatusCreated := 201
  const StatusBadRequest := 400

  /** One call the controller makes on its manager. */
  datatype Call = UpdateCall(cfg: InstanceConfig) | DeleteCall(name: string)

  function UpdateRequest(m: Manager, cfg: InstanceConfig): Request
    requires m.GrafanaAgent?
  {
    Request(MethodPost, Route(m, cfg.name), Some(cfg))
  }

  function DeleteRequest(m: Manager, name: string): Request
    requires m.GrafanaAgent?
  {
    Request(MethodDelete, Route(m, name), None)
  }

  function ListRequest(m: Manager): Request
    requires m.GrafanaAgent?
  {
    Request(MethodGet, m.apiRoot + ConfigsPath, None)
  }

  /** An update succeeds on 200 (updated) and 201 (created) only. */
  function UpdateScrapeConfig(m: Manager, net: Request -> Exchange, cfg: InstanceConfig): (o: Outcome<string>)
    ensures m.NoOp? ==> o.Pass?
    ensures m.GrafanaAgent? ==>
      var ex := net(UpdateRequest(m, cfg));
      && (o.Pass? <==> ex.Response? && (ex.statusCode == StatusOK || ex.statusCode == StatusCreated))
      && (ex.TransportError? ==> o == Fail("UpdateScrapeConfig: failed to sync: " + ex.err))
      && (ex.Response? && o.Fail? ==> o == Fail("UpdateScrapeConfig: unexpected status code: " + ex.status))
  {
    if m.NoOp? then Pass
    else
      match net(UpdateRequest(m, cfg))
      case TransportError(err) => Fail("UpdateScrapeConfig: failed to sync: " + err)
      case Response(code, status, _) =>
        if code == StatusOK || code == StatusCreated then Pass
        else Fail("UpdateScrapeConfig: unexpected status code: " + status)
  }

  /** A delete succeeds on 200 (deleted) and on 400, the agent's answer to
      an unknown name. */
  function DeleteScrapeConfig(m: Manager, net: Request -> Exchange, name: string): (o: Outcome<string>)
    ensures m.NoOp? ==> o.Pass?
    ensures m.GrafanaAgent? ==>
      var ex := net(DeleteRequest(m, name));
      && (o.Pass? <==> ex.Response? && (ex.statusCode == StatusOK || ex.statusCode == StatusBadRequest))
      && (ex.TransportError? ==> o == Fail("DeleteScrapeConfig: failed to sync: " + ex.err))
      && (ex.Response? && o.Fail? ==> o == Fail("DeleteScrapeConfig: unexpected status code: " + ex.status))
  {
    if m.NoOp? then Pass
    else
      match net(DeleteRequest(m, name))
      case TransportError(err) => Fail("DeleteScrapeConfig: failed to sync: " + err)
      case Response(code, status, _) =>
        if code == StatusOK || code == StatusBadRequest then Pass
        else Fail("DeleteScrapeConfig: unexpected status code: " + status)
  }

  /** The names of the configs the agent holds; only a 200 whose body
      decodes yields them. */
  function ListScrapeConfigs(m: Manager, net: Request -> Exchange): (r: Result<seq<string>, string>)
    ensures m.NoOp? ==> r == Ok([])
    ensures m.GrafanaAgent? ==>
      var ex := net(ListRequest(m));
      && (r.Ok? <==> ex.Response? && ex.statusCode == StatusOK && ex.listing.Ok?)
      && (r.Ok? ==> r.value == ex.listing.value)
      && (ex.TransportError? ==> r == Err("ListScrapeConfigs: failed to list: " + ex.err))
      && (ex.Response? && ex.statusCode != StatusOK ==> r == Err("ListScrapeConfigs: unexpected status code: " + ex.status))
      && (ex.Response? && ex.statusCode == StatusOK && ex.listing.Err? ==>
            r == Err("ListScrapeConfigs: unmarshal response: " + ex.listing.error))
  {
    if m.NoOp? then Ok([])
    else
      match net(ListRequest(m))
      case TransportError(err) => Err("ListScrapeConfigs: failed to list: " + err)
      case Response(code, status, listing) =>
        if code != StatusOK then Err("ListScrapeConfigs: unexpected status code: " + status)
        else if listing.Err? then Err("ListScrapeConfigs: unmarshal response: " + listing.error)
        else Ok(listing.value)
  }

  /** A controller call carried out by the manager. */
  function Perform(m: Manager, net: Request -> Exchange, call: Call): Outcome<string> {
    match call
    case UpdateCall(cfg) => UpdateScrapeConfig(m, net, cfg)
    case DeleteCall(name) => DeleteScrapeConfig(m, net, name)
  }

  /** Distinct config names are stored under distinct URLs, and the name
      always lands in one path segment after the config prefix. */
  lemma RouteInjective(m: Manager, a: string, b: string)
    requires m.GrafanaAgent?
    ensures Route(m, a) == Route(m, b) ==> a == b
    ensures '/' !in Route(m, a)[|m.apiRoot + ConfigPath|..]
  {
    var prefix := m.apiRoot + ConfigPath;
    assert Route(m, a)[|prefix|..] == PathEscape(a);
    assert Route(m, b)[|prefix|..] == PathEscape(b);
    PathEscapeInjective(a, b);
  }

  lemma {:induction false} EncodeStringAppend(a: string, b: string)
    ensures EncodeString(a + b) == EncodeString(a) + EncodeString(b)
  {
    if a == [] {
      assert a + b == b;
    } else {
      assert (a + b)[0] == a[0] && (a + b)[1..] == a[1..] + b;
      EncodeStringAppend(a[1..], b);
    }
  }

  lemma {:induction false} EscapeBytesAppend(a: seq<byte>, b: seq<byte>)
    ensures EscapeBytes(a + b) == EscapeBytes(a) + EscapeBytes(b)
  {
    if a == [] {
      assert a + b == b;
    } else {
      assert (a + b)[0] == a[0] && (a + b)[1..] == a[1..] + b;
      EscapeBytesAppend(a[1..], b);
    }
  }

  /** Escaping works piece by piece. */
  lemma PathEscapeAppend(a: string, b: string)
    ensures PathEscape(a + b) == PathEscape(a) + PathEscape(b)
  {
    EncodeStringAppend(a, b);
    EscapeBytesAppend(EncodeString(a), EncodeString(b));
  }

  /** A name made of unreserved characters is its own escape. */
  lemma {:induction false} PathEscapeUnreserved(name: string)
    requires forall j :: 0 <= j < |name| ==> Unreserved(name[j])
    ensures PathEscape(name) == name
  {
    if name != [] {
      PathEscapeAppend([name[0]], name[1..]);
      PathEscapeUnreserved(name[1..]);
      assert name == [name[0]] + name[1..];
    }
  }

  lemma EscapeSlash()
    ensures PathEscape("/") == "%2F"
  {
    assert EncodeString("/") == ['/' as int];
  }

  /** A slash inside a name becomes `%2F`. */
  lemma PathEscapeSlash(a: string, b: string)
    ensures PathEscape(a + "/" + b) == PathEscape(a) + "%2F" + PathEscape(b)
  {
    PathEscapeAppend(a + "/", b);
    PathEscapeAppend(a, "/");
    EscapeSlash();
  }

  /** A name of unreserved pieces joined by slashes escapes to the same
      pieces joined by `%2F`. */
  lemma {:induction false} PathEscapeJoin(parts: seq<string>)
    requires forall i, j :: 0 <= i < |parts| && 0 <= j < |parts[i]| ==> Unreserved(parts[i][j])
    ensures PathEscape(Join(parts, "/")) == Join(parts, "%2F")
  {
    if |parts| == 0 {
      assert EncodeString("") == [];
    } else {
      PathEscapeUnreserved(parts[0]);
      if |parts| > 1 {
        PathEscapeJoin(parts[1..]);
        PathEscapeSlash(parts[0], Join(parts[1..], "/"));
      }
    }
  }

  /** One trailing slash of the API root is dropped before the route is built. */
  lemma RouteTrimsSlash(root: string, name: string)
    ensures Route(NewGrafanaAgentConfigManager(root + "/"), name) == root + ConfigPath + PathEscape(name)
  {
    assert (root + "/")[..|root|] == root;
  }

  /** The shape of the route test's cases ("dummy", "foo/bar", "foo/bar/baz"
      under an API root given with a trailing slash). */
  lemma RouteOfPath(root: string, parts: seq<string>)
    requires forall i, j :: 0 <= i < |parts| && 0 <= j < |parts[i]| ==> Unreserved(parts[i][j])
    ensures Route(NewGrafanaAgentConfigManager(root + "/"), Join(parts, "/")) == root + ConfigPath + Join(parts, "%2F")
  {
    RouteTrimsSlash(root, Join(parts, "/"));
    PathEscapeJoin(parts);
  }

  /** The status codes of the manager tests. */
  lemma UpdateOutcomeExamples(root: string, cfg: InstanceConfig)
    ensures UpdateScrapeConfig(GrafanaAgent(root), _ => Response(StatusCreated, "201 Created", Ok([])), cfg) == Pass
    ensures UpdateScrapeConfig(GrafanaAgent(root), _ => Response(StatusOK, "200 OK", Ok([])), cfg) == Pass
    ensures UpdateScrapeConfig(GrafanaAgent(root), _ => Response(500, "500 Internal Server Error", Ok([])), cfg)
         == Fail("UpdateScrapeConfig: unexpected status code: " + "500 Internal Server Error")
  {
  }

  lemma DeleteOutcomeExamples(root: string, name: string)
    ensures DeleteScrapeConfig(GrafanaAgent(root), _ => Response(StatusOK, "200 OK", Ok([])), name) == Pass
    ensures DeleteScrapeConfig(GrafanaAgent(root), _ => Response(StatusBadRequest, "400 Bad Request", Ok([])), name) == Pass
    ensures DeleteScrapeConfig(GrafanaAgent(root), _ => Response(500, "500 Internal Server Error", Ok([])), name)
         == Fail("DeleteScrapeConfig: unexpected status code: " + "500 Internal Server Error")
  {
  }
}
