/** The `http_request` tool: an HTTP call to a public URL on the model's
    behalf. URL parsing (`url.Parse`), address parsing (`net.ParseIP`), the
    request constructor and the HTTP client are inputs (`Web`); the address
    screen, the argument checks, the timeout clamp, the body limit and the
    report the tool writes are modelled. */
module HttpRequest {
  import opened Common
  import opened ToolArgs

  // =====================================================================
  // IP addresses
  // =====================================================================

  /** An address as `net.ParseIP` returns it: sixteen bytes, an IPv4
      address in its IPv4-mapped form ::ffff:a.b.c.d (section 2.5.5.2 of
      RFC 4291). */
  type IP = b: seq<bv8> | |b| == 16 witness seq(16, _ => 0)

  /** a.b.c.d, as Go stores it. */
  function V4(a: bv8, b: bv8, c: bv8, d: bv8): IP {
    [0, 0, 0, 0, 0, 0, 0, 0, 0, 0, 0xff, 0xff, a, b, c, d]
  }

  /** An IPv6 address whose first two bytes are given and the rest zero. */
  function V6(a: bv8, b: bv8): IP {
    [a, b, 0, 0, 0, 0, 0, 0, 0, 0, 0, 0, 0, 0, 0, 0]
  }

  /** ::1 and :: (sections 2.5.3 and 2.5.2 of RFC 4291). */
  const Loopback6: IP := [0, 0, 0, 0, 0, 0, 0, 0, 0, 0, 0, 0, 0, 0, 0, 1]
  const Unspecified6: IP := V6(0, 0)

  const MappedLead: seq<bv8> := [0, 0, 0, 0, 0, 0, 0, 0, 0, 0, 0xff, 0xff]

  /** `ip.To4() != nil`: the address is an IPv4-mapped one. */
  predicate IsV4(ip: IP) {
    ip[..12] == MappedLead
  }

  // Go's classification of an address (methods of `net.IP`), with the
  // byte masks the standard library uses.

  predicate IsLoopback(ip: IP) {
    if IsV4(ip) then ip[12] == 127 else ip == Loopback6
  }

  predicate IsPrivate(ip: IP) {
    if IsV4(ip) then ip[12] == 10 || (ip[12] == 172 && ip[13] & 0xf0 == 16) || (ip[12] == 192 && ip[13] == 168)
    else ip[0] & 0xfe == 0xfc
  }

  predicate IsLinkLocalUnicast(ip: IP) {
    if IsV4(ip) then ip[12] == 169 && ip[13] == 254
    else ip[0] == 0xfe && ip[1] & 0xc0 == 0x80
  }

  predicate IsLinkLocalMulticast(ip: IP) {
    if IsV4(ip) then ip[12] == 224 && ip[13] == 0 && ip[14] == 0
    else ip[0] == 0xff && ip[1] & 0x0f == 0x02
  }

  /** `ip.IsUnspecified()`: 0.0.0.0 or ::. */
  predicate IsUnspecified(ip: IP) {
    ip == V4(0, 0, 0, 0) || ip == Unspecified6
  }

  /** The test `validateURL` applies to a literal address. */
  predicate Blocked(ip: IP) {
    IsLoopback(ip) || IsPrivate(ip) || IsLinkLocalUnicast(ip) || IsLinkLocalMulticast(ip)
  }

  // ---------------------------------------------------------------------
  // The address blocks, written as CIDR prefixes

  /** The byte with the top `k` bits set. */
  function HighBits(k: nat): bv8
    requires 0 < k < 8
  {
    (0xff as bv8) << (8 - k)
  }

  /** `ip` lies in the block `net`/`bits`: its first `bits` bits are those
      of `net`. */
  predicate InPrefix(ip: IP, net: IP, bits: nat)
    requires bits <= 128
  {
    ip[..bits / 8] == net[..bits / 8]
    && (bits % 8 != 0 ==> (ip[bits / 8] ^ net[bits / 8]) & HighBits(bits % 8) == 0)
  }

  /** An IPv4 block a.b.c.d/bits, in its IPv4-mapped form. */
  predicate InV4(ip: IP, a: bv8, b: bv8, c: bv8, bits: nat)
    requires bits <= 32
  {
    InPrefix(ip, V4(a, b, c, 0), 96 + bits)
  }

  /** Loopback: 127.0.0.0/8 (section 3.2.1.3 of RFC 1122) and ::1/128. */
  predicate LoopbackBlock(ip: IP) {
    InV4(ip, 127, 0, 0, 8) || InPrefix(ip, Loopback6, 128)
  }

  /** Private: 10.0.0.0/8, 172.16.0.0/12 and 192.168.0.0/16 (section 3 of
      RFC 1918), and the unique local addresses fc00::/7 (section 3 of
      RFC 4193). */
  predicate PrivateBlock(ip: IP) {
    InV4(ip, 10, 0, 0, 8) || InV4(ip, 172, 16, 0, 12) || InV4(ip, 192, 168, 0, 16)
    || InPrefix(ip, V6(0xfc, 0), 7)
  }

  /** Link-local unicast: 169.254.0.0/16 (RFC 3927) and fe80::/10
      (section 2.5.6 of RFC 4291). */
  predicate LinkLocalBlock(ip: IP) {
    InV4(ip, 169, 254, 0, 16) || InPrefix(ip, V6(0xfe, 0x80), 10)
  }

  /** Link-local multicast: 224.0.0.0/24, and the IPv6 multicast addresses
      ff00::/8 whose scope field is 2, link-local (section 2.7 of RFC 4291). */
  predicate LinkLocalMulticastBlock(ip: IP) {
    InV4(ip, 224, 0, 0, 24) || (InPrefix(ip, V6(0xff, 0), 8) && ip[1] % 16 == 2)
  }

  /** Every address `validateURL` refuses when given literally. */
  predicate Reserved(ip: IP) {
    LoopbackBlock(ip) || PrivateBlock(ip) || LinkLocalBlock(ip) || LinkLocalMulticastBlock(ip)
  }

  /** Membership of an IPv4 block needs the mapped lead and the block's
      first bytes. */
  lemma InV4Bytes(ip: IP, a: bv8, b: bv8, c: bv8, bits: nat)
    requires bits <= 32
    ensures bits == 8 ==> (InV4(ip, a, b, c, bits) <==> IsV4(ip) && ip[12] == a)
    ensures bits == 12 ==> (InV4(ip, a, b, c, bits) <==> IsV4(ip) && ip[12] == a && (ip[13] ^ b) & 0xf0 == 0)
    ensures bits == 16 ==> (InV4(ip, a, b, c, bits) <==> IsV4(ip) && ip[12] == a && ip[13] == b)
    ensures bits == 24 ==> (InV4(ip, a, b, c, bits) <==> IsV4(ip) && ip[12] == a && ip[13] == b && ip[14] == c)
  {
    var net := V4(a, b, c, 0);
    assert net[..12] == MappedLead;
    assert ip[..13] == ip[..12] + [ip[12]];
    assert net[..13] == net[..12] + [net[12]];
    assert ip[..14] == ip[..13] + [ip[13]];
    assert net[..14] == net[..13] + [net[13]];
    assert ip[..15] == ip[..14] + [ip[14]];
    assert net[..15] == net[..14] + [net[14]];
    assert HighBits(4) == 0xf0;
  }

  /** Go's loopback test is exactly 127.0.0.0/8 and ::1. */
  lemma LoopbackIsBlock(ip: IP)
    ensures IsLoopback(ip) <==> LoopbackBlock(ip)
  {
    InV4Bytes(ip, 127, 0, 0, 8);
    assert ip[..16] == ip && Loopback6[..16] == Loopback6;
    if IsV4(ip) {
      assert ip != Loopback6 by { assert ip[11] == 0xff; }
    }
  }

  /** Go's private test is exactly the blocks of RFC 1918 and RFC 4193. */
  lemma PrivateIsBlock(ip: IP)
    ensures IsPrivate(ip) <==> PrivateBlock(ip)
  {
    InV4Bytes(ip, 10, 0, 0, 8);
    InV4Bytes(ip, 172, 16, 0, 12);
    InV4Bytes(ip, 192, 168, 0, 16);
    assert HighBits(7) == 0xfe;
    var net := V6(0xfc, 0);
    assert ip[..0] == net[..0];
    if IsV4(ip) {
      assert ip[0] == MappedLead[0] == 0;
    }
  }

  /** Go's link-local unicast test is exactly 169.254.0.0/16 and fe80::/10. */
  lemma LinkLocalIsBlock(ip: IP)
    ensures IsLinkLocalUnicast(ip) <==> LinkLocalBlock(ip)
  {
    InV4Bytes(ip, 169, 254, 0, 16);
    assert HighBits(2) == 0xc0;
    var net := V6(0xfe, 0x80);
    assert ip[..1] == [ip[0]] && net[..1] == [net[0]];
    if IsV4(ip) {
      assert ip[0] == MappedLead[0] == 0;
    }
  }

  /** Go's link-local multicast test is exactly 224.0.0.0/24 and the
      link-local scope of ff00::/8. */
  lemma LinkLocalMulticastIsBlock(ip: IP)
    ensures IsLinkLocalMulticast(ip) <==> LinkLocalMulticastBlock(ip)
  {
    InV4Bytes(ip, 224, 0, 0, 24);
    var net := V6(0xff, 0);
    assert ip[..1] == [ip[0]] && net[..1] == [net[0]];
    assert ip[1] & 0x0f == 0x02 <==> ip[1] % 16 == 2;
    if IsV4(ip) {
      assert ip[0] == MappedLead[0] == 0;
    }
  }

  /** The addresses the screen refuses are exactly the reserved blocks. */
  lemma BlockedIsReserved(ip: IP)
    ensures Blocked(ip) <==> Reserved(ip)
  {
    LoopbackIsBlock(ip);
    PrivateIsBlock(ip);
    LinkLocalIsBlock(ip);
    LinkLocalMulticastIsBlock(ip);
  }

  // =====================================================================
  // validateURL
  // =====================================================================

  /** The parts of a parsed URL the screen looks at: the scheme and
      `u.Hostname()` (the host without port or IPv6 brackets). */
  datatype Url = Url(scheme: string, hostname: string)

  /** `url.Parse`, answering with the parsed URL or the parser's error. */
  type UrlParser = string -> Result<Url>

  /** `net.ParseIP`, answering with the address when the text is a literal one. */
  type IPParser = string -> Option<IP>

  const LocalHosts: seq<string> := ["localhost", "127.0.0.1", "::1", "0.0.0.0"]

  const SchemeError: string := "only http/https schemes allowed"
  const LocalError: string := "localhost access not allowed"
  const PrivateError: string := "private/local IP access not allowed"

  /** The checks before the address test: the URL parses, the scheme is
      http or https, the host is none of the local names. The result is the
      host to test, or the error. */
  function HostToCheck(raw: string, parseURL: UrlParser): (r: Result<string>)
    ensures r.Ok? <==> parseURL(raw).Ok? && parseURL(raw).value.scheme in ["http", "https"]
                       && parseURL(raw).value.hostname !in LocalHosts
    ensures r.Ok? ==> r.value == parseURL(raw).value.hostname
  {
    match parseURL(raw)
    case Err(e) => Err("invalid URL: " + e)
    case Ok(u) =>
      if u.scheme != "http" && u.scheme != "https" then Err(SchemeError)
      else if u.hostname in LocalHosts then Err(LocalError)
      else Ok(u.hostname)
  }

  /** `validateURL`: the error, or `None` when the URL may be fetched. A
      literal address is refused when it is loopback, private or link-local,
      and only then. `Execute` screens with this, as the source does. */
  function ValidateURL(raw: string, parseURL: UrlParser, parseIP: IPParser): (r: Option<string>)
    ensures parseURL(raw).Err? ==> r == Some("invalid URL: " + parseURL(raw).msg)
    ensures (parseURL(raw).Ok? && parseURL(raw).value.scheme !in ["http", "https"]) ==> r == Some(SchemeError)
    ensures (parseURL(raw).Ok? && parseURL(raw).value.scheme in ["http", "https"]
             && parseURL(raw).value.hostname in LocalHosts) ==> r == Some(LocalError)
  {
    match HostToCheck(raw, parseURL)
    case Err(e) => Some(e)
    case Ok(host) =>
      if parseIP(host).Some? && Blocked(parseIP(host).value) then Some(PrivateError) else None
  }

  /** What the source lets through: a parsed http or https URL whose host is
      not a local name and, when it is a literal address, lies outside the
      reserved blocks. */
  lemma ValidateURLAccepts(raw: string, parseURL: UrlParser, parseIP: IPParser)
    ensures ValidateURL(raw, parseURL, parseIP).None? <==>
      (parseURL(raw).Ok? && parseURL(raw).value.scheme in ["http", "https"]
       && parseURL(raw).value.hostname !in LocalHosts
       && (parseIP(parseURL(raw).value.hostname).Some? ==>
             !Reserved(parseIP(parseURL(raw).value.hostname).value)))
  {
    if parseURL(raw).Ok? && parseIP(parseURL(raw).value.hostname).Some? {
      BlockedIsReserved(parseIP(parseURL(raw).value.hostname).value);
    }
  }

  /** Every literal address in a reserved block is refused. */
  lemma ReservedRefused(raw: string, parseURL: UrlParser, parseIP: IPParser, ip: IP)
    requires parseURL(raw).Ok? && parseURL(raw).value.scheme in ["http", "https"]
    requires parseIP(parseURL(raw).value.hostname) == Some(ip) && Reserved(ip)
    ensures ValidateURL(raw, parseURL, parseIP).Some?
  {
    BlockedIsReserved(ip);
  }

  /** `validateURL` with the fix: the unspecified address, which the literal
      "0.0.0.0" shows is meant to be refused, is refused in every spelling
      (:: and ::ffff:0.0.0.0 as well). */
  function ValidateURLFixed(raw: string, parseURL: UrlParser, parseIP: IPParser): Option<string> {
    match HostToCheck(raw, parseURL)
    case Err(e) => Some(e)
    case Ok(host) =>
      if parseIP(host).Some? && (Blocked(parseIP(host).value) || IsUnspecified(parseIP(host).value))
      then Some(PrivateError) else None
  }

  /** What the fixed screen lets through: as `ValidateURLAccepts`, and a
      literal address is in addition never the unspecified one. */
  lemma ValidateURLFixedAccepts(raw: string, parseURL: UrlParser, parseIP: IPParser)
    ensures ValidateURLFixed(raw, parseURL, parseIP).None? <==>
      (parseURL(raw).Ok? && parseURL(raw).value.scheme in ["http", "https"]
       && parseURL(raw).value.hostname !in LocalHosts
       && (parseIP(parseURL(raw).value.hostname).Some? ==>
             !Reserved(parseIP(parseURL(raw).value.hostname).value)
             && !IsUnspecified(parseIP(parseURL(raw).value.hostname).value)))
  {
    if parseURL(raw).Ok? && parseIP(parseURL(raw).value.hostname).Some? {
      BlockedIsReserved(parseIP(parseURL(raw).value.hostname).value);
    }
  }

  /** The fixed screen refuses what the written one refuses, and differs
      from it only on the unspecified address. */
  lemma ValidateURLRefines(raw: string, parseURL: UrlParser, parseIP: IPParser)
    ensures ValidateURL(raw, parseURL, parseIP).Some? ==> ValidateURLFixed(raw, parseURL, parseIP).Some?
    ensures ValidateURLFixed(raw, parseURL, parseIP) != ValidateURL(raw, parseURL, parseIP) ==>
      ValidateURL(raw, parseURL, parseIP).None? && HostToCheck(raw, parseURL).Ok?
      && IsUnspecified(parseIP(HostToCheck(raw, parseURL).value).value)
  {
  }

  /** `http://[::]/`: `url.Parse` gives the host "::", which `net.ParseIP`
      reads as the unspecified address. The written screen lets it through
      (it is neither loopback, private nor link-local); the fixed one
      refuses it. */
  lemma UnspecifiedSlipsThrough(raw: string, parseURL: UrlParser, parseIP: IPParser)
    requires parseURL(raw) == Ok(Url("http", "::"))
    requires parseIP("::") == Some(Unspecified6)
    ensures ValidateURL(raw, parseURL, parseIP).None?
    ensures ValidateURLFixed(raw, parseURL, parseIP) == Some(PrivateError)
  {
    UnspecifiedNotBlocked();
  }

  /** The unspecified IPv6 address passes all four of Go's address tests. */
  lemma UnspecifiedNotBlocked()
    ensures !Blocked(Unspecified6)
  {
    assert !IsV4(Unspecified6) by { assert Unspecified6[10] != MappedLead[10]; }
    assert Unspecified6 != Loopback6 by { assert Unspecified6[15] != Loopback6[15]; }
  }

  // =====================================================================
  // Execute
  // =====================================================================

  const DefaultTimeout: int := 30
  const MinTimeout: int := 1
  const MaxTimeout: int := 120

  /** The response body limit, in bytes. */
  const MaxBody: int := 50000

  const TruncationNote: string := "\n\n[...body truncated at 50000 chars]"

  /** The response headers the report shows, in this order. */
  const ShownHeaders: seq<string> := ["Content-Type", "Content-Length", "Location", "Set-Cookie"]

  /** The request handed to the HTTP client. `body` is present only when
      the argument is a non-empty string; `headers` holds the string-valued
      entries of the `headers` argument. */
  datatype Request = Request(httpMethod: string, url: string, body: Option<string>,
                             headers: map<string, string>, timeoutSeconds: int)

  /** A response: its status, `resp.Header.Get`, the whole body the server
      sends, and the error reading it fails with, if any. */
  datatype Response = Response(status: int, header: string -> string, body: string, readError: Option<string>)

  /** Everything outside the tool: the two parsers, the request constructor
      (its error, if any, for a method and URL) and the HTTP client. */
  datatype Web = Web(parseURL: UrlParser, parseIP: IPParser,
                     newRequest: (string, string) -> Option<string>,
                     send: Request -> Result<Response>)

  /** What `Execute` returns, and the request it sends, if any. */
  datatype Effect = Effect(result: ToolResult, sent: Option<Request>)

  /** The timeout in seconds: the argument, or 30 without one, clamped into
      [1, 120]. It is always within the bounds, keeps an argument within
      them and moves any other to the nearer bound. */
  function Timeout(args: Args): (t: int)
    ensures MinTimeout <= t <= MaxTimeout
    ensures NumberArg(args, "timeout").None? ==> t == DefaultTimeout
    ensures NumberArg(args, "timeout").Some? ==>
      var n := NumberArg(args, "timeout").value;
      (MinTimeout <= n <= MaxTimeout ==> t == n)
      && (n < MinTimeout ==> t == MinTimeout)
      && (n > MaxTimeout ==> t == MaxTimeout)
  {
    var n := match NumberArg(args, "timeout") case Some(n) => n case None => DefaultTimeout;
    if n < MinTimeout then MinTimeout else if n > MaxTimeout then MaxTimeout else n
  }

  /** The string-valued entries of the `headers` argument, when it is an
      object. */
  function RequestHeaders(args: Args): (h: map<string, string>)
    ensures forall k :: k in h <==> "headers" in args && args["headers"].JObject?
                                     && k in args["headers"].fields && args["headers"].fields[k].JString?
    ensures forall k :: k in h ==> h[k] == args["headers"].fields[k].str
  {
    if "headers" in args && args["headers"].JObject? then
      var fs := args["headers"].fields;
      map k | k in fs && fs[k].JString? :: fs[k].str
    else map[]
  }

  /** What `io.ReadAll` of `io.LimitReader(body, MaxBody+1)` returns. */
  function Received(body: string): (r: string)
    ensures |r| <= MaxBody + 1
    ensures r <= body
    ensures |r| == MaxBody + 1 || r == body
  {
    if |body| > MaxBody + 1 then body[..MaxBody + 1] else body
  }

  /** The body the report shows: what was read, cut to the limit. */
  function Clip(got: string): string {
    if |got| > MaxBody then got[..MaxBody] else got
  }

  /** Reading one byte past the limit and cutting is the same as showing the
      first MaxBody bytes of the whole body, and the truncation flag is set
      exactly when the body is longer than that. */
  lemma ClippedBody(body: string)
    ensures Clip(Received(body)) == body[..if |body| <= MaxBody then |body| else MaxBody]
    ensures |Received(body)| > MaxBody <==> |body| > MaxBody
  {
  }

  /** The report line of one header, when its value is not empty. */
  function HeaderLine(header: string -> string, key: string): seq<string> {
    if header(key) != "" then [key + ": " + header(key)] else []
  }

  /** The report lines of `keys`, in their order. */
  function HeaderLines(header: string -> string, keys: seq<string>): seq<string> {
    if keys == [] then [] else HeaderLines(header, keys[..|keys| - 1]) + HeaderLine(header, keys[|keys| - 1])
  }

  /** Every key with a value has its line in the report. */
  lemma {:induction false} HeaderLinesComplete(header: string -> string, keys: seq<string>, i: nat)
    requires i < |keys| && header(keys[i]) != ""
    ensures keys[i] + ": " + header(keys[i]) in HeaderLines(header, keys)
  {
    if i < |keys| - 1 {
      assert keys[..|keys| - 1][i] == keys[i];
      HeaderLinesComplete(header, keys[..|keys| - 1], i);
    }
  }

  /** Every line of the report is the line of a key with a value. */
  lemma {:induction false} HeaderLinesSound(header: string -> string, keys: seq<string>, line: string)
    requires line in HeaderLines(header, keys)
    ensures exists i :: 0 <= i < |keys| && header(keys[i]) != "" && line == keys[i] + ": " + header(keys[i])
  {
    var front := keys[..|keys| - 1];
    if line in HeaderLines(header, front) {
      HeaderLinesSound(header, front, line);
      var i :| 0 <= i < |front| && header(front[i]) != "" && line == front[i] + ": " + header(front[i]);
      assert keys[i] == front[i];
    } else {
      assert line == keys[|keys| - 1] + ": " + header(keys[|keys| - 1]);
    }
  }

  /** No line appears for a key whose value is empty, and the lines follow
      the order of the keys: the lines of a prefix of the keys are a prefix
      of the lines. */
  lemma {:induction false} HeaderLinesPrefix(header: string -> string, keys: seq<string>, n: nat)
    requires n <= |keys|
    ensures HeaderLines(header, keys[..n]) <= HeaderLines(header, keys)
    decreases |keys| - n
  {
    if n < |keys| {
      HeaderLinesPrefix(header, keys, n + 1);
      assert keys[..n + 1][..n] == keys[..n];
    } else {
      assert keys[..n] == keys;
    }
  }

  /** The report the tool returns. */
  function Report(status: int, lines: seq<string>, body: string, truncated: bool): string {
    "Status: " + Itoa(status) + "\nHeaders:\n" + Join(lines, "\n") + "\n\nBody:\n" + body
    + (if truncated then TruncationNote else "")
  }

  /** The body sits right after the "Body:" line, and the report ends with
      the truncation note exactly when the body was cut. */
  lemma ReportShape(status: int, lines: seq<string>, body: string, truncated: bool)
    ensures var lead := "Status: " + Itoa(status) + "\nHeaders:\n" + Join(lines, "\n") + "\n\nBody:\n";
      var r := Report(status, lines, body, truncated);
      |r| >= |lead| + |body| && r[|lead|..|lead| + |body|] == body
      && (truncated <==> |r| == |lead| + |body| + |TruncationNote|)
  {
  }

  /** What the tool reports for a response read without error. */
  function ResponseReport(resp: Response): string {
    var got := Received(resp.body);
    Report(resp.status, HeaderLines(resp.header, ShownHeaders), Clip(got), |got| > MaxBody)
  }

  /** What `Execute` returns and sends for the given arguments. */
  function Outcome(args: Args, w: Web): Effect {
    var httpMethod := StringOr(args, "method");
    var raw := StringOr(args, "url");
    if httpMethod == "" || raw == "" then Effect(ErrorResult("method and url are required"), None)
    else match ValidateURL(raw, w.parseURL, w.parseIP)
    case Some(e) => Effect(ErrorResult("URL blocked: " + e), None)
    case None =>
      var m := ToUpper(httpMethod);
      match w.newRequest(m, raw)
      case Some(e) => Effect(ErrorResult("failed to create request: " + e), None)
      case None =>
        var req := Request(m, raw, NonEmptyArg(args, "body"), RequestHeaders(args), Timeout(args));
        match w.send(req)
        case Err(e) => Effect(ErrorResult("request failed: " + e), Some(req))
        case Ok(resp) =>
          if resp.readError.Some? then Effect(ErrorResult("failed to read response: " + resp.readError.value), Some(req))
          else Effect(SilentResult(ResponseReport(resp)), Some(req))
  }

  /** Without a method or a URL nothing is sent. */
  lemma MethodAndUrlRequired(args: Args, w: Web)
    requires StringOr(args, "method") == "" || StringOr(args, "url") == ""
    ensures Outcome(args, w) == Effect(ErrorResult("method and url are required"), None)
  {
  }

  /** A request goes out only to a URL the screen accepts, with the method
      upper-cased, a timeout within [1, 120] and the body only when one was
      given. */
  lemma SentRequests(args: Args, w: Web)
    requires Outcome(args, w).sent.Some?
    ensures var req := Outcome(args, w).sent.value;
      req.url == StringOr(args, "url") && ValidateURL(req.url, w.parseURL, w.parseIP).None?
      && req.httpMethod == ToUpper(StringOr(args, "method")) && req.httpMethod != ""
      && MinTimeout <= req.timeoutSeconds <= MaxTimeout
      && (req.body.Some? <==> StringOr(args, "body") != "")
  {
  }

  /** A URL whose host is a literal reserved address is never contacted. */
  lemma ReservedNeverContacted(args: Args, w: Web, ip: IP)
    requires w.parseURL(StringOr(args, "url")).Ok?
    requires w.parseIP(w.parseURL(StringOr(args, "url")).value.hostname) == Some(ip)
    requires Reserved(ip)
    ensures Outcome(args, w).sent.None?
    ensures Outcome(args, w).result.isError
  {
    var raw := StringOr(args, "url");
    if w.parseURL(raw).value.scheme in ["http", "https"] {
      BlockedIsReserved(ip);
    }
  }

  /** The tool does contact `http://[::]/`: the request goes out whenever it
      can be built. */
  lemma UnspecifiedContacted(args: Args, w: Web)
    requires StringOr(args, "method") != "" && StringOr(args, "url") != ""
    requires w.parseURL(StringOr(args, "url")) == Ok(Url("http", "::"))
    requires w.parseIP("::") == Some(Unspecified6)
    requires w.newRequest(ToUpper(StringOr(args, "method")), StringOr(args, "url")).None?
    ensures Outcome(args, w).sent.Some?
    ensures Outcome(args, w).sent.value.url == StringOr(args, "url")
  {
    UnspecifiedSlipsThrough(StringOr(args, "url"), w.parseURL, w.parseIP);
  }

  /** A response read without error is reported silently, with the status,
      the shown headers and at most MaxBody bytes of the body. */
  lemma ResponseReported(args: Args, w: Web, resp: Response)
    requires Outcome(args, w).sent.Some? && w.send(Outcome(args, w).sent.value) == Ok(resp)
    requires resp.readError.None?
    ensures Outcome(args, w).result == SilentResult(ResponseReport(resp))
    ensures ResponseReport(resp) ==
      Report(resp.status, HeaderLines(resp.header, ShownHeaders),
             resp.body[..if |resp.body| <= MaxBody then |resp.body| else MaxBody], |resp.body| > MaxBody)
  {
    ClippedBody(resp.body);
  }

  // ---------------------------------------------------------------------
  // The tool's steps

  /** The timeout: the default, replaced by the argument, then clamped. */
  method ParseTimeout(args: Args) returns (timeout: int)
    ensures timeout == Timeout(args)
    ensures MinTimeout <= timeout <= MaxTimeout
  {
    timeout := DefaultTimeout;
    var t := NumberArg(args, "timeout");
    if t.Some? {
      timeout := t.value;
    }
    if timeout < MinTimeout {
      timeout := MinTimeout;
    }
    if timeout > MaxTimeout {
      timeout := MaxTimeout;
    }
  }

  /** The shown headers, collected key by key. */
  method SelectHeaders(header: string -> string, keys: seq<string>) returns (lines: seq<string>)
    ensures lines == HeaderLines(header, keys)
  {
    lines := [];
    for i := 0 to |keys|
      invariant lines == HeaderLines(header, keys[..i])
    {
      assert keys[..i + 1][..i] == keys[..i];
      var v := header(keys[i]);
      if v != "" {
        lines := lines + [keys[i] + ": " + v];
      }
    }
    assert keys[..|keys|] == keys;
  }

  /** The report of a response read without error: the body is cut to the
      limit and the flag set, then the headers are selected. */
  method FormatResponse(resp: Response) returns (result: string)
    ensures result == ResponseReport(resp)
  {
    var bodyStr := Received(resp.body);
    var truncated := false;
    if |bodyStr| > MaxBody {
      bodyStr := bodyStr[..MaxBody];
      truncated := true;
    }
    var headerLines := SelectHeaders(resp.header, ShownHeaders);
    result := "Status: " + Itoa(resp.status) + "\nHeaders:\n" + Join(headerLines, "\n") + "\n\nBody:\n" + bodyStr;
    if truncated {
      result := result + TruncationNote;
    }
  }

  /** `Execute`: check the arguments, screen the URL, build and send the
      request, and report the response. */
  method Execute(args: Args, w: Web) returns (r: ToolResult, sent: Option<Request>)
    ensures Effect(r, sent) == Outcome(args, w)
  {
    sent := None;
    var httpMethod := StringOr(args, "method");
    var raw := StringOr(args, "url");
    if httpMethod == "" || raw == "" {
      return ErrorResult("method and url are required"), None;
    }
    httpMethod := ToUpper(httpMethod);
    var blocked := ValidateURL(raw, w.parseURL, w.parseIP);
    if blocked.Some? {
      return ErrorResult("URL blocked: " + blocked.value), None;
    }
    var timeout := ParseTimeout(args);
    var failed := w.newRequest(httpMethod, raw);
    if failed.Some? {
      return ErrorResult("failed to create request: " + failed.value), None;
    }
    var req := Request(httpMethod, raw, NonEmptyArg(args, "body"), RequestHeaders(args), timeout);
    sent := Some(req);
    var answer := w.send(req);
    if answer.Err? {
      return ErrorResult("request failed: " + answer.msg), sent;
    }
    var resp := answer.value;
    if resp.readError.Some? {
      return ErrorResult("failed to read response: " + resp.readError.value), sent;
    }
    var report := FormatResponse(resp);
    r := SilentResult(report);
  }
}
