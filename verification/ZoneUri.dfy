/**
 * Client URIs with an IPv6 zone in the host (src/cli/client.rs): the printer `format_url` and the
 * hand-written parser for "%25" zones (section 2 of RFC 6874), which the URL library refuses.
 */
module ZoneUris {
  import opened Wrappers
  import opened Bytes
  import opened Texts
  import opened Uuids
  import opened Percents

  const SCHEME: Text := Ascii("anytls://")
  const SLASH: byte := 47
  const QUESTION: byte := 63
  const HASH: byte := 35
  const AT: byte := 64
  const COLON: byte := 58
  const OPEN: byte := 91
  const CLOSE: byte := 93
  const DEFAULT_PORT: u16 := 443

  /** What a URI carries of the client's arguments. */
  datatype Args = Args(
    host: Text, port: u16, password: Text, sni: Option<Text>, insecure: Option<bool>, clientId: Option<Uuid>,
    fragment: Option<Text>)

  type Pairs = seq<(Text, Text)>

  /** The URL library's coding of query pairs, which the model leaves open. */
  datatype Codec = Codec(encode: Pairs -> Text, decode: Text -> Pairs) {
    ghost predicate Good() {
      && (forall pairs :: decode(encode(pairs)) == pairs)
      && (forall pairs :: HASH !in encode(pairs))
      && (forall pairs :: encode(pairs) == [] <==> pairs == [])
    }
  }

  predicate IsControl(b: byte) {
    b < 32 || b >= 127
  }

  /** `USERINFO_ENCODE_SET`; bytes outside ASCII are always encoded. */
  predicate UserinfoSet(b: byte) {
    IsControl(b) || b in [32, 34, HASH, 60, 62, QUESTION, AT, OPEN, 92, CLOSE, 94, 96, 123, 124, 125, PERCENT, COLON]
  }

  /** `FRAGMENT_ENCODE_SET`. */
  predicate FragmentSet(b: byte) {
    IsControl(b) || b in [32, 34, PERCENT, 60, 62, 96]
  }

  predicate PercentSet(b: byte) {
    b == PERCENT
  }

  // ---- printing ----

  function Userinfo(a: Args): Text {
    if a.password == [] then [] else Encode(a.password, UserinfoSet) + [AT]
  }

  /** A host with a colon goes in brackets; its percent signs are encoded. */
  function HostPort(a: Args): Text {
    var host := Encode(a.host, PercentSet);
    (if COLON in host then [OPEN] + host + [CLOSE] else host)
    + (if a.port == DEFAULT_PORT then [] else [COLON] + Decimal(a.port))
  }

  function QueryPairs(a: Args): Pairs {
    (if a.sni.Some? then [(Ascii("sni"), a.sni.value)] else [])
    + (if a.insecure == Some(true) then [(Ascii("insecure"), Ascii("1"))] else [])
    + (if a.clientId.Some? then [(Ascii("client_id"), Uuids.Print(a.clientId.value))] else [])
  }

  function Tail(query: Text, fragment: Option<Text>): Text {
    (if query == [] then [] else [SLASH, QUESTION] + query)
    + (if fragment.Some? then [HASH] + Encode(fragment.value, FragmentSet) else [])
  }

  function PrintUri(a: Args, codec: Codec): Text {
    SCHEME + Userinfo(a) + HostPort(a) + Tail(codec.encode(QueryPairs(a)), a.fragment)
  }

  method FormatHost(a: Args) returns (host: Text)
    ensures host == HostPort(a)
  {
    host := a.host;
    if PERCENT in host {
      host := Encode(host, PercentSet);
    } else {
      NothingToEncode(host);
    }
    if COLON in host {
      host := [OPEN] + host + [CLOSE];
    }
    if a.port != DEFAULT_PORT {
      host := host + ([COLON] + Decimal(a.port));
    }
  }

  method FormatQuery(a: Args, codec: Codec) returns (query: Text)
    ensures query == codec.encode(QueryPairs(a))
  {
    hide Ascii, Uuids.Print;
    var pairs: Pairs := [];
    if a.sni.Some? {
      pairs := pairs + [(Ascii("sni"), a.sni.value)];
    }
    if a.insecure == Some(true) {
      pairs := pairs + [(Ascii("insecure"), Ascii("1"))];
    }
    if a.clientId.Some? {
      pairs := pairs + [(Ascii("client_id"), Uuids.Print(a.clientId.value))];
    }
    assert pairs == QueryPairs(a);
    query := codec.encode(pairs);
  }

  /** `format_url`, which pushes one part after the other. */
  method FormatUrl(a: Args, codec: Codec) returns (uri: Text)
    ensures uri == PrintUri(a, codec)
  {
    hide HostPort, QueryPairs, Encode;
    var host := FormatHost(a);
    uri := SCHEME;
    if a.password != [] {
      uri := uri + Encode(a.password, UserinfoSet);
      uri := uri + [AT];
    }
    assert uri == SCHEME + Userinfo(a);
    uri := uri + host;
    var query := FormatQuery(a, codec);
    ghost var front := uri;
    if query != [] {
      uri := uri + [SLASH, QUESTION];
      uri := uri + query;
    }
    if a.fragment.Some? {
      uri := uri + [HASH];
      uri := uri + Encode(a.fragment.value, FragmentSet);
    }
    assert uri == front + Tail(query, a.fragment);
  }

  lemma {:induction false} NothingToEncode(t: Text)
    requires PERCENT !in t
    ensures Encode(t, PercentSet) == t
  {
    if t != [] {
      NothingToEncode(t[1..]);
      assert t == [t[0]] + t[1..];
    }
  }

  // ---- parsing ----

  datatype UrlError = WrongScheme | NoHost | InvalidHost | InvalidPort | InvalidQuery

  predicate EndsAuthority(b: byte) {
    b == SLASH || b == QUESTION || b == HASH
  }

  /** Where the authority ends: at the first slash, question mark or hash sign. */
  function AuthorityEnd(t: Text): (k: nat)
    ensures k <= |t|
  {
    if t == [] || EndsAuthority(t[0]) then 0 else 1 + AuthorityEnd(t[1..])
  }

  /** `rsplit_once`: at the last `c`. */
  function RSplitOnce(t: Text, c: byte): Option<(Text, Text)> {
    if t == [] then None
    else
      var n := |t| - 1;
      if t[n] == c then Some((t[..n], []))
      else
        match RSplitOnce(t[..n], c)
        case None => None
        case Some((front, back)) => Some((front, back + [t[n]]))
  }

  function StripScheme(raw: Text): Option<Text> {
    if SCHEME <= raw then Some(raw[|SCHEME|..]) else None
  }

  /** `is_ipv6_zone_url`: brackets with a percent sign in the authority's host. */
  function IsZoneUrl(raw: Text): bool {
    var text := if SCHEME <= raw then raw[|SCHEME|..] else raw;
    var authority := text[..AuthorityEnd(text)];
    var host := HostOf(authority);
    var start := Find(host, OPEN);
    start < |host| &&
    var end := Find(host[start..], CLOSE);
    end < |host[start..]| && PERCENT in host[start..start + end]
  }

  function HostOf(authority: Text): Text {
    match RSplitOnce(authority, AT)
    case None => authority
    case Some((_, host)) => host
  }

  function UserinfoOf(authority: Text): Text {
    match RSplitOnce(authority, AT)
    case None => []
    case Some((userinfo, _)) => userinfo
  }

  /** The user name, or what follows the last colon when there is no user name. */
  function EncodedPassword(userinfo: Text): Text {
    match RSplitOnce(userinfo, COLON)
    case None => userinfo
    case Some((username, password)) => if username == [] then password else username
  }

  function PortOf(afterHost: Text): Option<nat> {
    if afterHost != [] && afterHost[0] == COLON then
      var text := afterHost[1..];
      ParseUnsigned(text[..AuthorityEnd(text)], 0xFFFF)
    else Some(DEFAULT_PORT)
  }

  function QueryOf(rest: Text): Text {
    match SplitOnce(rest, QUESTION)
    case None => []
    case Some((_, query)) => query[..Find(query, HASH)]
  }

  function FragmentOf(rest: Text): Option<Text> {
    match SplitOnce(rest, HASH)
    case None => None
    case Some((_, fragment)) =>
      var text := Decode(fragment);
      if text == [] then None else Some(text)
  }

  datatype Parsed = Parsed(host: Text, port: nat, password: Text, query: Text, fragment: Option<Text>)

  /** `parse_ipv6_zone_url` up to the reading of the query pairs. */
  function ParseZone(raw: Text): Result<Parsed, UrlError> {
    match StripScheme(raw)
    case None => Err(WrongScheme)
    case Some(text) =>
      var end := AuthorityEnd(text);
      ParseParts(text[..end], text[end..])
  }

  function ParseParts(authority: Text, rest: Text): Result<Parsed, UrlError> {
    var hostPort := HostOf(authority);
    var start := Find(hostPort, OPEN);
    if start >= |hostPort| then Err(NoHost)
    else
      var inside := hostPort[start + 1..];
      var length := Find(inside, CLOSE);
      if length >= |inside| then Err(InvalidHost)
      else
        match PortOf(inside[length + 1..])
        case None => Err(InvalidPort)
        case Some(port) =>
          Ok(Parsed(Decode(inside[..length]), port, Decode(EncodedPassword(UserinfoOf(authority))),
                    QueryOf(rest), FragmentOf(rest)))
  }

  // ---- the query pairs ----

  /** One pair read by `build_client_args`. */
  function ReadPair(a: Args, pair: (Text, Text)): Option<Args> {
    if pair.0 == Ascii("password") then None
    else if pair.0 == Ascii("sni") then Some(a.(sni := Some(pair.1)))
    else if pair.0 == Ascii("insecure") then
      if pair.1 == Ascii("1") then Some(a.(insecure := Some(true)))
      else if pair.1 == Ascii("0") then Some(a.(insecure := Some(false)))
      else None
    else if pair.0 == Ascii("client_id") && pair.1 != [] then
      match Uuids.Parse(pair.1)
      case None => None
      case Some(id) => Some(a.(clientId := Some(id)))
    else Some(a)
  }

  function ReadPairs(a: Args, pairs: Pairs): Option<Args> {
    if pairs == [] then Some(a)
    else
      match ReadPairs(a, pairs[..|pairs| - 1])
      case None => None
      case Some(args) => ReadPair(args, pairs[|pairs| - 1])
  }

  lemma {:induction false} ReadPairsFailed(a: Args, pairs: Pairs, i: nat)
    requires i <= |pairs| && ReadPairs(a, pairs[..i]).None?
    ensures ReadPairs(a, pairs).None?
    decreases |pairs|
  {
    if i == |pairs| {
      assert pairs[..i] == pairs;
    } else {
      assert pairs[..|pairs| - 1][..i] == pairs[..i];
      ReadPairsFailed(a, pairs[..|pairs| - 1], i);
    }
  }

  /** The loop of `build_client_args`. */
  method BuildClientArgs(start: Args, pairs: Pairs) returns (r: Option<Args>)
    ensures r == ReadPairs(start, pairs)
  {
    var args := start;
    for i := 0 to |pairs|
      invariant ReadPairs(start, pairs[..i]) == Some(args)
    {
      assert pairs[..i + 1][..i] == pairs[..i];
      var next := ReadPair(args, pairs[i]);
      if next.None? {
        ReadPairsFailed(start, pairs, i + 1);
        return None;
      }
      args := next.value;
    }
    assert pairs[..|pairs|] == pairs;
    return Some(args);
  }

  /** `parse_ipv6_zone_url`. */
  function ParseUri(raw: Text, codec: Codec): Result<Args, UrlError> {
    match ParseZone(raw)
    case Err(e) => Err(e)
    case Ok(p) =>
      match ReadPairs(Args(p.host, p.port, p.password, None, None, None, p.fragment), codec.decode(p.query))
      case None => Err(InvalidQuery)
      case Some(a) => Ok(a)
  }
}
