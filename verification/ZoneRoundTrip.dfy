/**
 * Printing a client URI with an IPv6 zone and parsing it again: host, port, password and fragment
 * come back whenever the URI is recognised, and all arguments do exactly when no part of the
 * fragment is read as a query that sets one.
 */
module ZoneRoundTrips {
  import opened Wrappers
  import opened Bytes
  import opened Texts
  import opened Uuids
  import opened Percents
  import opened ZoneUris

  /** A host with a zone, free of brackets and of the characters that delimit an authority. */
  predicate ZoneHost(host: Text) {
    && COLON in host && PERCENT in host
    && SLASH !in host && QUESTION !in host && HASH !in host && AT !in host && OPEN !in host && CLOSE !in host
  }

  // ---- searching ----

  lemma {:induction false} AuthorityEndIs(front: Text, rest: Text)
    requires forall b :: b in front ==> !EndsAuthority(b)
    requires rest == [] || EndsAuthority(rest[0])
    ensures AuthorityEnd(front + rest) == |front|
  {
    if front == [] {
      assert front + rest == rest;
    } else {
      assert (front + rest)[1..] == front[1..] + rest;
      AuthorityEndIs(front[1..], rest);
    }
  }

  /** The authority ends no later than at a character that ends it. */
  lemma {:induction false} AuthorityEndsBy(t: Text, k: nat)
    requires k < |t| && EndsAuthority(t[k])
    ensures AuthorityEnd(t) <= k
  {
    if k > 0 {
      AuthorityEndsBy(t[1..], k - 1);
    }
  }

  lemma {:induction false} RSplitOnceIs(front: Text, c: byte, back: Text)
    requires c !in back
    ensures RSplitOnce(front + [c] + back, c) == Some((front, back))
  {
    var t := front + [c] + back;
    var n := |t| - 1;
    if back == [] {
      assert t[..n] == front;
    } else {
      var m := |back| - 1;
      assert back == back[..m] + [back[m]];
      assert t[..n] == front + [c] + back[..m] && t[n] == back[m];
      RSplitOnceIs(front, c, back[..m]);
    }
  }

  lemma {:induction false} RSplitOnceNone(t: Text, c: byte)
    requires c !in t
    ensures RSplitOnce(t, c) == None
  {
    if t != [] {
      RSplitOnceNone(t[..|t| - 1], c);
    }
  }

  // ---- the parts of a printed URI ----

  lemma {:induction false} PercentStays(t: Text)
    requires PERCENT in t
    ensures PERCENT in Encode(t, PercentSet)
  {
    if t[0] != PERCENT {
      assert t == [t[0]] + t[1..];
      PercentStays(t[1..]);
    }
  }

  lemma EncodedHost(host: Text)
    requires ZoneHost(host)
    ensures ZoneHost(Encode(host, PercentSet)) && Decode(Encode(host, PercentSet)) == host
  {
    hide Encode, Decode;
    EncodedDelimiters(host, PercentSet, COLON);
    EncodedDelimiters(host, PercentSet, SLASH);
    EncodedDelimiters(host, PercentSet, QUESTION);
    EncodedDelimiters(host, PercentSet, HASH);
    EncodedDelimiters(host, PercentSet, AT);
    EncodedDelimiters(host, PercentSet, OPEN);
    EncodedDelimiters(host, PercentSet, CLOSE);
    PercentStays(host);
    DecodeEncode(host, PercentSet);
  }

  /** An encoded password keeps its slashes and loses every other delimiter. */
  lemma EncodedUser(password: Text)
    ensures var t := Encode(password, UserinfoSet);
            && QUESTION !in t && HASH !in t && AT !in t && COLON !in t && OPEN !in t
            && (SLASH in t <==> SLASH in password)
            && Decode(t) == password
  {
    hide Encode, Decode;
    EncodedDelimiters(password, UserinfoSet, QUESTION);
    EncodedDelimiters(password, UserinfoSet, HASH);
    EncodedDelimiters(password, UserinfoSet, AT);
    EncodedDelimiters(password, UserinfoSet, COLON);
    EncodedDelimiters(password, UserinfoSet, OPEN);
    EncodedDelimiters(password, UserinfoSet, SLASH);
    DecodeEncode(password, UserinfoSet);
  }

  function PortPart(port: u16): Text {
    if port == DEFAULT_PORT then [] else [COLON] + Decimal(port)
  }

  lemma PortPartIs(port: u16)
    ensures forall b :: b in PortPart(port) ==> IsDigit(b) || b == COLON
    ensures PortOf(PortPart(port)) == Some(port)
  {
    hide Decimal, ParseUnsigned;
    if port != DEFAULT_PORT {
      var text := Decimal(port);
      AuthorityEndIs(text, []);
      assert text + [] == text && text[..|text|] == text;
      assert PortPart(port)[1..] == text;
      DecimalParses(port, 0xFFFF);
    }
  }

  lemma HostPortIs(a: Args)
    requires ZoneHost(a.host)
    ensures var host := Encode(a.host, PercentSet);
            HostPort(a) == [OPEN] + host + [CLOSE] + PortPart(a.port)
    ensures forall b :: b in HostPort(a) ==> !EndsAuthority(b) && b != AT
  {
    hide Encode, Decode, Decimal;
    EncodedHost(a.host);
    PortPartIs(a.port);
  }

  /** The printed authority is taken apart where it was put together. */
  lemma AuthoritySplits(a: Args)
    requires ZoneHost(a.host)
    ensures var authority := Userinfo(a) + HostPort(a);
            && HostOf(authority) == HostPort(a)
            && Decode(EncodedPassword(UserinfoOf(authority))) == a.password
  {
    hide Encode, Decode, HostPort;
    var user := Encode(a.password, UserinfoSet);
    EncodedUser(a.password);
    HostPortIs(a);
    if a.password == [] {
      assert Userinfo(a) + HostPort(a) == HostPort(a);
      RSplitOnceNone(HostPort(a), AT);
      assert RSplitOnce([], COLON) == None;
      assert Decode([]) == [] by { NothingDecodes(); }
    } else {
      assert Userinfo(a) + HostPort(a) == user + [AT] + HostPort(a);
      RSplitOnceIs(user, AT, HostPort(a));
      RSplitOnceNone(user, COLON);
    }
  }

  lemma NothingDecodes()
    ensures Decode([]) == []
  {
  }

  lemma TailStarts(query: Text, fragment: Option<Text>)
    ensures Tail(query, fragment) == [] || EndsAuthority(Tail(query, fragment)[0])
  {
  }

  lemma AuthorityIsPlain(a: Args)
    requires ZoneHost(a.host) && SLASH !in a.password
    ensures forall b :: b in Userinfo(a) + HostPort(a) ==> !EndsAuthority(b)
  {
    hide Encode, HostPort;
    EncodedUser(a.password);
    HostPortIs(a);
  }

  lemma PrintedText(a: Args, codec: Codec)
    ensures var text := Userinfo(a) + HostPort(a) + Tail(codec.encode(QueryPairs(a)), a.fragment);
            SCHEME <= PrintUri(a, codec) && PrintUri(a, codec)[|SCHEME|..] == text
  {
    hide Userinfo, HostPort, Tail, QueryPairs;
    var text := Userinfo(a) + HostPort(a) + Tail(codec.encode(QueryPairs(a)), a.fragment);
    assert PrintUri(a, codec) == SCHEME + text;
  }

  lemma PrintedAuthority(a: Args, codec: Codec)
    requires ZoneHost(a.host) && SLASH !in a.password
    ensures var text := PrintUri(a, codec)[|SCHEME|..];
            var end := AuthorityEnd(text);
            && text[..end] == Userinfo(a) + HostPort(a)
            && text[end..] == Tail(codec.encode(QueryPairs(a)), a.fragment)
  {
    hide Userinfo, HostPort, Tail, QueryPairs, PrintUri;
    PrintedText(a, codec);
    AuthorityIsPlain(a);
    TailStarts(codec.encode(QueryPairs(a)), a.fragment);
    AuthorityEndIs(Userinfo(a) + HostPort(a), Tail(codec.encode(QueryPairs(a)), a.fragment));
  }

  // ---- recognising a zone ----

  lemma ZoneInHost(a: Args)
    requires ZoneHost(a.host)
    ensures var host := HostPort(a);
            Find(host, OPEN) == 0 && Find(host, CLOSE) < |host| && PERCENT in host[..Find(host, CLOSE)]
    ensures HostPort(a)[1..] == Encode(a.host, PercentSet) + [CLOSE] + PortPart(a.port)
    ensures Find(HostPort(a)[1..], CLOSE) == |Encode(a.host, PercentSet)|
  {
    hide Encode, Decode, HostPort, PortPart, Find;
    EncodedHost(a.host);
    HostPortIs(a);
    var host := Encode(a.host, PercentSet);
    var text := HostPort(a);
    assert text == [] + [OPEN] + (host + [CLOSE] + PortPart(a.port));
    FindIs([], OPEN, host + [CLOSE] + PortPart(a.port));
    assert text == ([OPEN] + host) + [CLOSE] + PortPart(a.port);
    FindIs([OPEN] + host, CLOSE, PortPart(a.port));
    FindIs(host, CLOSE, PortPart(a.port));
    assert text[..|host| + 1] == [OPEN] + host;
  }

  /** A printed zone URI is recognised as one if and only if its password has no slash. */
  lemma RecognisedIff(a: Args, codec: Codec)
    requires ZoneHost(a.host)
    ensures IsZoneUrl(PrintUri(a, codec)) <==> SLASH !in a.password
  {
    hide Userinfo, HostPort, Tail, QueryPairs, PrintUri, AuthorityEnd, HostOf, Find;
    PrintedText(a, codec);
    var text := PrintUri(a, codec)[|SCHEME|..];
    var authority := text[..AuthorityEnd(text)];
    if SLASH in a.password {
      SlashCutsAuthority(a, codec);
      var host := HostOf(authority);
      FindNone(host, OPEN);
    } else {
      PrintedAuthority(a, codec);
      AuthoritySplits(a);
      ZoneInHost(a);
      var host := HostPort(a);
      assert host[0..] == host;
    }
  }

  /** With a slash in the password the authority ends inside it, before any bracket. */
  lemma SlashCutsAuthority(a: Args, codec: Codec)
    requires SLASH in a.password
    ensures var text := PrintUri(a, codec)[|SCHEME|..];
            OPEN !in HostOf(text[..AuthorityEnd(text)])
  {
    hide Encode, HostPort, Tail, QueryPairs, PrintUri;
    PrintedText(a, codec);
    var text := PrintUri(a, codec)[|SCHEME|..];
    var user := Encode(a.password, UserinfoSet);
    EncodedUser(a.password);
    var k :| 0 <= k < |user| && user[k] == SLASH;
    assert text == user + ([AT] + HostPort(a) + Tail(codec.encode(QueryPairs(a)), a.fragment));
    AuthorityEndsBy(text, k);
    var authority := text[..AuthorityEnd(text)];
    assert authority == user[..AuthorityEnd(text)];
    RSplitOnceNone(authority, AT);
  }

  // ---- query and fragment ----

  lemma FragmentComesBack(query: Text, fragment: Option<Text>)
    requires HASH !in query
    ensures FragmentOf(Tail(query, fragment)) == if fragment == Some([]) then None else fragment
  {
    hide Encode, Decode, Find;
    var front := if query == [] then [] else [SLASH, QUESTION] + query;
    match fragment
    case None =>
      assert Tail(query, fragment) == front;
      FindNone(front, HASH);
    case Some(text) =>
      assert Tail(query, fragment) == front + [HASH] + Encode(text, FragmentSet);
      SplitOnceIs(front, HASH, Encode(text, FragmentSet));
      DecodeEncode(text, FragmentSet);
  }

  /** What is read as a query when there is none: the fragment's text from its first question mark to a hash sign. */
  function PseudoQuery(fragment: Option<Text>): Text {
    if fragment.None? then []
    else
      match SplitOnce(fragment.value, QUESTION)
      case None => []
      case Some((_, text)) => Encode(text[..Find(text, HASH)], FragmentSet)
  }

  /** A query comes back; without one, the fragment's pseudo-query is read. */
  lemma QueryComesBack(query: Text, fragment: Option<Text>)
    requires HASH !in query
    ensures QueryOf(Tail(query, fragment)) == if query != [] then query else PseudoQuery(fragment)
  {
    hide Encode, Decode, Find;
    var frag := if fragment.Some? then [HASH] + Encode(fragment.value, FragmentSet) else [];
    if query != [] {
      assert Tail(query, fragment) == [SLASH] + [QUESTION] + (query + frag);
      SplitOnceIs([SLASH], QUESTION, query + frag);
      if fragment.Some? {
        assert query + frag == query + [HASH] + Encode(fragment.value, FragmentSet);
        FindIs(query, HASH, Encode(fragment.value, FragmentSet));
      } else {
        assert query + frag == query;
        FindNone(query, HASH);
      }
    } else if fragment.None? {
      assert Tail(query, fragment) == [];
      FindNone([], QUESTION);
    } else {
      assert Tail(query, fragment) == frag;
      FragmentAsQuery(fragment.value);
    }
  }

  lemma FragmentAsQuery(text: Text)
    ensures QueryOf([HASH] + Encode(text, FragmentSet)) == PseudoQuery(Some(text))
  {
    hide Encode, Find, QueryOf, PseudoQuery;
    if QUESTION in text {
      QuestionInFragment(text);
    } else {
      NoQuestionInFragment(text);
    }
  }

  lemma QuestionInFragment(text: Text)
    requires QUESTION in text
    ensures QueryOf([HASH] + Encode(text, FragmentSet)) == PseudoQuery(Some(text))
  {
    hide Encode, Find, SplitOnce;
    var k := Find(text, QUESTION);
    FoundIn(text, QUESTION);
    var front, back := text[..k], text[k + 1..];
    assert text == front + [QUESTION] + back;
    SplitOnceIs(front, QUESTION, back);
    EncodeAround(front, QUESTION, back, FragmentSet);
    EncodedDelimiters(front, FragmentSet, QUESTION);
    assert [HASH] + Encode(text, FragmentSet) ==
          ([HASH] + Encode(front, FragmentSet)) + [QUESTION] + Encode(back, FragmentSet);
    SplitOnceIs([HASH] + Encode(front, FragmentSet), QUESTION, Encode(back, FragmentSet));
    UpToHash(back);
  }

  lemma NoQuestionInFragment(text: Text)
    requires QUESTION !in text
    ensures QueryOf([HASH] + Encode(text, FragmentSet)) == PseudoQuery(Some(text))
  {
    hide Encode, Find;
    EncodedDelimiters(text, FragmentSet, QUESTION);
    FindNone(text, QUESTION);
    FindNone([HASH] + Encode(text, FragmentSet), QUESTION);
  }

  lemma FoundIn(t: Text, c: byte)
    requires c in t
    ensures Find(t, c) < |t|
  {
    assert t[..|t|] == t;
  }

  lemma UpToHash(text: Text)
    ensures var encoded := Encode(text, FragmentSet);
            encoded[..Find(encoded, HASH)] == Encode(text[..Find(text, HASH)], FragmentSet)
  {
    hide Encode, Find;
    if HASH in text {
      FoundIn(text, HASH);
      var k := Find(text, HASH);
      var front, back := text[..k], text[k + 1..];
      assert text == front + [HASH] + back;
      EncodeAround(front, HASH, back, FragmentSet);
      EncodedDelimiters(front, FragmentSet, HASH);
      FindIs(Encode(front, FragmentSet), HASH, Encode(back, FragmentSet));
    } else {
      EncodedDelimiters(text, FragmentSet, HASH);
      FindNone(text, HASH);
      FindNone(Encode(text, FragmentSet), HASH);
      assert text[..|text|] == text;
      assert Encode(text, FragmentSet)[..|Encode(text, FragmentSet)|] == Encode(text, FragmentSet);
    }
  }

  // ---- pairs that change nothing ----

  /** A pair that `build_client_args` passes over. */
  predicate Ignored(pair: (Text, Text)) {
    && pair.0 != Ascii("password") && pair.0 != Ascii("sni") && pair.0 != Ascii("insecure")
    && (pair.0 == Ascii("client_id") ==> pair.1 == [])
  }

  /** No argument that the query can set is set. */
  predicate Unset(a: Args) {
    a.sni.None? && a.insecure.None? && a.clientId.None?
  }

  lemma ReadPairEffect(a: Args, pair: (Text, Text))
    ensures Ignored(pair) ==> ReadPair(a, pair) == Some(a)
    ensures !Ignored(pair) && ReadPair(a, pair).Some? ==> !Unset(ReadPair(a, pair).value)
    ensures !Unset(a) && ReadPair(a, pair).Some? ==> !Unset(ReadPair(a, pair).value)
  {
    hide Ascii, Uuids.Parse;
  }

  /** Reading pairs leaves unset arguments as they are if and only if it passes over every pair. */
  lemma {:induction false} UnchangedIff(start: Args, pairs: Pairs)
    requires Unset(start)
    ensures ReadPairs(start, pairs) == Some(start) <==> forall i :: 0 <= i < |pairs| ==> Ignored(pairs[i])
    ensures ReadPairs(start, pairs).Some? && ReadPairs(start, pairs) != Some(start) ==>
              !Unset(ReadPairs(start, pairs).value)
    decreases |pairs|
  {
    hide Ignored, ReadPair, Unset;
    if pairs != [] {
      var n := |pairs| - 1;
      UnchangedIff(start, pairs[..n]);
      var before := ReadPairs(start, pairs[..n]);
      if before.Some? {
        ReadPairEffect(before.value, pairs[n]);
      }
      assert forall i :: 0 <= i < n ==> pairs[..n][i] == pairs[i];
    }
  }

  // ---- the round trip ----

  /** Host, port, password and fragment come back for every zone host and password without a slash. */
  lemma ZoneRoundTrip(a: Args, codec: Codec)
    requires ZoneHost(a.host) && SLASH !in a.password && codec.Good()
    ensures var query := codec.encode(QueryPairs(a));
            ParseZone(PrintUri(a, codec)) == Ok(Parsed(
              a.host, a.port, a.password,
              if query != [] then query else PseudoQuery(a.fragment),
              if a.fragment == Some([]) then None else a.fragment))
  {
    hide Encode, Decode, Userinfo, HostPort, Tail, QueryPairs, PrintUri, Find, PortPart, PortOf, EncodedPassword,
      HostOf, UserinfoOf, QueryOf, FragmentOf, AuthorityEnd;
    var query := codec.encode(QueryPairs(a));
    PrintedText(a, codec);
    PrintedAuthority(a, codec);
    AuthoritySplits(a);
    ZoneInHost(a);
    EncodedHost(a.host);
    PortPartIs(a.port);
    QueryComesBack(query, a.fragment);
    FragmentComesBack(query, a.fragment);
    var inside := HostPort(a)[1..];
    var n := |Encode(a.host, PercentSet)|;
    assert inside[..n] == Encode(a.host, PercentSet) && inside[n + 1..] == PortPart(a.port);
  }

  lemma ReadPairsSnoc(start: Args, pairs: Pairs, pair: (Text, Text), args: Args)
    requires ReadPairs(start, pairs) == Some(args)
    ensures ReadPairs(start, pairs + [pair]) == ReadPair(args, pair)
  {
    hide ReadPair;
    assert (pairs + [pair])[..|pairs|] == pairs;
  }

  /** Each printed pair sets its own argument. */
  lemma ReadPrintedPair(args: Args, sni: Text, id: Uuid)
    ensures ReadPair(args, (Ascii("sni"), sni)) == Some(args.(sni := Some(sni)))
    ensures ReadPair(args, (Ascii("insecure"), Ascii("1"))) == Some(args.(insecure := Some(true)))
    ensures ReadPair(args, (Ascii("client_id"), Uuids.Print(id))) == Some(args.(clientId := Some(id)))
  {
    hide Uuids.Parse, Uuids.Print, Ascii;
    KeyLengths();
    ParsePrint(id);
  }

  /** The query pairs give back the arguments they were made from. */
  lemma PairsComeBack(start: Args, a: Args)
    requires start.sni == None && start.insecure == None && start.clientId == None
    ensures ReadPairs(start, QueryPairs(a))
         == Some(start.(
              sni := a.sni, insecure := if a.insecure == Some(true) then Some(true) else None, clientId := a.clientId))
  {
    hide ReadPair, Uuids.Print, Ascii, ReadPairs;
    var args, pairs: Pairs := start, [];
    assert ReadPairs(start, []) == Some(start) by { NoPairs(start); }
    if a.sni.Some? {
      ReadPrintedPair(args, a.sni.value, Zeros(UUID_BYTES));
      ReadPairsSnoc(start, pairs, (Ascii("sni"), a.sni.value), args);
      args, pairs := args.(sni := a.sni), pairs + [(Ascii("sni"), a.sni.value)];
    }
    if a.insecure == Some(true) {
      ReadPrintedPair(args, [], Zeros(UUID_BYTES));
      ReadPairsSnoc(start, pairs, (Ascii("insecure"), Ascii("1")), args);
      args, pairs := args.(insecure := Some(true)), pairs + [(Ascii("insecure"), Ascii("1"))];
    }
    if a.clientId.Some? {
      var pair := (Ascii("client_id"), Uuids.Print(a.clientId.value));
      ReadPrintedPair(args, [], a.clientId.value);
      ReadPairsSnoc(start, pairs, pair, args);
      args, pairs := args.(clientId := a.clientId), pairs + [pair];
    }
    assert pairs == QueryPairs(a);
  }

  lemma {:induction false} RSplitParts(t: Text, c: byte)
    ensures RSplitOnce(t, c).Some? ==>
              var (front, back) := RSplitOnce(t, c).value;
              t == front + [c] + back && c !in back
    ensures RSplitOnce(t, c).None? <==> c !in t
    decreases |t|
  {
    if t != [] {
      var n := |t| - 1;
      RSplitParts(t[..n], c);
      assert t == t[..n] + [t[n]];
    }
  }

  /** The host part is what follows the last at sign. */
  lemma HostFollowsUser(authority: Text) returns (user: Text)
    ensures authority == user + HostOf(authority) && AT !in HostOf(authority)
    ensures user == [] || user[|user| - 1] == AT
  {
    RSplitParts(authority, AT);
    user := authority[..|authority| - |HostOf(authority)|];
  }

  /** An authority with a bracketed host: user part, anything without brackets, host, and what follows. */
  ghost predicate Bracketed(authority: Text, user: Text, before: Text, host: Text, after: Text) {
    && authority == user + before + [OPEN] + host + [CLOSE] + after
    && (user == [] || user[|user| - 1] == AT)
    && AT !in before && AT !in host && AT !in after && OPEN !in before && CLOSE !in host
  }

  /** The port is the number after a colon that follows the host, and 443 if none follows. */
  ghost predicate PortFollows(after: Text, port: nat) {
    if after != [] && after[0] == COLON
    then ParseUnsigned(after[1..][..AuthorityEnd(after[1..])], 0xFFFF) == Some(port)
    else port == 443
  }

  lemma AcceptedParts(authority: Text, rest: Text) returns (user: Text, before: Text, host: Text, after: Text)
    requires ParseParts(authority, rest).Ok?
    ensures Bracketed(authority, user, before, host, after)
    ensures ParseParts(authority, rest).value.host == Decode(host)
    ensures PortFollows(after, ParseParts(authority, rest).value.port)
  {
    hide Decode, QueryOf, FragmentOf, EncodedPassword, UserinfoOf, ParseUnsigned, HostOf, AuthorityEnd, Find, Bracketed;
    user := HostFollowsUser(authority);
    var hostPort := HostOf(authority);
    var start := Find(hostPort, OPEN);
    before := hostPort[..start];
    var inside := hostPort[start + 1..];
    var length := Find(inside, CLOSE);
    host := inside[..length];
    after := inside[length + 1..];
    JoinParts(authority, user, hostPort, start, length);
  }

  lemma JoinParts(authority: Text, user: Text, hostPort: Text, start: nat, length: nat)
    requires authority == user + hostPort && AT !in hostPort && (user == [] || user[|user| - 1] == AT)
    requires start < |hostPort| && hostPort[start] == OPEN && OPEN !in hostPort[..start]
    requires start + 1 + length < |hostPort| && hostPort[start + 1..][length] == CLOSE
    requires CLOSE !in hostPort[start + 1..][..length]
    ensures var inside := hostPort[start + 1..];
            Bracketed(authority, user, hostPort[..start], inside[..length], inside[length + 1..])
  {
    var inside := hostPort[start + 1..];
    CutAt(hostPort, start);
    CutAt(inside, length);
    Regroup(user, hostPort[..start], [OPEN], inside[..length], [CLOSE], inside[length + 1..]);
  }

  lemma CutAt(t: Text, k: nat)
    requires k < |t|
    ensures t == t[..k] + [t[k]] + t[k + 1..]
    ensures AT !in t ==> AT !in t[..k] && AT !in t[k + 1..]
  {
  }

  lemma Regroup(a: Text, b: Text, c: Text, d: Text, e: Text, f: Text)
    ensures a + (b + c + (d + e + f)) == a + b + c + d + e + f
  {
  }

  /** The form of a URI with a zone, and what of it is the host and the port. */
  ghost predicate ZoneForm(raw: Text, authority: Text, rest: Text, host: Text, after: Text, p: Parsed) {
    && raw == Ascii("anytls://") + authority + rest && (rest == [] || EndsAuthority(rest[0]))
    && (exists user, before :: Bracketed(authority, user, before, host, after))
    && p.host == Decode(host) && PortFollows(after, p.port)
  }

  /**
   * A URI that the zone parser accepts has the form it should have, and its parts are what is
   * returned: the host in the first brackets after the last at sign, the number after them as the
   * port, or 443 if no colon follows.
   */
  lemma AcceptedZoneForm(raw: Text, p: Parsed) returns (authority: Text, rest: Text, host: Text, after: Text)
    requires ParseZone(raw) == Ok(p)
    ensures ZoneForm(raw, authority, rest, host, after, p)
  {
    hide Decode, ParseParts, Bracketed, PortFollows;
    var text := raw[|SCHEME|..];
    var end := AuthorityEnd(text);
    RestEnds(text);
    authority, rest := text[..end], text[end..];
    assert raw == SCHEME + authority + rest;
    var user, before;
    user, before, host, after := AcceptedParts(authority, rest);
  }

  lemma {:induction false} RestEnds(t: Text)
    ensures AuthorityEnd(t) < |t| ==> EndsAuthority(t[AuthorityEnd(t)])
  {
    if t != [] && !EndsAuthority(t[0]) {
      RestEnds(t[1..]);
    }
  }

  /** A zone is printed as RFC 6874 has it: in brackets, its percent sign as "%25". */
  lemma ZoneIsPrintedEncoded(a: Args, address: Text, zone: Text, codec: Codec)
    requires a.host == address + [PERCENT] + zone && COLON in address && PERCENT !in address && PERCENT !in zone
    ensures Ascii("anytls://") + Userinfo(a) + Ascii("[") + address + Ascii("%25") + zone + Ascii("]")
            + (if a.port == 443 then [] else Ascii(":") + Decimal(a.port))
            <= PrintUri(a, codec)
  {
    hide Encode, Decimal, Userinfo, QueryPairs, Tail;
    EncodeAppend(address + [PERCENT], zone, PercentSet);
    EncodeAppend(address, [PERCENT], PercentSet);
    NothingToEncode(address);
    NothingToEncode(zone);
    EncodedPercent();
    assert Encode(a.host, PercentSet) == address + Ascii("%25") + zone;
    assert Ascii("[") == [OPEN] && Ascii("]") == [CLOSE] && Ascii(":") == [COLON];
    assert COLON in Encode(a.host, PercentSet);
    PrintsAuthority(a, codec);
  }

  lemma EncodedPercent()
    ensures Encode([PERCENT], PercentSet) == Ascii("%25")
  {
    assert [PERCENT][1..] == [];
  }

  lemma PrintsAuthority(a: Args, codec: Codec)
    ensures SCHEME + Userinfo(a) + HostPort(a) <= PrintUri(a, codec)
  {
  }

  lemma NoPairs(start: Args)
    ensures ReadPairs(start, []) == Some(start)
  {
  }

  lemma KeyLengths()
    ensures Ascii("sni") != Ascii("password") && Ascii("insecure") != Ascii("password")
    ensures Ascii("client_id") != Ascii("password") && Ascii("insecure") != Ascii("sni")
    ensures Ascii("client_id") != Ascii("sni") && Ascii("client_id") != Ascii("insecure")
  {
    assert |Ascii("sni")| == 3 && |Ascii("client_id")| == 9 && |Ascii("insecure")| == 8 && |Ascii("password")| == 8;
    assert Ascii("insecure")[0] == 105 && Ascii("password")[0] == 112;
  }

  /** What comes back of the arguments at best: an insecure flag that is off and an empty fragment are not printed. */
  function Printed(a: Args): Args {
    a.(insecure := if a.insecure == Some(true) then Some(true) else None,
       fragment := if a.fragment == Some([]) then None else a.fragment)
  }

  /** With a query, print then parse gives all arguments back. */
  lemma UriRoundTrip(a: Args, codec: Codec)
    requires ZoneHost(a.host) && SLASH !in a.password && codec.Good() && QueryPairs(a) != []
    ensures ParseUri(PrintUri(a, codec), codec) == Ok(Printed(a))
  {
    hide ZoneHost, PrintUri, ParseZone, QueryPairs, Tail, QueryOf, ReadPairs, PseudoQuery;
    ZoneRoundTrip(a, codec);
    var query := codec.encode(QueryPairs(a));
    var p := ParseZone(PrintUri(a, codec)).value;
    assert codec.decode(query) == QueryPairs(a);
    PairsComeBack(Args(p.host, p.port, p.password, None, None, None, p.fragment), a);
  }

  /**
   * Without a query, all arguments come back if and only if every pair that the pseudo-query of the
   * fragment decodes to is passed over: one that sets an argument, or is refused, breaks it.
   */
  lemma UriRoundTripIff(a: Args, codec: Codec)
    requires ZoneHost(a.host) && SLASH !in a.password && codec.Good() && QueryPairs(a) == []
    ensures ParseUri(PrintUri(a, codec), codec) == Ok(Printed(a)) <==>
            forall i :: 0 <= i < |codec.decode(PseudoQuery(a.fragment))| ==>
                  Ignored(codec.decode(PseudoQuery(a.fragment))[i])
  {
    hide ZoneHost, PrintUri, ParseZone, Tail, QueryOf, ReadPairs, PseudoQuery, Ignored, Ascii, Uuids.Print;
    ZoneRoundTrip(a, codec);
    assert codec.encode([]) == [];
    assert a.sni.None? && a.insecure != Some(true) && a.clientId.None?;
    var start := Args(a.host, a.port, a.password, None, None, None, Printed(a).fragment);
    assert start == Printed(a);
    UnchangedIff(start, codec.decode(PseudoQuery(a.fragment)));
  }

  /** Without a question mark there is no pseudo-query, and all arguments come back. */
  lemma NoQuestionRoundTrip(a: Args, codec: Codec)
    requires ZoneHost(a.host) && SLASH !in a.password && codec.Good()
    requires a.fragment.None? || QUESTION !in a.fragment.value
    ensures ParseUri(PrintUri(a, codec), codec) == Ok(Printed(a))
  {
    hide ZoneHost, PrintUri, ParseUri, QueryPairs;
    if QueryPairs(a) != [] {
      UriRoundTrip(a, codec);
    } else {
      assert PseudoQuery(a.fragment) == [] by {
        if a.fragment.Some? {
          FindNone(a.fragment.value, QUESTION);
        }
      }
      assert codec.encode([]) == [] && codec.decode(codec.encode([])) == [];
      UriRoundTripIff(a, codec);
    }
  }

  /** The fragment "?sni=x", for a query library that reads "sni=x" as that pair, comes back with a server name. */
  lemma FragmentBreaksRoundTrip(a: Args, codec: Codec)
    requires ZoneHost(a.host) && SLASH !in a.password && codec.Good() && QueryPairs(a) == []
    requires a.fragment == Some(Ascii("?sni=x")) && codec.decode(Ascii("sni=x")) == [(Ascii("sni"), Ascii("x"))]
    ensures ParseUri(PrintUri(a, codec), codec) != Ok(Printed(a))
  {
    hide ZoneHost, PrintUri, ParseUri, QueryPairs, Ascii, Encode, Find;
    UriRoundTripIff(a, codec);
    PseudoOfExample();
    assert !Ignored(codec.decode(Ascii("sni=x"))[0]);
  }

  lemma PseudoOfExample()
    ensures PseudoQuery(Some(Ascii("?sni=x"))) == Ascii("sni=x")
  {
    hide PseudoQuery, Ascii;
    var text := Ascii("sni=x");
    assert Ascii("?sni=x") == [QUESTION] + text;
    assert forall i :: 0 <= i < |text| ==> text[i] != HASH && !FragmentSet(text[i]);
    PseudoOfPlain(text);
  }

  lemma PseudoOfPlain(text: Text)
    requires forall i :: 0 <= i < |text| ==> text[i] != HASH && !FragmentSet(text[i])
    ensures PseudoQuery(Some([QUESTION] + text)) == text
  {
    hide Encode, Find;
    assert [QUESTION] + text == [] + [QUESTION] + text;
    SplitOnceIs([], QUESTION, text);
    FindNone(text, HASH);
    assert text[..|text|] == text;
    PlainFragment(text);
  }

  lemma {:induction false} PlainFragment(t: Text)
    requires forall i :: 0 <= i < |t| ==> !FragmentSet(t[i])
    ensures Encode(t, FragmentSet) == t
  {
    if t != [] {
      PlainFragment(t[1..]);
      assert t == [t[0]] + t[1..];
    }
  }
}
