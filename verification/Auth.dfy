/**
 * The authentication header (src/core/auth.rs and the accumulation loop of bin/server.rs): a
 * password digest, a padding length and padding that may begin with the client's id.
 */
module Auths {
  import opened Wrappers
  import opened Bytes
  import opened Texts
  import opened Uuids
  import opened Paddings
  import opened Readers
  import opened Writers

  const PASSWORD_DIGEST_SIZE: nat := 32
  const AUTH_HEADER_SIZE: nat := PASSWORD_DIGEST_SIZE + 2
  const U16_MAX: nat := 0xFFFF

  // ---- the client id in the padding ----

  predicate IsSpace(c: byte) {
    9 <= c <= 13 || c == 32
  }

  function TrimZeros(t: Text): Text {
    if t != [] && t[|t| - 1] == 0 then TrimZeros(t[..|t| - 1]) else t
  }

  function TrimEnd(t: Text): Text {
    if t != [] && IsSpace(t[|t| - 1]) then TrimEnd(t[..|t| - 1]) else t
  }

  function TrimStart(t: Text): Text {
    if t != [] && IsSpace(t[0]) then TrimStart(t[1..]) else t
  }

  /** `extract_client_id_from_padding`, on candidates of ASCII characters. */
  function ExtractClientId(padding: seq<byte>): Option<Uuid> {
    if |padding| < UUID_TEXT || !(forall i :: 0 <= i < UUID_TEXT ==> padding[i] < 128) then None
    else Parse(TrimStart(TrimEnd(TrimZeros(padding[..UUID_TEXT]))))
  }

  lemma {:induction false} TrimZerosOfZeros(n: nat)
    ensures TrimZeros(Zeros(n)) == []
  {
    if n > 0 {
      assert Zeros(n)[..n - 1] == Zeros(n - 1);
      TrimZerosOfZeros(n - 1);
    }
  }

  /** Padding that begins with a printed id gives that id back. */
  lemma ExtractsPrinted(u: Uuid, padding: seq<byte>)
    requires |padding| >= UUID_TEXT && padding[..UUID_TEXT] == Print(u)
    ensures ExtractClientId(padding) == Some(u)
  {
    hide Parse, Print;
    forall i | 0 <= i < UUID_TEXT
      ensures padding[i] > 32 && padding[i] < 128
    {
      PrintedIsPlain(u, i);
      assert padding[..UUID_TEXT][i] == padding[i];
    }
    ParsePrint(u);
  }

  /** Padding of zeros holds no id. */
  lemma ZerosHoldNoId(n: nat)
    ensures ExtractClientId(Zeros(n)) == None
  {
    if n >= UUID_TEXT {
      assert Zeros(n)[..UUID_TEXT] == Zeros(UUID_TEXT);
      TrimZerosOfZeros(UUID_TEXT);
    }
  }

  // ---- writing ----

  /** The padding length: the larger of the first drawn size, if any, and what a client id needs. */
  function PaddingLength(sizes: seq<int>, id: Option<Uuid>): (n: nat)
    ensures id.Some? ==> n >= UUID_TEXT
    ensures sizes != [] ==> n >= sizes[0]
    ensures n == (if id.Some? then UUID_TEXT else 0) || (sizes != [] && n == sizes[0])
  {
    var drawn := if sizes == [] then 0 else sizes[0];
    var least := if id.Some? then UUID_TEXT else 0;
    if drawn < least then least else drawn
  }

  function PaddingBytes(n: nat, id: Option<Uuid>): (bytes: seq<byte>)
    requires id.Some? ==> n >= UUID_TEXT
    ensures |bytes| == n
  {
    match id
    case None => Zeros(n)
    case Some(u) => Print(u) + Zeros(n - UUID_TEXT)
  }

  function AuthBytes(digest: seq<byte>, n: u16, id: Option<Uuid>): seq<byte>
    requires id.Some? ==> n >= UUID_TEXT
  {
    digest + ToBe16(n) + PaddingBytes(n, id)
  }

  /** The header: the digest, the padding length most significant byte first, the id if any, and zeros. */
  lemma AuthLayout(digest: seq<byte>, n: u16, id: Option<Uuid>)
    requires |digest| == PASSWORD_DIGEST_SIZE && (id.Some? ==> n >= UUID_TEXT)
    ensures var bytes := AuthBytes(digest, n, id);
            && |bytes| == 34 + n && bytes[..32] == digest && bytes[32] as int * 0x100 + bytes[33] as int == n
            && (id.Some? ==> bytes[34..70] == Print(id.value))
            && (forall i :: (if id.Some? then 70 else 34) <= i < |bytes| ==> bytes[i] == 0)
  {
    hide Print;
    var bytes := AuthBytes(digest, n, id);
    assert bytes[..32] == digest && bytes[32..34] == ToBe16(n) && bytes[34..] == PaddingBytes(n, id);
    if id.Some? {
      assert bytes[34..70] == Print(id.value);
    }
  }

  /** `write_auth_with_client_id`: refuses a padding length over 16 bits before it writes anything. */
  method WriteAuth(writer: Sink, digest: seq<byte>, factory: PaddingFactory, id: Option<Uuid>)
    returns (ok: bool, ghost sizes: seq<int>)
    modifies writer
    ensures MayGenerate(factory, 0, sizes)
    ensures PaddingLength(sizes, id) > U16_MAX ==> !ok && writer.log == old(writer.log)
    ensures PaddingLength(sizes, id) <= U16_MAX ==>
              && old(writer.log) <= writer.log <= old(writer.log) + AuthBytes(digest, PaddingLength(sizes, id), id)
              && (ok ==> writer.log == old(writer.log) + AuthBytes(digest, PaddingLength(sizes, id), id))
  {
    var drawn := GenerateRecordPayloadSizes(factory, 0);
    sizes := drawn;
    var n := PaddingLength(drawn, id);
    if n > U16_MAX {
      return false, sizes;
    }
    ghost var before := writer.log;
    ok := writer.WriteAll(digest);
    if !ok {
      return;
    }
    ok := writer.WriteAll(ToBe16(n));
    if !ok {
      return;
    }
    if n != 0 {
      ok := writer.WriteAll(PaddingBytes(n, id));
    }
  }

  // ---- reading ----

  datatype Reading =
    | Accepted(id: Option<Uuid>, rest: seq<byte>)
    | InvalidPassword
    | Short

  function ReadAuth(input: seq<byte>, digest: seq<byte>): Reading {
    if |input| < AUTH_HEADER_SIZE then Short
    else if input[..PASSWORD_DIGEST_SIZE] != digest then InvalidPassword
    else
      var n := FromBe16(input[PASSWORD_DIGEST_SIZE..AUTH_HEADER_SIZE]);
      var body := input[AUTH_HEADER_SIZE..];
      if |body| < n then Short else Accepted(ExtractClientId(body[..n]), body[n..])
  }

  /** What a client writes, the reader accepts, recovers the id of and stops right behind. */
  lemma AuthRoundTrip(digest: seq<byte>, n: u16, id: Option<Uuid>, rest: seq<byte>)
    requires |digest| == PASSWORD_DIGEST_SIZE && (id.Some? ==> n >= UUID_TEXT)
    ensures ReadAuth(AuthBytes(digest, n, id) + rest, digest) == Accepted(id, rest)
  {
    hide ExtractClientId, Print, FromBe16, ToBe16;
    var padding := PaddingBytes(n, id);
    var input := AuthBytes(digest, n, id) + rest;
    assert input[..PASSWORD_DIGEST_SIZE] == digest;
    assert input[PASSWORD_DIGEST_SIZE..AUTH_HEADER_SIZE] == ToBe16(n);
    assert input[AUTH_HEADER_SIZE..] == padding + rest;
    Be16RoundTrip(n);
    assert (padding + rest)[..n] == padding && (padding + rest)[n..] == rest;
    match id
    case None => ZerosHoldNoId(n);
    case Some(u) =>
      assert padding[..UUID_TEXT] == Print(u);
      ExtractsPrinted(u, padding);
  }

  /**
   * The reader accepts exactly the inputs that begin with the digest and have all of the padding
   * they announce, and then stops right behind it; any other digest is refused as such.
   */
  lemma AuthAccepts(input: seq<byte>, digest: seq<byte>)
    ensures ReadAuth(input, digest).InvalidPassword? <==> |input| >= 34 && input[..32] != digest
    ensures ReadAuth(input, digest).Accepted? <==>
              && |input| >= 34 && input[..32] == digest
              && |input| >= 34 + (input[32] as int * 0x100 + input[33] as int)
    ensures ReadAuth(input, digest).Accepted? ==>
              ReadAuth(input, digest).rest == input[34 + (input[32] as int * 0x100 + input[33] as int)..]
  {
    hide ExtractClientId;
    if |input| >= 34 {
      var n := input[32] as int * 0x100 + input[33] as int;
      assert FromBe16(input[32..34]) == n;
      if |input| >= 34 + n {
        assert input[34..][n..] == input[34 + n..];
      }
    }
  }

  lemma ReadAuthByParts(input: seq<byte>, header: seq<byte>, body: seq<byte>, digest: seq<byte>)
    requires |header| == AUTH_HEADER_SIZE && input == header + body
    ensures header[..PASSWORD_DIGEST_SIZE] != digest ==> ReadAuth(input, digest) == InvalidPassword
    ensures header[..PASSWORD_DIGEST_SIZE] == digest ==>
              var n := FromBe16(header[PASSWORD_DIGEST_SIZE..]);
              ReadAuth(input, digest)
              == if |body| < n then Short else Accepted(ExtractClientId(body[..n]), body[n..])
  {
    hide ExtractClientId, FromBe16;
    assert input[..PASSWORD_DIGEST_SIZE] == header[..PASSWORD_DIGEST_SIZE];
    assert input[PASSWORD_DIGEST_SIZE..AUTH_HEADER_SIZE] == header[PASSWORD_DIGEST_SIZE..];
    assert input[AUTH_HEADER_SIZE..] == body;
  }

  datatype AuthError = PermissionDenied | UnexpectedEof

  /** `read_auth_with_client_id`, however the bytes are fragmented. */
  method ReadAuthWithClientId(reader: Source, digest: seq<byte>) returns (r: Result<Option<Uuid>, AuthError>)
    modifies reader
    ensures match ReadAuth(old(reader.unread), digest)
            case Accepted(id, rest) => r == Ok(id) && reader.unread == rest
            case InvalidPassword => r == Err(PermissionDenied)
            case Short => r == Err(UnexpectedEof)
  {
    hide ReadAuth;
    ghost var input := reader.unread;
    var header := reader.ReadExact(AUTH_HEADER_SIZE);
    if header.None? {
      ShortHeader(input, digest);
      return Err(UnexpectedEof);
    }
    ReadAuthByParts(input, header.value, reader.unread, digest);
    if header.value[..PASSWORD_DIGEST_SIZE] != digest {
      return Err(PermissionDenied);
    }
    var padding := reader.ReadExact(FromBe16(header.value[PASSWORD_DIGEST_SIZE..]));
    if padding.None? {
      return Err(UnexpectedEof);
    }
    return Ok(ExtractClientId(padding.value));
  }

  lemma ShortHeader(input: seq<byte>, digest: seq<byte>)
    requires |input| < AUTH_HEADER_SIZE
    ensures ReadAuth(input, digest) == Short
  {
  }

  // ---- the server ----

  /** The outcome of the server's own reading: on a mismatch it keeps what it has read. */
  datatype Outcome = Authenticated(id: Option<Uuid>) | Relayed(prefix: seq<byte>) | Failed

  /** The accumulation loop: fills the header in place by reads of any size until it is full. */
  method Accumulate(tls: Source, header: array<byte>) returns (count: nat)
    modifies tls, header
    ensures count <= header.Length && header[..count] + tls.unread == old(tls.unread)
    ensures count < header.Length ==> tls.unread == []
  {
    count := 0;
    while count < header.Length
      invariant count <= header.Length
      invariant header[..count] + tls.unread == old(tls.unread)
      decreases header.Length - count
    {
      var got := tls.Read(header.Length - count);
      if got == [] {
        return;
      }
      ghost var before := header[..count];
      forall i | 0 <= i < |got| {
        header[count + i] := got[i];
      }
      assert header[..count + |got|] == before + got;
      count := count + |got|;
    }
  }

  /**
   * The authentication of `handle_connection`: on a mismatch or an early end it hands over what it
   * has read, so that nothing of the input is lost.
   */
  method Authenticate(tls: Source, digest: seq<byte>) returns (r: Outcome)
    modifies tls
    ensures match ReadAuth(old(tls.unread), digest)
            case Accepted(id, rest) => r == Authenticated(id) && tls.unread == rest
            case InvalidPassword => r.Relayed?
            case Short => if |old(tls.unread)| < AUTH_HEADER_SIZE then r.Relayed? else r == Failed
    ensures r.Relayed? ==> r.prefix + tls.unread == old(tls.unread)
    ensures r.Relayed? ==>
              var n := |old(tls.unread)|;
              |r.prefix| == if n < AUTH_HEADER_SIZE then n else AUTH_HEADER_SIZE
  {
    hide ReadAuth;
    ghost var input := tls.unread;
    var header := new byte[AUTH_HEADER_SIZE];
    var count := Accumulate(tls, header);
    if count < AUTH_HEADER_SIZE {
      ShortHeader(input, digest);
      return Relayed(header[..count]);
    }
    assert header[..count] == header[..];
    ReadAuthByParts(input, header[..], tls.unread, digest);
    if header[..PASSWORD_DIGEST_SIZE] != digest {
      assert header[..][..PASSWORD_DIGEST_SIZE] == header[..PASSWORD_DIGEST_SIZE];
      return Relayed(header[..count]);
    }
    assert header[..][..PASSWORD_DIGEST_SIZE] == digest;
    assert header[..][PASSWORD_DIGEST_SIZE..] == header[PASSWORD_DIGEST_SIZE..];
    var padding := tls.ReadExact(FromBe16(header[PASSWORD_DIGEST_SIZE..]));
    if padding.None? {
      return Failed;
    }
    return Authenticated(ExtractClientId(padding.value));
  }
}
