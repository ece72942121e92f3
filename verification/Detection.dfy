/**
 * Protocol detection on a shared listener (src/client_app.rs): the listener peeks at the first
 * bytes of a connection, again and again while they could still become an HTTP request.
 */
module Detections {
  import opened Bytes
  import opened Texts

  const PEEK_SIZE: nat := 16
  const SPACE: byte := 32

  datatype Protocol = Socks5 | Socks4 | Http

  datatype Verdict = Is(protocol: Protocol) | Unknown | Undecided

  const HTTP_METHODS: seq<string> :=
    ["CONNECT", "GET", "POST", "HEAD", "PUT", "OPTIONS", "DELETE", "TRACE", "PATCH", "LOCK", "UNLOCK", "PROPFIND",
     "MKCOL", "COPY", "MOVE"]

  function LowerByte(b: byte): byte {
    if 65 <= b <= 90 then b + 32 else b
  }

  function LowerChar(c: char): char {
    if 'A' <= c <= 'Z' then c - 'A' + 'a' else c
  }

  /** `eq_ignore_ascii_case` on the first `n` bytes. */
  predicate SameStart(bytes: Text, name: string, n: nat)
    requires n <= |bytes| && n <= |name|
  {
    forall i :: 0 <= i < n ==> LowerByte(bytes[i]) == LowerChar(name[i]) as int
  }

  predicate IsRequest(bytes: Text, name: string) {
    |name| < |bytes| && SameStart(bytes, name, |name|) && bytes[|name|] == SPACE
  }

  predicate CouldBeRequest(bytes: Text, name: string) {
    && SameStart(bytes, name, if |bytes| < |name| then |bytes| else |name|)
    && (|bytes| <= |name| || bytes[|name|] == SPACE)
  }

  predicate IsHttpRequest(bytes: Text) {
    exists k :: 0 <= k < |HTTP_METHODS| && IsRequest(bytes, HTTP_METHODS[k])
  }

  predicate CouldBeHttpRequest(bytes: Text) {
    exists k :: 0 <= k < |HTTP_METHODS| && CouldBeRequest(bytes, HTTP_METHODS[k])
  }

  /** What one peek at these bytes leads to. */
  function Judge(bytes: Text): Verdict {
    if bytes == [] then Unknown
    else if bytes[0] == 5 then Is(Socks5)
    else if bytes[0] == 4 then Is(Socks4)
    else if IsHttpRequest(bytes) then Is(Http)
    else if CouldBeHttpRequest(bytes) then Undecided
    else Unknown
  }

  lemma RequestIsStable(bytes: Text, more: Text, name: string)
    requires bytes <= more
    ensures IsRequest(bytes, name) ==> IsRequest(more, name)
    ensures IsRequest(more, name) || CouldBeRequest(more, name) ==> CouldBeRequest(bytes, name)
    ensures CouldBeRequest(bytes, name) && |name| < |bytes| ==> IsRequest(bytes, name)
  {
  }

  /** More bytes never change a decision. */
  lemma DecisionIsStable(bytes: Text, more: Text)
    requires bytes != [] && bytes <= more && !Judge(bytes).Undecided?
    ensures Judge(more) == Judge(bytes)
  {
    hide IsRequest, CouldBeRequest;
    forall k | 0 <= k < |HTTP_METHODS|
      ensures IsRequest(bytes, HTTP_METHODS[k]) ==> IsRequest(more, HTTP_METHODS[k])
      ensures IsRequest(more, HTTP_METHODS[k]) || CouldBeRequest(more, HTTP_METHODS[k]) ==>
                CouldBeRequest(bytes, HTTP_METHODS[k])
    {
      RequestIsStable(bytes, more, HTTP_METHODS[k]);
    }
  }

  /**
   * A request line of any of the methods, in whatever case, is found to be HTTP, and none of its
   * beginnings up to the space is taken for anything else.
   */
  lemma RequestLineIsHttp(line: Text, k: nat, n: nat)
    requires k < |HTTP_METHODS| && |HTTP_METHODS[k]| < |line| && 0 < n <= |line|
    requires forall i :: 0 <= i < |HTTP_METHODS[k]| ==>
               line[i] == HTTP_METHODS[k][i] as int || line[i] == HTTP_METHODS[k][i] as int + 32
    requires line[|HTTP_METHODS[k]|] == 32
    ensures Judge(line) == Is(Http)
    ensures Judge(line[..n]) == (if n > |HTTP_METHODS[k]| then Is(Http) else Undecided)
  {
    hide IsRequest, CouldBeRequest;
    var name := HTTP_METHODS[k];
    MethodLetters(k);
    LineStarts(line, name, n);
    LineStarts(line, name, |line|);
    assert line[..|line|] == line && line[..n][0] == line[0];
    forall j | 0 <= j < |HTTP_METHODS| && n <= |name|
      ensures !IsRequest(line[..n], HTTP_METHODS[j])
    {
      MethodLetters(j);
      NoSpaceYet(line[..n], HTTP_METHODS[j]);
    }
  }

  /** The first byte tells the two SOCKS versions, and one that is no letter is nothing known. */
  lemma FirstByteDecides(bytes: Text)
    requires bytes != []
    ensures Judge(bytes) == Is(Socks5) <==> bytes[0] == 5
    ensures Judge(bytes) == Is(Socks4) <==> bytes[0] == 4
    ensures bytes[0] != 4 && bytes[0] != 5 && !(65 <= bytes[0] <= 90) && !(97 <= bytes[0] <= 122) ==>
              Judge(bytes) == Unknown
  {
    forall k | 0 <= k < |HTTP_METHODS| && !(65 <= bytes[0] <= 90) && !(97 <= bytes[0] <= 122)
      ensures !IsRequest(bytes, HTTP_METHODS[k]) && !CouldBeRequest(bytes, HTTP_METHODS[k])
    {
      MethodLetters(k);
      NoLetter(bytes, HTTP_METHODS[k]);
    }
  }

  lemma NoLetter(bytes: Text, name: string)
    requires bytes != [] && name != [] && 'A' <= name[0] <= 'Z'
    requires !(65 <= bytes[0] <= 90) && !(97 <= bytes[0] <= 122)
    ensures !IsRequest(bytes, name) && !CouldBeRequest(bytes, name)
  {
  }

  lemma MethodLetters(k: nat)
    requires k < |HTTP_METHODS|
    ensures HTTP_METHODS[k] != [] && forall i :: 0 <= i < |HTTP_METHODS[k]| ==> 'A' <= HTTP_METHODS[k][i] <= 'Z'
  {
  }

  lemma LineStarts(line: Text, name: string, n: nat)
    requires |name| < |line| && n <= |line| && line[|name|] == 32
    requires forall i :: 0 <= i < |name| ==> 'A' <= name[i] <= 'Z'
    requires forall i :: 0 <= i < |name| ==> line[i] == name[i] as int || line[i] == name[i] as int + 32
    ensures CouldBeRequest(line[..n], name) && (n > |name| ==> IsRequest(line[..n], name))
  {
  }

  lemma NoSpaceYet(bytes: Text, name: string)
    requires forall i :: 0 <= i < |bytes| ==> bytes[i] != 32
    ensures !IsRequest(bytes, name)
  {
  }

  /** Nine bytes always decide, so a full peek buffer does. */
  lemma LongIsDecided(bytes: Text)
    requires |bytes| > 8
    ensures !Judge(bytes).Undecided?
  {
    hide IsRequest, CouldBeRequest;
    forall k | 0 <= k < |HTTP_METHODS|
      ensures CouldBeRequest(bytes, HTTP_METHODS[k]) ==> IsRequest(bytes, HTTP_METHODS[k])
    {
      MethodLength(k);
      RequestIsStable(bytes, bytes, HTTP_METHODS[k]);
    }
  }

  lemma MethodLength(k: nat)
    requires k < |HTTP_METHODS|
    ensures |HTTP_METHODS[k]| <= 8
  {
  }

  /** What a peek sees of the connection when `n` bytes have arrived. */
  function Seen(input: Text, n: nat): Text {
    var m := if n < |input| then n else |input|;
    input[..if m < PEEK_SIZE then m else PEEK_SIZE]
  }

  /**
   * The loop of `detect_listener_protocol` over successive peeks, with `arrived[i]` bytes there at
   * peek `i`: however the bytes arrive, a decision is the one for all of the input.
   */
  method DetectListenerProtocol(input: Text, arrived: seq<nat>) returns (r: Verdict)
    requires forall i :: 0 <= i < |arrived| ==> arrived[i] > 0
    ensures input != [] && !r.Undecided? ==> r == Judge(Seen(input, |input|))
    ensures r.Undecided? ==> forall i :: 0 <= i < |arrived| ==> Judge(Seen(input, arrived[i])).Undecided?
    ensures (exists i :: 0 <= i < |arrived| && |Seen(input, arrived[i])| > 8) ==> !r.Undecided?
    ensures input == [] && arrived != [] ==> r == Unknown
  {
    hide Judge;
    for i := 0 to |arrived|
      invariant forall j :: 0 <= j < i ==> Judge(Seen(input, arrived[j])).Undecided?
      invariant i > 0 ==> input != []
    {
      var bytes := Seen(input, arrived[i]);
      var verdict := Judge(bytes);
      if input == [] {
        assert Judge([]) == Unknown by { NothingSeen(); }
        return Unknown;
      }
      if !verdict.Undecided? {
        DecisionIsStable(bytes, Seen(input, |input|));
        return verdict;
      }
    }
    forall i | 0 <= i < |arrived|
      ensures |Seen(input, arrived[i])| <= 8
    {
      if |Seen(input, arrived[i])| > 8 {
        LongIsDecided(Seen(input, arrived[i]));
      }
    }
    return Undecided;
  }

  lemma NothingSeen()
    ensures Judge([]) == Unknown
  {
  }
}
