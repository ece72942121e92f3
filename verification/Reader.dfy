/**
 * A transport read in pieces of arbitrary size, and the frame reader of src/core/frame.rs on it.
 * Every contract here holds for every way the pieces can fall.
 */
module Readers {
  import opened Wrappers
  import opened Bytes
  import opened Frames

  lemma ReadFrameShort(input: seq<byte>)
    requires |input| < HEADER_OVERHEAD_SIZE
    ensures ReadFrame(input) == if input == [] then EndOfInput else Failed(UnexpectedEof)
  {
  }

  /** `ReadFrame` in terms of a complete header and what follows it. */
  lemma ReadFrameByParts(input: seq<byte>, header: seq<byte>, body: seq<byte>)
    requires |header| == HEADER_OVERHEAD_SIZE && input == header + body
    ensures FromCode(header[0]).None? ==> ReadFrame(input) == Failed(UnknownCommand(header[0]))
    ensures FromCode(header[0]).Some? ==>
              var length := FromBe16(header[5..7]);
              ReadFrame(input) ==
              if |body| < length then Failed(UnexpectedEof)
              else Got(Frame(FromCode(header[0]).value, FromBe32(header[1..5]), body[..length]), body[length..])
  {
    assert input[1..5] == header[1..5] && input[5..7] == header[5..7];
    var length := FromBe16(header[5..7]);
    if |body| >= length {
      var end := HEADER_OVERHEAD_SIZE + length;
      assert input[HEADER_OVERHEAD_SIZE..end] == body[..length] && input[end..] == body[length..];
    }
  }

  class Source {
    /** The bytes the peer has sent (or will send before it closes) that were not read yet. */
    var unread: seq<byte>

    constructor (bytes: seq<byte>)
      ensures unread == bytes
    {
      unread := bytes;
    }

    /** One `read` into a buffer of `n` bytes: at least one byte unless the input has ended. */
    method Read(n: nat) returns (got: seq<byte>)
      modifies this
      ensures got + unread == old(unread)
      ensures |got| <= n
      ensures got == [] <==> n == 0 || old(unread) == []
    {
      if n == 0 || unread == [] {
        return [];
      }
      assert 0 < 1 <= n;
      var k: nat :| 0 < k <= n && k <= |unread|;
      got := unread[..k];
      unread := unread[k..];
    }

    /** `read_exact`: fills the whole buffer or fails with an unexpected end of input. */
    method ReadExact(n: nat) returns (r: Option<seq<byte>>)
      modifies this
      ensures |old(unread)| >= n ==> r == Some(old(unread)[..n]) && unread == old(unread)[n..]
      ensures |old(unread)| < n ==> r == None && unread == []
    {
      var buffer: seq<byte> := [];
      while |buffer| < n
        invariant |buffer| <= n
        invariant buffer + unread == old(unread)
        decreases n - |buffer|
      {
        var got := Read(n - |buffer|);
        if got == [] {
          return None;
        }
        buffer := buffer + got;
      }
      return Some(buffer);
    }

    /** `read_from_or_eof`: independent of fragmentation, it computes `ReadFrame` of the input. */
    method ReadFromOrEof() returns (r: Result<Option<Frame>, ReadError>)
      modifies this
      ensures match ReadFrame(old(unread))
              case EndOfInput => r == Ok(None) && unread == []
              case Got(frame, rest) => r == Ok(Some(frame)) && unread == rest
              case Failed(error) => r == Err(error)
    {
      ghost var input := unread;
      hide ReadFrame;
      var first := Read(1);
      if first == [] {
        ReadFrameShort(input);
        return Ok(None);
      }
      var more := ReadExact(HEADER_OVERHEAD_SIZE - 1);
      if more.None? {
        ReadFrameShort(input);
        return Err(UnexpectedEof);
      }
      var header := first + more.value;
      ghost var body := unread;
      ReadFrameByParts(input, header, body);
      var command := FromCode(header[0]);
      if command.None? {
        return Err(UnknownCommand(header[0]));
      }
      var streamId := FromBe32(header[1..5]);
      var length := FromBe16(header[5..7]);
      var data := ReadExact(length);
      if data.None? {
        return Err(UnexpectedEof);
      }
      return Ok(Some(Frame(command.value, streamId, data.value)));
    }
  }
}
