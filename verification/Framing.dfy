/**
 * Frames between the daemon and a phone: a 4-byte big-endian length and a body, whose first byte is
 * its type. Both ends cut the byte stream in the same way; REQ, RESP and CANCEL carry a number.
 */
module Framing {
  import opened Bytes

  const REQ: byte := 0x10
  const CANCEL: byte := 0x11
  const PING: byte := 0x12
  const RESP: byte := 0x20
  const PONG: byte := 0x22
  const MAX_BODY := 8192

  function Frame(body: seq<byte>): seq<byte> {
    BigEndian(|body|, 4) + body
  }

  function FrameAll(bodies: seq<seq<byte>>): seq<byte> {
    if bodies == [] then [] else Frame(bodies[0]) + FrameAll(bodies[1..])
  }

  /** The bodies a reader cuts from the stream before it ends or a length is out of range. */
  function Bodies(stream: seq<byte>): seq<seq<byte>> {
    if |stream| < 4 then [] else
      var length := Number(stream[..4]);
      if length < 1 || length > MAX_BODY || |stream| < 4 + length then []
      else [stream[4..4 + length]] + Bodies(stream[4 + length..])
  }

  lemma FirstFrameIsCut(body: seq<byte>, later: seq<byte>)
    requires 1 <= |body| <= MAX_BODY
    ensures Bodies(Frame(body) + later) == [body] + Bodies(later)
  {
    hide BigEndian, Number;
    var stream, length := Frame(body) + later, BigEndian(|body|, 4);
    Pow256Values();
    NumberOfBigEndian(|body|, 4);
    assert stream[..4] == length;
    assert stream[4..4 + |body|] == body;
    assert stream[4 + |body|..] == later;
  }

  /** Bodies of 1 to 8192 bytes, framed back to back, are read back as the same list. */
  lemma {:induction false} FramesAreReadBack(bodies: seq<seq<byte>>, rest: seq<byte>)
    requires forall i :: 0 <= i < |bodies| ==> 1 <= |bodies[i]| <= MAX_BODY
    ensures Bodies(FrameAll(bodies) + rest) == bodies + Bodies(rest)
  {
    hide Frame, Bodies;
    if bodies == [] {
      assert [] + rest == rest;
    } else {
      FirstFrameIsCut(bodies[0], FrameAll(bodies[1..]) + rest);
      assert FrameAll(bodies) + rest == Frame(bodies[0]) + (FrameAll(bodies[1..]) + rest);
      FramesAreReadBack(bodies[1..], rest);
    }
  }

  // ---- Numbers in bodies ------------------------------------------------------------------------

  function AskBody(number: Word, data: seq<byte>): seq<byte> {
    [REQ] + BigEndian(number, 4) + data
  }

  function CancelBody(number: Word): seq<byte> {
    [CANCEL] + BigEndian(number, 4)
  }

  function DecodeResponse(body: seq<byte>): Option<(nat, seq<byte>)> {
    if |body| >= 5 && body[0] == RESP then Some((Number(body[1..5]), body[5..])) else None
  }

  /** What the daemon's reader passes on: the answers, in order. */
  function Responses(bodies: seq<seq<byte>>): seq<(nat, seq<byte>)> {
    if bodies == [] then [] else
      var first := DecodeResponse(bodies[0]);
      (if first.Some? then [first.value] else []) + Responses(bodies[1..])
  }

  /** A big-endian word read as a Java int. */
  function JavaInt(w: nat): int {
    if w < 0x8000_0000 then w else w - 0x1_0000_0000
  }

  datatype PhoneEvent =
    | Pinged
    | Withdrawn(number: int)
    | Asked(number: int, echo: seq<byte>, request: seq<byte>)
    | Ignored

  /** What the phone's reader makes of one body; `echo` are the number's bytes for the answer. */
  function PhoneReads(body: seq<byte>): PhoneEvent {
    if body == [] then Ignored
    else if body[0] == PING then Pinged
    else if body[0] == CANCEL && |body| >= 5 then Withdrawn(JavaInt(Number(body[1..5])))
    else if body[0] == REQ && |body| >= 5 then Asked(JavaInt(Number(body[1..5])), body[1..5], body[5..])
    else Ignored
  }

  function PhoneAnswers(echo: seq<byte>, result: seq<byte>): seq<byte> {
    [RESP] + echo + result
  }

  /**
   * The phone sees the very bytes and number it was asked with, its answer comes back under that
   * number unchanged, and a later CANCEL names the same number; every accepted message fits a frame.
   */
  lemma NumbersSurvive(number: Word, data: seq<byte>, result: seq<byte>)
    requires |data| <= 7609
    ensures |AskBody(number, data)| <= 7614 <= MAX_BODY
    ensures PhoneReads(CancelBody(number)) == Withdrawn(JavaInt(number))
    ensures match PhoneReads(AskBody(number, data))
            case Asked(n, echo, request) =>
              && n == JavaInt(number) && echo == BigEndian(number, 4) && request == data
              && DecodeResponse(PhoneAnswers(echo, result)) == Some((number, result))
            case _ => false
  {
    Pow256Values();
    NumberOfBigEndian(number, 4);
    var echo := BigEndian(number, 4);
    assert AskBody(number, data)[1..5] == echo && AskBody(number, data)[5..] == data;
    assert CancelBody(number)[1..5] == echo;
    assert PhoneAnswers(echo, result)[1..5] == echo && PhoneAnswers(echo, result)[5..] == result;
  }

  // ---- The daemon's reader as it runs -------------------------------------------------------------

  datatype Ending = Truncated | BadLength(length: nat)

  /** Why no further body is cut: the bytes run out, or a length is out of range. */
  function EndOf(stream: seq<byte>): Ending {
    if |stream| < 4 then Truncated else
      var length := Number(stream[..4]);
      if length < 1 || length > MAX_BODY then BadLength(length)
      else if |stream| < 4 + length then Truncated
      else EndOf(stream[4 + length..])
  }

  function Pongs(bodies: seq<seq<byte>>): nat {
    if bodies == [] then 0 else (if bodies[0] != [] && bodies[0][0] == PONG then 1 else 0) + Pongs(bodies[1..])
  }

  /** `read_link` over all the bytes that ever arrive: answers passed on, pongs counted, everything else dropped. */
  method ReadLink(stream: seq<byte>) returns (responses: seq<(nat, seq<byte>)>, pongs: nat, ending: Ending)
    ensures responses == Responses(Bodies(stream))
    ensures pongs == Pongs(Bodies(stream))
    ensures ending == EndOf(stream)
  {
    responses, pongs := [], 0;
    var rest := stream;
    while true
      invariant Responses(Bodies(stream)) == responses + Responses(Bodies(rest))
      invariant Pongs(Bodies(stream)) == pongs + Pongs(Bodies(rest))
      invariant EndOf(stream) == EndOf(rest)
      decreases |rest|
    {
      if |rest| < 4 {
        return responses, pongs, Truncated;
      }
      var length := Number(rest[..4]);
      if length < 1 || length > MAX_BODY {
        return responses, pongs, BadLength(length);
      }
      if |rest| < 4 + length {
        return responses, pongs, Truncated;
      }
      var body := rest[4..4 + length];
      NextBody(rest, length);
      hide *;
      rest := rest[4 + length..];
      FirstResponse(body, Bodies(rest));
      if body[0] == RESP && |body| >= 5 {
        responses := responses + [(Number(body[1..5]), body[5..])];
      } else if body[0] == PONG {
        pongs := pongs + 1;
      }
    }
  }

  lemma NextBody(stream: seq<byte>, length: nat)
    requires |stream| >= 4 + length && length == Number(stream[..4]) && 1 <= length <= MAX_BODY
    ensures Bodies(stream) == [stream[4..4 + length]] + Bodies(stream[4 + length..])
    ensures EndOf(stream) == EndOf(stream[4 + length..])
  {
  }

  lemma FirstResponse(body: seq<byte>, later: seq<seq<byte>>)
    ensures Responses([body] + later)
         == (if |body| >= 5 && body[0] == RESP then [(Number(body[1..5]), body[5..])] else []) + Responses(later)
    ensures Pongs([body] + later) == (if body != [] && body[0] == PONG then 1 else 0) + Pongs(later)
  {
    assert ([body] + later)[1..] == later;
  }
}
