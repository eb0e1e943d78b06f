/**
 * The minimal Feetech STS/SCS packet protocol of the calibration tool: just
 * enough to read a servo's present position.
 *
 * An instruction packet is `[0xFF, 0xFF, id, len, instr, params.., checksum]`
 * with `len = |params| + 2`; a reply has the same shape with an error byte in
 * place of the instruction. The checksum is the bitwise NOT of the 8-bit
 * wrapping sum of every byte from `id` to the last parameter.
 *
 * The serial link is a `Port`: a byte sink (`written`) and a source
 * (`pending`) of what arrives from the bus, bytes and quiet spells, so that
 * what a read or a write does to the link is part of each operation's
 * contract.
 */
module Protocol {
  import opened Ints
  import opened Wrappers

  const HEADER: seq<u8> := [0xFF, 0xFF]
  const INSTR_READ: u8 := 0x02
  /** Register address of the present position (two bytes, little-endian). */
  const PRESENT_POSITION: u8 := 56

  // ---------------------------------------------------------------------------
  // Checksum
  // ---------------------------------------------------------------------------

  /** The sum of all bytes, without truncation. */
  function ByteSum(data: seq<u8>): nat
  {
    if data == [] then 0 else ByteSum(data[..|data| - 1]) + data[|data| - 1]
  }

  /** `a.wrapping_add(b)` on `u8`. */
  function WrappingAdd(a: u8, b: u8): u8
  {
    (a + b) % 0x100
  }

  /** `!x` on `u8`: flipping all eight bits of `x` is subtracting it from 0xFF. */
  function Not(x: u8): u8
  {
    0xFF - x
  }

  /** The checksum of `data`: the byte that brings the 8-bit sum of `data` to 0xFF. */
  function ChecksumOf(data: seq<u8>): (c: u8)
    ensures (ByteSum(data) + c) % 0x100 == 0xFF
  {
    Not(ByteSum(data) % 0x100)
  }

  /** `checksum`: accumulates a wrapping byte sum and complements it. */
  method Checksum(data: seq<u8>) returns (c: u8)
    ensures c == ChecksumOf(data)
  {
    var s: u8 := 0;
    for i := 0 to |data|
      invariant s == ByteSum(data[..i]) % 0x100
    {
      assert data[..i + 1][..i] == data[..i];
      s := WrappingAdd(s, data[i]);
    }
    assert data[..|data|] == data;
    c := Not(s);
  }

  // ---------------------------------------------------------------------------
  // Framing
  // ---------------------------------------------------------------------------

  /** The bytes `send_packet` puts on the wire. The length byte is truncated to `u8`. */
  function Frame(id: u8, instr: u8, params: seq<u8>): (f: seq<u8>)
    ensures |f| == 6 + |params|
    ensures f[..2] == HEADER && f[2] == id && f[3] == (|params| + 2) % 0x100 && f[4] == instr
    ensures f[5..|f| - 1] == params
    ensures f[|f| - 1] == ChecksumOf(f[2..|f| - 1])
  {
    var body := [id, (|params| + 2) % 0x100, instr] + params;
    HEADER + body + [ChecksumOf(body)]
  }

  /** A receiver that sums every byte after the header, checksum included, gets 0xFF. */
  lemma FrameSumsToAllOnes(id: u8, instr: u8, params: seq<u8>)
    ensures ByteSum(Frame(id, instr, params)[2..]) % 0x100 == 0xFF
  {
    var f := Frame(id, instr, params);
    var body := f[2..|f| - 1];
    assert f[2..] == body + [f[|f| - 1]];
    assert (body + [f[|f| - 1]])[..|body|] == body;
  }

  /** The read request for servo 1, computed by hand: the checksum of 01 04 02 38 02 is 0xBE. */
  lemma ReadRequestVector()
    ensures Frame(1, INSTR_READ, [PRESENT_POSITION, 2]) == [0xFF, 0xFF, 0x01, 0x04, 0x02, 0x38, 0x02, 0xBE]
  {
    var body: seq<u8> := [1, 4, 2, 56, 2];
    assert ByteSum(body[..1]) == 1 by { assert body[..1][..0] == []; }
    assert ByteSum(body[..2]) == 5 by { assert body[..2][..1] == body[..1]; }
    assert ByteSum(body[..3]) == 7 by { assert body[..3][..2] == body[..2]; }
    assert ByteSum(body[..4]) == 63 by { assert body[..4][..3] == body[..3]; }
    assert ByteSum(body) == 65 by { assert body[..4] == body[..|body| - 1]; }
    assert [1, (|[PRESENT_POSITION, 2]| + 2) % 0x100, INSTR_READ] + [PRESENT_POSITION, 2] == body;
    assert ChecksumOf(body) == 0xBE;
  }

  // ---------------------------------------------------------------------------
  // The serial link
  // ---------------------------------------------------------------------------

  datatype ReadError =
    | Io            // the link timed out before the requested bytes arrived
    | BadHeader     // the first two bytes of a reply are not 0xFF 0xFF
    | BadLength     // a reply's length byte is below 2 (see DecodeReplyAsWritten)
    | ShortResponse // a position reply carries fewer than two parameter bytes

  /** What the link delivers next: a byte, or a quiet spell longer than the read timeout. */
  datatype Arrival = Byte(value: u8) | Silence

  /** The bytes that arrive before the next quiet spell (all of them, if there is none). */
  function Leading(stream: seq<Arrival>): (s: seq<u8>)
    ensures |s| <= |stream|
    ensures forall k :: 0 <= k < |s| ==> stream[k] == Byte(s[k])
    ensures |s| < |stream| ==> stream[|s|] == Silence
  {
    if stream == [] || stream[0] == Silence then [] else [stream[0].value] + Leading(stream[1..])
  }

  /** The bytes of `s`, arriving back to back. */
  function Bytes(s: seq<u8>): (a: seq<Arrival>)
    ensures |a| == |s| && forall k :: 0 <= k < |s| ==> a[k] == Byte(s[k])
  {
    seq(|s|, k requires 0 <= k < |s| => Byte(s[k]))
  }

  /**
   * How much of the stream a read that times out uses up: the bytes before
   * the quiet spell and the spell itself, or the whole stream when it ends first.
   */
  function TimeoutSpan(stream: seq<Arrival>): (n: nat)
    ensures |Leading(stream)| < n <= |stream| || n == |Leading(stream)| == |stream|
  {
    if |Leading(stream)| < |stream| then |Leading(stream)| + 1 else |stream|
  }

  /** `Leading` is the only sequence of bytes that runs up to the first quiet spell. */
  lemma LeadingUnique(stream: seq<Arrival>, s: seq<u8>)
    requires |s| <= |stream|
    requires forall k :: 0 <= k < |s| ==> stream[k] == Byte(s[k])
    requires |s| < |stream| ==> stream[|s|] == Silence
    ensures s == Leading(stream)
  {
  }

  /** Taking `n` bytes that have arrived leaves the rest of them, and the same quiet spell, ahead. */
  lemma LeadingAfter(stream: seq<Arrival>, n: nat)
    requires n <= |Leading(stream)|
    ensures Leading(stream[n..]) == Leading(stream)[n..]
    ensures TimeoutSpan(stream[n..]) == TimeoutSpan(stream) - n
  {
    LeadingUnique(stream[n..], Leading(stream)[n..]);
  }

  /** Bytes sent back to back all arrive before whatever follows them. */
  lemma LeadingOfBytes(s: seq<u8>, rest: seq<Arrival>)
    ensures Leading(Bytes(s) + rest) == s + Leading(rest)
  {
    var stream := Bytes(s) + rest;
    var t := s + Leading(rest);
    assert forall k :: |s| <= k < |t| ==> stream[k] == rest[k - |s|] && t[k] == Leading(rest)[k - |s|];
    LeadingUnique(stream, t);
  }

  /**
   * The serial link: `written` holds every byte sent to the bus so far,
   * `pending` what the bus delivers from now on, bytes and quiet spells.
   */
  class Port {
    var written: seq<u8>
    var pending: seq<Arrival>

    constructor (incoming: seq<Arrival>)
      ensures written == [] && pending == incoming
    {
      written := [];
      pending := incoming;
    }

    /** `write_all` followed by `flush`: the whole buffer goes out. */
    method WriteAll(bytes: seq<u8>)
      modifies this
      ensures written == old(written) + bytes && pending == old(pending)
    {
      written := written + bytes;
    }

    /**
     * `read_exact` with the link's timeout: `n` bytes when they arrive before
     * the next quiet spell; otherwise a timeout, which loses the bytes that did
     * arrive and ends with the quiet spell, leaving what comes after it unread.
     */
    method ReadExact(n: nat) returns (r: Result<seq<u8>, ReadError>)
      modifies this
      ensures written == old(written)
      ensures n <= |Leading(old(pending))| ==> r == Success(Leading(old(pending))[..n]) && pending == old(pending)[n..]
      ensures |Leading(old(pending))| < n ==> r == Failure(Io) && pending == old(pending)[TimeoutSpan(old(pending))..]
    {
      var arrived := Leading(pending);
      if n <= |arrived| {
        r := Success(arrived[..n]);
        pending := pending[n..];
      } else {
        r := Failure(Io);
        pending := pending[TimeoutSpan(pending)..];
      }
    }
  }

  /** `send_packet`: builds the frame byte by byte and writes it out. */
  method SendPacket(port: Port, id: u8, instr: u8, params: seq<u8>)
    modifies port
    ensures port.written == old(port.written) + Frame(id, instr, params)
    ensures port.pending == old(port.pending)
  {
    var length: u8 := (|params| + 2) % 0x100;
    var pkt: seq<u8> := HEADER;
    pkt := pkt + [id];
    pkt := pkt + [length];
    pkt := pkt + [instr];
    pkt := pkt + params;
    var c := Checksum(pkt[2..]);
    assert pkt[2..] == [id, length, instr] + params;
    pkt := pkt + [c];
    port.WriteAll(pkt);
  }

  // ---------------------------------------------------------------------------
  // Replies
  // ---------------------------------------------------------------------------

  /** What reading one reply yields, and how many bytes it takes off the link. */
  datatype Decoded = Decoded(result: Result<seq<u8>, ReadError>, consumed: nat)

  /**
   * `read_response` on a link whose unread bytes are `input`: a four-byte
   * header, then `len` more bytes of which the first (the error byte) and the
   * last (the checksum) are dropped. The reply checksum is not verified.
   */
  function DecodeReply(input: seq<u8>): (d: Decoded)
    ensures d.consumed <= |input|
    ensures |input| < 4 ==> d == Decoded(Failure(Io), |input|)
    ensures 4 <= |input| && input[..2] != HEADER ==> d == Decoded(Failure(BadHeader), 4)
    ensures 4 <= |input| && input[..2] == HEADER && input[3] < 2 && 4 + input[3] as int <= |input| ==>
      d == Decoded(Failure(BadLength), 4 + input[3] as int)
    ensures 4 <= |input| && input[..2] == HEADER && |input| < 4 + input[3] as int ==> d == Decoded(Failure(Io), |input|)
    ensures d.result.Success? <==> 4 <= |input| && input[..2] == HEADER && 2 <= input[3] && 4 + input[3] as int <= |input|
    ensures d.result.Success? ==>
      d.consumed == 4 + input[3] as int && |d.result.value| == input[3] as int - 2 &&
      input[4..d.consumed] == [input[4]] + d.result.value + [input[d.consumed - 1]]
  {
    if |input| < 4 then Decoded(Failure(Io), |input|)
    else if input[0] != 0xFF || input[1] != 0xFF then Decoded(Failure(BadHeader), 4)
    else
      var len: int := input[3];
      if |input| < 4 + len then Decoded(Failure(Io), |input|)
      else if len < 2 then Decoded(Failure(BadLength), 4 + len)
      else Decoded(Success(input[5..3 + len]), 4 + len)
  }

  /** A reply framed like an instruction packet decodes back to its parameters. */
  lemma FrameDecodes(id: u8, error: u8, params: seq<u8>, trailing: seq<u8>)
    requires |params| <= 253
    ensures DecodeReply(Frame(id, error, params) + trailing) == Decoded(Success(params), 6 + |params|)
  {
    var f := Frame(id, error, params);
    var input := f + trailing;
    assert input[..2] == f[..2];
    assert input[5..3 + input[3]] == f[5..|f| - 1];
  }

  /**
   * `read_response` on a link that delivers `stream`: the reply is decoded
   * from the bytes before the next quiet spell; a read that runs into the
   * quiet spell times out and uses it up together with the bytes before it.
   */
  function DecodeStream(stream: seq<Arrival>): (d: Decoded)
    ensures d.consumed <= |stream|
    ensures d.result != Failure(Io) ==> d == DecodeReply(Leading(stream)) && d.consumed <= |Leading(stream)|
    ensures d.result == Failure(Io) <==> DecodeReply(Leading(stream)).result == Failure(Io)
    ensures d.result == Failure(Io) ==> d.consumed == TimeoutSpan(stream)
  {
    var d := DecodeReply(Leading(stream));
    if d.result == Failure(Io) then Decoded(Failure(Io), TimeoutSpan(stream)) else d
  }

  /** On a link that never falls silent, reading a reply is decoding the bytes that arrive. */
  lemma DecodeStreamWithoutSilence(stream: seq<Arrival>)
    requires forall k :: 0 <= k < |stream| ==> stream[k].Byte?
    ensures DecodeStream(stream) == DecodeReply(Leading(stream))
  {
  }

  /** A reply framed like an instruction packet, arriving in one piece, is read back as its parameters. */
  lemma ReplyArrives(id: u8, error: u8, params: seq<u8>, rest: seq<Arrival>)
    requires |params| <= 253
    ensures DecodeStream(Bytes(Frame(id, error, params)) + rest) == Decoded(Success(params), 6 + |params|)
  {
    LeadingOfBytes(Frame(id, error, params), rest);
    FrameDecodes(id, error, params, Leading(rest));
  }

  /**
   * A servo that falls silent before its reply's header is complete costs
   * only that read: the timeout uses up the partial header and the quiet
   * spell, and the next read starts with what follows.
   */
  lemma SilenceSkipsOneRead(partial: seq<u8>, rest: seq<Arrival>)
    requires |partial| < 4
    ensures DecodeStream(Bytes(partial) + [Silence] + rest) == Decoded(Failure(Io), |partial| + 1)
  {
    var stream := Bytes(partial) + [Silence] + rest;
    assert stream == Bytes(partial) + ([Silence] + rest);
    LeadingOfBytes(partial, [Silence] + rest);
    assert Leading([Silence] + rest) == [];
    assert partial + [] == partial;
  }

  /** What `DecodeStream` gives in each branch of `read_response`, in terms of the bytes that arrive. */
  lemma DecodeStreamBranches(input: seq<Arrival>)
    ensures var a, d := Leading(input), DecodeStream(input);
      (|a| < 4 ==> d == Decoded(Failure(Io), TimeoutSpan(input))) &&
      (4 <= |a| && (a[0] != 0xFF || a[1] != 0xFF) ==> d == Decoded(Failure(BadHeader), 4)) &&
      (4 <= |a| && a[0] == 0xFF && a[1] == 0xFF && |a| < 4 + a[3] as int ==> d == Decoded(Failure(Io), TimeoutSpan(input))) &&
      (4 <= |a| && a[0] == 0xFF && a[1] == 0xFF && 4 + a[3] as int <= |a| && a[3] < 2 ==>
        d == Decoded(Failure(BadLength), 4 + a[3] as int)) &&
      (4 <= |a| && a[0] == 0xFF && a[1] == 0xFF && 4 + a[3] as int <= |a| && 2 <= a[3] ==>
        d == Decoded(Success(a[5..3 + a[3] as int]), 4 + a[3] as int))
  {
  }

  /** `read_response`: reads the header, then the rest of the reply, and strips it. */
  method ReadResponse(port: Port) returns (r: Result<seq<u8>, ReadError>)
    modifies port
    ensures r == DecodeStream(old(port.pending)).result
    ensures port.pending == old(port.pending)[DecodeStream(old(port.pending)).consumed..]
    ensures port.written == old(port.written)
  {
    ghost var input := port.pending;
    ghost var arrived := Leading(input);
    DecodeStreamBranches(input);
    var hdr := port.ReadExact(4);
    if hdr.Failure? {
      return Failure(Io);
    }
    var h := hdr.value;
    if h[0] != 0xFF || h[1] != 0xFF {
      return Failure(BadHeader);
    }
    var len: int := h[3];
    assert h == arrived[..4];
    ghost var body := port.pending;
    assert body == input[4..];
    LeadingAfter(input, 4);
    var rest := port.ReadExact(len);
    if rest.Failure? {
      assert |arrived| < 4 + len;
      assert port.pending == input[TimeoutSpan(input)..];
      return Failure(Io);
    }
    assert 4 + len <= |arrived|;
    assert rest.value == arrived[4..][..len] == arrived[4..4 + len];
    assert port.pending == body[len..] == input[4 + len..];
    if len < 2 {
      return Failure(BadLength);
    }
    r := Success(rest.value[1..len - 1]);
    assert r.value == arrived[5..3 + len];
  }

  // ---------------------------------------------------------------------------
  // Present position
  // ---------------------------------------------------------------------------

  /** `u16::to_le_bytes`: the low byte first. */
  function Le16(v: u16): seq<u8>
  {
    [v % 0x100, v / 0x100]
  }

  /** `u16::from_le_bytes` on the first two payload bytes; a shorter payload is an error. */
  function PositionFromPayload(data: seq<u8>): (r: Result<u16, ReadError>)
    ensures r.Success? <==> 2 <= |data|
    ensures r.Success? ==> Le16(r.value) == data[..2]
    ensures r.Failure? ==> r.error == ShortResponse
  {
    if |data| < 2 then Failure(ShortResponse) else Success(data[0] as int + 0x100 * data[1] as int)
  }

  lemma Le16RoundTrip(v: u16, rest: seq<u8>)
    ensures PositionFromPayload(Le16(v) + rest) == Success(v)
  {
  }

  /** The outcome of `read_position` given the outcome of `read_response`. */
  function PositionOf(reply: Result<seq<u8>, ReadError>): (r: Result<u16, ReadError>)
    ensures reply.Failure? ==> r == Failure(reply.error)
    ensures reply.Success? ==> r == PositionFromPayload(reply.value)
  {
    match reply
    case Failure(e) => Failure(e)
    case Success(data) => PositionFromPayload(data)
  }

  /** The request `read_position` sends: read two bytes at PRESENT_POSITION. */
  function ReadRequest(id: u8): seq<u8>
  {
    Frame(id, INSTR_READ, [PRESENT_POSITION, 2])
  }

  /** `read_position`: one request out, one reply in, two bytes little-endian. */
  method ReadPosition(port: Port, id: u8) returns (r: Result<u16, ReadError>)
    modifies port
    ensures port.written == old(port.written) + ReadRequest(id)
    ensures r == PositionOf(DecodeStream(old(port.pending)).result)
    ensures port.pending == old(port.pending)[DecodeStream(old(port.pending)).consumed..]
  {
    SendPacket(port, id, INSTR_READ, [PRESENT_POSITION, 2]);
    var data := ReadResponse(port);
    if data.Failure? {
      return Failure(data.error);
    }
    if |data.value| < 2 {
      return Failure(ShortResponse);
    }
    r := Success(data.value[0] as int + 0x100 * data.value[1] as int);
  }

  /** A well-framed position reply carrying `v` is read as `v`, taking exactly eight bytes. */
  lemma PositionReplyRoundTrip(id: u8, error: u8, v: u16, rest: seq<Arrival>)
    ensures DecodeStream(Bytes(Frame(id, error, Le16(v))) + rest).consumed == 8
    ensures PositionOf(DecodeStream(Bytes(Frame(id, error, Le16(v))) + rest).result) == Success(v)
  {
    ReplyArrives(id, error, Le16(v), rest);
    Le16RoundTrip(v, []);
    assert Le16(v) + [] == Le16(v);
  }

  // ---------------------------------------------------------------------------
  // The reply decoder as the source writes it
  // ---------------------------------------------------------------------------

  datatype Outcome = Returned(decoded: Decoded) | Panicked

  /**
   * `read_response` exactly as written: a length byte of 0 or 1 makes the slice
   * `rest[1..rest.len() - 1]` out of bounds, which panics instead of returning
   * an error, so the calibration run aborts.
   */
  function DecodeReplyAsWritten(input: seq<u8>): (o: Outcome)
    ensures o.Panicked? <==> 4 <= |input| && input[..2] == HEADER && input[3] < 2 && 4 + input[3] as int <= |input|
  {
    if |input| < 4 then Returned(Decoded(Failure(Io), |input|))
    else if input[0] != 0xFF || input[1] != 0xFF then Returned(Decoded(Failure(BadHeader), 4))
    else
      var len: int := input[3];
      if |input| < 4 + len then Returned(Decoded(Failure(Io), |input|))
      else if len < 2 then Panicked
      else Returned(Decoded(Success(input[5..3 + len]), 4 + len))
  }

  /** A four-byte reply with length byte 0 panics the decoder as written. */
  lemma ZeroLengthReplyPanics()
    ensures DecodeReplyAsWritten([0xFF, 0xFF, 0x01, 0x00]) == Panicked
    ensures DecodeReply([0xFF, 0xFF, 0x01, 0x00]) == Decoded(Failure(BadLength), 4)
  {
    assert [0xFF, 0xFF, 0x01, 0x00][..2] == HEADER;
  }

  /**
   * The corrected decoder differs from the one as written exactly where that
   * one panics, and there it reports a recoverable `BadLength` error.
   */
  lemma DecodeReplyRepairsPanic(input: seq<u8>)
    ensures DecodeReplyAsWritten(input).Panicked? <==> DecodeReply(input).result == Failure(BadLength)
    ensures DecodeReplyAsWritten(input).Returned? ==> DecodeReplyAsWritten(input).decoded == DecodeReply(input)
  {
  }
}
