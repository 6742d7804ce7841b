/**
 The RDP negotiation probe: the connection request it sends, the bounded reader over a
 fragmented stream, and the interpretation of the answer. Formats follow sections
 2.2.1.1 and 2.2.1.2 of MS-RDPBCGR.
 */
module RdpProbe {
  import opened Prelude

  type Byte = b: int | 0 <= b < 256

  type Bytes = seq<Byte>

  const TPKT_HEADER_SIZE := 4
  const X224_CONFIRM_SIZE := 7
  const MAX_TPKT_SIZE := 4096
  const REQUESTED_PROTOCOLS := 0xB

  /** A 16-bit number, least significant byte first. */
  function Le16(n: int): (r: Bytes)
    requires 0 <= n < 0x1_0000
    ensures |r| == 2
  {
    [n % 256, n / 256]
  }

  /** A 32-bit number, least significant byte first. */
  function Le32(n: int): (r: Bytes)
    requires 0 <= n < 0x1_0000_0000
    ensures |r| == 4
  {
    Le16(n % 0x1_0000) + Le16(n / 0x1_0000)
  }

  /** A 16-bit number from its low and its high byte. */
  function U16(lo: int, hi: int): int { lo + 256 * hi }

  function U32(b: Bytes): (n: int)
    requires |b| == 4
    ensures 0 <= n < 0x1_0000_0000
  {
    U16(b[0], b[1]) + 0x1_0000 * U16(b[2], b[3])
  }

  /** The X.224 Connection Request for these protocols; None is the ValueError. */
  function ConnectionRequest(requested: int): Option<Bytes> {
    if 0 <= requested < 0x1_0000_0000 then
      Some([3, 0, 0, 19] + [14, 0xE0, 0, 0, 0, 0, 0] + [1, 0, 8, 0] + Le32(requested))
    else None
  }

  datatype Protocol = Rdp | Tls | Hybrid | HybridEx

  function ProtocolOf(raw: int): Option<Protocol> {
    if raw == 0 then Some(Rdp) else if raw == 1 then Some(Tls)
    else if raw == 2 then Some(Hybrid) else if raw == 8 then Some(HybridEx) else None
  }

  /** Everything the probe can complain about. */
  datatype Problem =
    | NoReply
    | TruncatedHeader(got: nat)
    | BadHeader(version: int, reserved: int)
    | TooShort(total: int)
    | TooLong(total: int)
    | TruncatedBody(got: nat, expected: nat)
    | TruncatedConfirm(got: nat)
    | BadIndicator(indicator: int)
    | IndicatorMismatch(indicator: int, got: nat)
    | WrongType(tpdu: int)
    | NoNegotiation
    | TruncatedNegotiation
    | WrongKind(kind: int)
    | BadLength(length: int)
    | LengthMismatch(got: nat)
    | UnknownProtocol(raw: int)

  datatype Answer =
    | Error(problem: Problem)
    | Selected(protocol: Protocol, raw: int)
    | Failure(raw: int)

  /** The body of a Connection Confirm, after its TPKT header. */
  function ParseResponse(body: Bytes): Answer {
    if |body| < X224_CONFIRM_SIZE then Error(TruncatedConfirm(|body|))
    else if body[0] < X224_CONFIRM_SIZE - 1 then Error(BadIndicator(body[0]))
    else if body[0] as int + 1 != |body| then Error(IndicatorMismatch(body[0], |body|))
    else if body[1] != 0xD0 then Error(WrongType(body[1]))
    else ParseNegotiation(body[X224_CONFIRM_SIZE..])
  }

  function ParseNegotiation(neg: Bytes): Answer {
    if neg == [] then Error(NoNegotiation)
    else if |neg| < 4 then Error(TruncatedNegotiation)
    else if neg[0] != 2 && neg[0] != 3 then Error(WrongKind(neg[0]))
    else if U16(neg[2], neg[3]) != 8 then Error(BadLength(U16(neg[2], neg[3])))
    else if |neg| != 8 then Error(LengthMismatch(|neg|))
    else
      var raw := U32(neg[4..8]);
      if neg[0] == 3 then Failure(raw)
      else if ProtocolOf(raw).None? then Error(UnknownProtocol(raw))
      else Selected(ProtocolOf(raw).value, raw)
  }

  /** What the probe answers to everything a peer ever sends. */
  function Interpret(stream: Bytes): Answer {
    if stream == [] then Error(NoReply)
    else if |stream| < TPKT_HEADER_SIZE then Error(TruncatedHeader(|stream|))
    else if stream[0] != 3 || stream[1] != 0 then Error(BadHeader(stream[0], stream[1]))
    else
      var total := U16(stream[3], stream[2]);
      if total < TPKT_HEADER_SIZE + X224_CONFIRM_SIZE then Error(TooShort(total))
      else if total > MAX_TPKT_SIZE then Error(TooLong(total))
      else if |stream| < total then Error(TruncatedBody(|stream| - TPKT_HEADER_SIZE, total - TPKT_HEADER_SIZE))
      else ParseResponse(stream[TPKT_HEADER_SIZE..total])
  }

  /**
   A connected socket: what was sent, what the peer will still send before it closes, and
   how many bytes the next reads find ready.
   */
  class Socket {
    var sent: Bytes
    var stream: Bytes
    var ready: seq<nat>

    constructor (answer: Bytes, chunking: seq<nat>)
      ensures stream == answer && ready == chunking && sent == []
    {
      sent, stream, ready := [], answer, chunking;
    }

    method SendAll(data: Bytes)
      modifies `sent
      ensures sent == old(sent) + data
    {
      sent := sent + data;
    }

    /** Some of the bytes to come, at least one unless the peer has closed. */
    method Recv(size: nat) returns (chunk: Bytes)
      requires size > 0
      modifies `stream, `ready
      ensures chunk + stream == old(stream)
      ensures |chunk| <= size && (chunk == [] <==> old(stream) == [])
    {
      var n := if ready == [] then size else Max(1, ready[0]);
      ready := if ready == [] then [] else ready[1..];
      var take := Min(Min(n, size), |stream|);
      chunk, stream := stream[..take], stream[take..];
    }

    /** Exactly `size` bytes, or all there are; None is the ValueError. */
    method RecvExact(size: int) returns (data: Option<Bytes>)
      modifies `stream, `ready
      ensures data.None? <==> size < 0 || size > MAX_TPKT_SIZE
      ensures data.None? ==> stream == old(stream)
      ensures data.Some? ==> data.value == Take(old(stream), size) && data.value + stream == old(stream)
    {
      if size < 0 || size > MAX_TPKT_SIZE {
        return None;
      }
      var got: Bytes := [];
      while |got| < size
        invariant |got| <= size
        invariant got + stream == old(stream)
        decreases size - |got|
      {
        var chunk := Recv(size - |got|);
        if chunk == [] {
          break;
        }
        got := got + chunk;
      }
      assert got == old(stream)[..|got|];
      data := Some(got);
    }

    /** One probe: the answer depends on the peer's bytes only, not on how they arrive. */
    method Probe() returns (answer: Answer)
      modifies this
      ensures answer == Interpret(old(stream))
      ensures sent == old(sent) + ConnectionRequest(REQUESTED_PROTOCOLS).value
    {
      SendAll(ConnectionRequest(REQUESTED_PROTOCOLS).value);
      ghost var whole := stream;
      var header := RecvExact(TPKT_HEADER_SIZE);
      if header.value == [] {
        return Error(NoReply);
      }
      if |header.value| < TPKT_HEADER_SIZE {
        return Error(TruncatedHeader(|header.value|));
      }
      assert header.value == whole[..4] && stream == whole[4..];
      var version, reserved, total := header.value[0], header.value[1], U16(header.value[3], header.value[2]);
      if version != 3 || reserved != 0 {
        return Error(BadHeader(version, reserved));
      }
      if total < TPKT_HEADER_SIZE + X224_CONFIRM_SIZE {
        return Error(TooShort(total));
      }
      if total > MAX_TPKT_SIZE {
        return Error(TooLong(total));
      }
      var expected := total - TPKT_HEADER_SIZE;
      var body := RecvExact(expected);
      if |body.value| < expected {
        return Error(TruncatedBody(|body.value|, expected));
      }
      assert body.value == whole[4..total];
      answer := ParseResponse(body.value);
    }
  }

  // -------------------------------------------------------------- theorems --

  lemma Le16RoundTrip(n: int, lo: Byte, hi: Byte)
    requires 0 <= n < 0x1_0000
    ensures U16(Le16(n)[0], Le16(n)[1]) == n
    ensures 0 <= U16(lo, hi) < 0x1_0000 && Le16(U16(lo, hi)) == [lo, hi]
  {
  }

  lemma U32OfLe32(n: int)
    requires 0 <= n < 0x1_0000_0000
    ensures U32(Le32(n)) == n
  {
    var low, high := n % 0x1_0000, n / 0x1_0000;
    var l, h := Le16(low), Le16(high);
    Le16RoundTrip(low, 0, 0);
    Le16RoundTrip(high, 0, 0);
    assert Le32(n) == [l[0], l[1], h[0], h[1]];
    assert U32([l[0], l[1], h[0], h[1]]) == low + 0x1_0000 * high;
  }

  /** A server's Connection Confirm; the five `refs` bytes are its references and class. */
  function Confirm(refs: Bytes, kind: Byte, flags: Byte, payload: Bytes): (r: Bytes)
    requires |refs| == 5 && |payload| == 4
    ensures |r| == 19
  {
    [3, 0, 0, 19, 14, 0xD0] + refs + [kind, flags, 8, 0] + payload
  }

  /** What a confirm of this kind means. */
  function Meaning(kind: Byte, raw: int): Answer {
    if kind == 3 then Failure(raw)
    else if kind != 2 then Error(WrongKind(kind))
    else if ProtocolOf(raw).None? then Error(UnknownProtocol(raw))
    else Selected(ProtocolOf(raw).value, raw)
  }

  lemma ConfirmMeans(refs: Bytes, kind: Byte, flags: Byte, payload: Bytes, rest: Bytes)
    requires |refs| == 5 && |payload| == 4
    ensures Interpret(Confirm(refs, kind, flags, payload) + rest) == Meaning(kind, U32(payload))
  {
    var stream := Confirm(refs, kind, flags, payload) + rest;
    var neg := [kind, flags, 8, 0] + payload;
    assert stream[4..19] == [14, 0xD0] + refs + neg;
    assert stream[4..19][7..] == neg;
    assert neg[4..8] == payload;
  }

  /** An encoded confirm parses back to what it says, whatever follows it. */
  lemma ConfirmRoundTrip(refs: Bytes, kind: Byte, flags: Byte, raw: int, rest: Bytes)
    requires |refs| == 5 && 0 <= raw < 0x1_0000_0000
    ensures Interpret(Confirm(refs, kind, flags, Le32(raw)) + rest) == Meaning(kind, raw)
  {
    ConfirmMeans(refs, kind, flags, Le32(raw), rest);
    U32OfLe32(raw);
  }

  /** Is this stream one well-formed 19-byte confirm, possibly followed by more? */
  ghost predicate BeginsWithConfirm(stream: Bytes, kind: Byte, raw: int) {
    exists refs: Bytes, flags: Byte, payload: Bytes ::
      |refs| == 5 && |payload| == 4 && U32(payload) == raw && Confirm(refs, kind, flags, payload) <= stream
  }

  /** The bytes that decide are forced: packets up to 4096 bytes are read, only 19 are recognised. */
  lemma RecognisedBytes(stream: Bytes)
    requires !Interpret(stream).Error?
    ensures |stream| >= 19 && stream[..6] == [3, 0, 0, 19, 14, 0xD0]
    ensures (stream[11] == 2 || stream[11] == 3) && stream[13] == 8 && stream[14] == 0
    ensures Interpret(stream).raw == U32(stream[15..19])
  {
    var total := U16(stream[3], stream[2]);
    var body := stream[4..total];
    var neg := body[7..];
    assert ParseNegotiation(neg) == Interpret(stream);
    assert |neg| == 8 && total == 19;
    assert neg[4..8] == stream[15..19];
    assert U16(neg[2], neg[3]) == 8;
  }

  /** A recognised stream begins with a confirm. */
  lemma RecognisedIsConfirm(stream: Bytes)
    requires !Interpret(stream).Error?
    ensures |stream| >= 19 && (stream[11] == 2 || stream[11] == 3)
    ensures BeginsWithConfirm(stream, stream[11], Interpret(stream).raw)
  {
    RecognisedBytes(stream);
    var refs, mid, payload := stream[6..11], stream[11..15], stream[15..19];
    assert mid == [stream[11], stream[12], 8, 0];
    assert stream[..19] == stream[..6] + refs + mid + payload;
    assert |refs| == 5 && |payload| == 4 && Confirm(refs, stream[11], stream[12], payload) <= stream;
  }

  lemma BeginningMeans(stream: Bytes, kind: Byte, raw: int)
    requires BeginsWithConfirm(stream, kind, raw)
    ensures Interpret(stream) == Meaning(kind, raw)
  {
    var refs: Bytes, flags: Byte, payload: Bytes :|
      |refs| == 5 && |payload| == 4 && U32(payload) == raw && Confirm(refs, kind, flags, payload) <= stream;
    assert stream == Confirm(refs, kind, flags, payload) + stream[19..];
    ConfirmMeans(refs, kind, flags, payload, stream[19..]);
  }

  /** The payload by which a server selects a protocol. */
  function Code(protocol: Protocol): Bytes {
    match protocol
    case Rdp => [0, 0, 0, 0]
    case Tls => [1, 0, 0, 0]
    case Hybrid => [2, 0, 0, 0]
    case HybridEx => [8, 0, 0, 0]
  }

  ghost predicate Selects(stream: Bytes, payload: Bytes) {
    exists refs: Bytes, flags: Byte :: |refs| == 5 && |payload| == 4 && Confirm(refs, 2, flags, payload) <= stream
  }

  lemma SmallU16(lo: Byte, hi: Byte, n: Byte)
    ensures U16(lo, hi) == n <==> lo == n && hi == 0
  {
  }

  lemma SmallSum(low: int, high: int, n: int)
    requires 0 <= n < 256 && low >= 0 && high >= 0
    ensures low + 0x1_0000 * high == n <==> low == n && high == 0
  {
  }

  lemma SmallU32(payload: Bytes, n: Byte)
    requires |payload| == 4
    ensures U32(payload) == n <==> payload == [n, 0, 0, 0]
  {
    var a, b, c, d := payload[0], payload[1], payload[2], payload[3];
    SmallU16(a, b, n);
    SmallU16(c, d, 0);
    SmallSum(U16(a, b), U16(c, d), n);
    assert payload == [a, b, c, d];
  }

  lemma CodeIs(payload: Bytes, protocol: Protocol)
    requires |payload| == 4
    ensures ProtocolOf(U32(payload)) == Some(protocol) <==> payload == Code(protocol)
  {
    SmallU32(payload, 0);
    SmallU32(payload, 1);
    SmallU32(payload, 2);
    SmallU32(payload, 8);
  }

  /**
   A protocol is selected exactly by a confirm of kind 2 with that protocol's code: 0 for
   RDP, 1 for TLS, 2 for HYBRID and 8 for HYBRID_EX, least significant byte first.
   */
  lemma SelectedIff(stream: Bytes, protocol: Protocol)
    ensures Interpret(stream).Selected? && Interpret(stream).protocol == protocol <==> Selects(stream, Code(protocol))
    ensures Interpret(stream).Selected? ==> Code(Interpret(stream).protocol) == stream[15..19]
  {
    if Interpret(stream).Selected? {
      RecognisedIsConfirm(stream);
      RecognisedBytes(stream);
      BeginningMeans(stream, stream[11], Interpret(stream).raw);
      var payload := stream[15..19];
      CodeIs(payload, Interpret(stream).protocol);
      assert Confirm(stream[6..11], 2, stream[12], payload) <= stream by {
        assert stream[11..15] == [2, stream[12], 8, 0];
        assert stream[..19] == stream[..6] + stream[6..11] + stream[11..15] + payload;
      }
      assert Selects(stream, payload);
    }
    if Selects(stream, Code(protocol)) {
      var refs: Bytes, flags: Byte :| |refs| == 5 && Confirm(refs, 2, flags, Code(protocol)) <= stream;
      CodeIs(Code(protocol), protocol);
      assert BeginsWithConfirm(stream, 2, U32(Code(protocol)));
      BeginningMeans(stream, 2, U32(Code(protocol)));
    }
  }

  /** A failure is reported exactly for a confirm of kind 3, with any code. */
  lemma FailureIff(stream: Bytes, raw: int)
    ensures Interpret(stream) == Failure(raw) <==> BeginsWithConfirm(stream, 3, raw)
  {
    if Interpret(stream) == Failure(raw) {
      RecognisedIsConfirm(stream);
      BeginningMeans(stream, stream[11], raw);
    }
    if BeginsWithConfirm(stream, 3, raw) { BeginningMeans(stream, 3, raw); }
  }

  predicate Truncated(a: Answer) {
    a.Error? && (a.problem.NoReply? || a.problem.TruncatedHeader? || a.problem.TruncatedBody?)
  }

  /** Bytes after the first complete packet never change the answer. */
  lemma PrefixDecides(stream: Bytes, more: Bytes)
    requires !Truncated(Interpret(stream))
    ensures Interpret(stream + more) == Interpret(stream)
  {
    var total := U16(stream[3], stream[2]);
    if total <= |stream| { assert (stream + more)[..total] == stream[..total]; }
    if 4 <= total <= |stream| { assert (stream + more)[4..total] == stream[4..total]; }
  }

  /** A peer that closes within a confirm is always reported as having cut it short. */
  lemma CutConfirmIsTruncated(refs: Bytes, kind: Byte, flags: Byte, payload: Bytes, n: nat)
    requires |refs| == 5 && |payload| == 4 && n < 19
    ensures var answer := Interpret(Confirm(refs, kind, flags, payload)[..n]);
            answer == Error(if n == 0 then NoReply else if n < 4 then TruncatedHeader(n) else TruncatedBody(n - 4, 15))
  {
    var cut := Confirm(refs, kind, flags, payload)[..n];
    if n >= 4 { assert cut[0] == 3 && cut[1] == 0 && cut[2] == 0 && cut[3] == 19; }
  }

  /** One wrong field in a confirm is complained about by name, with the value found. */
  lemma WrongFieldNamed(refs: Bytes, kind: Byte, flags: Byte, payload: Bytes, found: Byte)
    requires |refs| == 5 && |payload| == 4
    ensures var confirm := Confirm(refs, kind, flags, payload);
            && (found != 3 ==> Interpret(confirm[0 := found]) == Error(BadHeader(found, 0)))
            && (found != 0 ==> Interpret(confirm[1 := found]) == Error(BadHeader(3, found)))
            && (found < 11 ==> Interpret(confirm[3 := found]) == Error(TooShort(found)))
            && (found > 19 ==> Interpret(confirm[3 := found]) == Error(TruncatedBody(15, found - 4)))
            && (found >= 16 ==> Interpret(confirm[2 := found]) == Error(TooLong(256 * found + 19)))
  {
  }

  lemma WrongBodyNamed(refs: Bytes, kind: Byte, flags: Byte, payload: Bytes, found: Byte)
    requires |refs| == 5 && |payload| == 4
    ensures var confirm := Confirm(refs, kind, flags, payload);
            && (found < 6 ==> Interpret(confirm[4 := found]) == Error(BadIndicator(found)))
            && (found >= 6 && found != 14 ==> Interpret(confirm[4 := found]) == Error(IndicatorMismatch(found, 15)))
            && (found != 0xD0 ==> Interpret(confirm[5 := found]) == Error(WrongType(found)))
  {
  }

  /** A packet with consistent lengths around any negotiation data. */
  function Packet(refs: Bytes, neg: Bytes): Bytes
    requires |refs| == 5 && |neg| < 240
  {
    [3, 0, 0, 11 + |neg|, 6 + |neg|, 0xD0] + refs + neg
  }

  /** What is wrong with the negotiation data of such a packet is said, in this order. */
  lemma NegotiationNamed(refs: Bytes, neg: Bytes, rest: Bytes)
    requires |refs| == 5 && |neg| < 240
    ensures var answer := Interpret(Packet(refs, neg) + rest);
            && (|neg| == 0 ==> answer == Error(NoNegotiation))
            && (1 <= |neg| < 4 ==> answer == Error(TruncatedNegotiation))
            && (|neg| >= 4 ==>
                  var length := neg[2] as int + 256 * neg[3] as int;
                  && (neg[0] != 2 && neg[0] != 3 ==> answer == Error(WrongKind(neg[0])))
                  && ((neg[0] == 2 || neg[0] == 3) && length != 8 ==> answer == Error(BadLength(length)))
                  && ((neg[0] == 2 || neg[0] == 3) && length == 8 && |neg| != 8 ==>
                        answer == Error(LengthMismatch(|neg|)))
                  && ((neg[0] == 2 || neg[0] == 3) && length == 8 && |neg| == 8 ==>
                        answer == Meaning(neg[0], U32(neg[4..8]))))
  {
    var stream, total := Packet(refs, neg) + rest, 11 + |neg|;
    assert stream[4..total] == [6 + |neg|, 0xD0] + refs + neg;
    assert stream[4..total][7..] == neg;
  }

  /** The bytes of the request that asks for TLS, HYBRID and HYBRID_EX. */
  lemma RequestBytes()
    ensures ConnectionRequest(REQUESTED_PROTOCOLS).Some?
    ensures ConnectionRequest(REQUESTED_PROTOCOLS).value ==
            [3, 0, 0, 19, 14, 0xE0, 0, 0, 0, 0, 0, 1, 0, 8, 0, 11, 0, 0, 0]
  {
    var requested := REQUESTED_PROTOCOLS;
    assert Le16(requested % 0x1_0000) == [11, 0] && Le16(requested / 0x1_0000) == [0, 0];
    assert Le32(requested) == [11, 0, 0, 0];
    assert ConnectionRequest(requested).value == [3, 0, 0, 19, 14, 0xE0, 0, 0, 0, 0, 0, 1, 0, 8, 0] + Le32(requested);
  }

  /** Both length fields of the request are right, and it carries the protocols asked for. */
  lemma RequestIsWellFormed(requested: int)
    ensures ConnectionRequest(requested).Some? <==> 0 <= requested < 0x1_0000_0000
    ensures ConnectionRequest(requested).Some? ==>
              var r := ConnectionRequest(requested).value;
              && |r| == 19 && r[0] == 3 && r[1] == 0
              && U16(r[3], r[2]) == |r| && r[4] as int + 1 == |r| - TPKT_HEADER_SIZE && r[5] == 0xE0
              && r[11] == 1 && U16(r[13], r[14]) == |r[11..]| && U32(r[15..]) == requested
  {
    if 0 <= requested < 0x1_0000_0000 {
      var r := ConnectionRequest(requested).value;
      assert r[15..] == Le32(requested);
      U32OfLe32(requested);
    }
  }
}
