/** The frame codec: one frame per channel message, with an eight byte header. */
module Frame {
  import opened Common
  import opened Utf8

  const HEADER_SIZE := 8
  const VERSION: byte := 1
  const PAYLOAD_LIMIT := 262144
  const PING_SIZE := 8
  const MAX_CLOSE_REASON := 256

  const TYPE_DATA: byte := 1
  const TYPE_PING: byte := 2
  const TYPE_PONG: byte := 3
  const TYPE_CLOSE: byte := 4

  type uint16 = n: int | 0 <= n < 0x1_0000
  type uint32 = n: int | 0 <= n < 0x1_0000_0000

  datatype Error = ErrProtocol | ErrShortDestination

  predicate ValidType(t: byte) { TYPE_DATA <= t <= TYPE_CLOSE }

  // ----------------------------------------------------- network byte order

  function Put16(n: uint16): (b: seq<byte>)
    ensures |b| == 2
  {
    [n / 256, n % 256]
  }

  function Get16(b: seq<byte>): uint16
    requires |b| == 2
  {
    (b[0] as int) * 256 + b[1]
  }

  function Put32(n: uint32): (b: seq<byte>)
    ensures |b| == 4
  {
    Put16(n / 0x1_0000) + Put16(n % 0x1_0000)
  }

  function Get32(b: seq<byte>): uint32
    requires |b| == 4
  {
    Get16(b[..2]) * 0x1_0000 + Get16(b[2..])
  }

  /** Most significant byte first. */
  lemma BigEndian(n: uint32)
    ensures n < 0x1_0000 ==> Put16(n)[0] as int * 0x100 + Put16(n)[1] as int == n
    ensures var b := Put32(n);
      b[0] as int * 0x100_0000 + b[1] as int * 0x1_0000 + b[2] as int * 0x100 + b[3] as int == n
  {
  }

  lemma Put16Get16(n: uint16)
    ensures Get16(Put16(n)) == n
  {
  }

  lemma Get16Put16(b: seq<byte>)
    requires |b| == 2
    ensures Put16(Get16(b)) == b
  {
  }

  lemma Put32Get32(n: uint32)
    ensures Get32(Put32(n)) == n
  {
    var b := Put32(n);
    assert b[..2] == Put16(n / 0x1_0000) && b[2..] == Put16(n % 0x1_0000);
  }

  lemma Get32Put32(b: seq<byte>)
    requires |b| == 4
    ensures Put32(Get32(b)) == b
  {
    Get16Put16(b[..2]);
    Get16Put16(b[2..]);
    assert b == b[..2] + b[2..];
  }

  // ------------------------------------------------------------------ frames

  /** The bytes of a frame: version, type, zero flags, length, payload. */
  function Bytes(t: byte, payload: seq<byte>): (msg: seq<byte>)
    requires |payload| <= PAYLOAD_LIMIT
    ensures |msg| == HEADER_SIZE + |payload|
  {
    [VERSION, t] + Put16(0) + Put32(|payload|) + payload
  }

  lemma BytesParts(t: byte, payload: seq<byte>)
    requires |payload| <= PAYLOAD_LIMIT
    ensures var msg := Bytes(t, payload);
      && msg[0] == VERSION && msg[1] == t && msg[2..4] == Put16(0)
      && msg[4..8] == Put32(|payload|) && msg[HEADER_SIZE..] == payload
  {
  }

  /** The layout, byte by byte: the length is most significant byte first. */
  lemma BytesLayout(t: byte, payload: seq<byte>)
    requires |payload| <= PAYLOAD_LIMIT
    ensures var msg := Bytes(t, payload);
      && msg[..4] == [1, t, 0, 0] && msg[8..] == payload
      && msg[4] as int * 0x100_0000 + msg[5] as int * 0x1_0000 + msg[6] as int * 0x100 + msg[7] as int == |payload|
  {
    var length := Put32(|payload|);
    BigEndian(|payload|);
    assert Bytes(t, payload)[4..8] == length;
    assert Bytes(t, payload)[4] == length[0] && Bytes(t, payload)[5] == length[1];
    assert Bytes(t, payload)[6] == length[2] && Bytes(t, payload)[7] == length[3];
  }

  function Header(t: byte, n: nat): (h: seq<byte>)
    requires n <= PAYLOAD_LIMIT
    ensures |h| == HEADER_SIZE
  {
    [VERSION, t] + Put16(0) + Put32(n)
  }

  method PutHeader(dst: array<byte>, t: byte, n: nat)
    requires n <= PAYLOAD_LIMIT && dst.Length >= HEADER_SIZE
    modifies dst
    ensures dst[..HEADER_SIZE] == Header(t, n) && dst[HEADER_SIZE..] == old(dst[HEADER_SIZE..])
  {
    var flags, length := Put16(0), Put32(n);
    dst[0], dst[1], dst[2], dst[3] := VERSION, t, flags[0], flags[1];
    dst[4], dst[5], dst[6], dst[7] := length[0], length[1], length[2], length[3];
  }

  method CopyPayload(dst: array<byte>, payload: seq<byte>)
    requires dst.Length >= HEADER_SIZE + |payload|
    modifies dst
    ensures dst[..HEADER_SIZE] == old(dst[..HEADER_SIZE])
    ensures dst[HEADER_SIZE..HEADER_SIZE + |payload|] == payload
    ensures dst[HEADER_SIZE + |payload|..] == old(dst[HEADER_SIZE + |payload|..])
  {
    forall i | 0 <= i < |payload| {
      dst[HEADER_SIZE + i] := payload[i];
    }
  }

  /** Encodes into dst in place and returns the length of the frame. */
  method Encode(dst: array<byte>, t: byte, payload: seq<byte>) returns (r: Result<nat, Error>)
    modifies dst
    ensures r.Ok? <==> |payload| <= PAYLOAD_LIMIT && dst.Length >= HEADER_SIZE + |payload|
    ensures r.Err? ==> r.error == if |payload| > PAYLOAD_LIMIT then ErrProtocol else ErrShortDestination
    ensures r.Err? ==> dst[..] == old(dst[..])
    ensures r.Ok? ==> r.value == HEADER_SIZE + |payload| && dst[..r.value] == Bytes(t, payload)
    ensures r.Ok? ==> dst[r.value..] == old(dst[r.value..])
  {
    var total := HEADER_SIZE + |payload|;
    if |payload| > PAYLOAD_LIMIT { return Err(ErrProtocol); }
    if dst.Length < total { return Err(ErrShortDestination); }
    ghost var tail := dst[HEADER_SIZE..];
    PutHeader(dst, t, |payload|);
    assert dst[total..] == tail[|payload|..];
    CopyPayload(dst, payload);
    assert dst[..total] == dst[..HEADER_SIZE] + dst[HEADER_SIZE..total];
    r := Ok(total);
  }

  /** Appends a frame to dst. */
  function Append(dst: seq<byte>, t: byte, payload: seq<byte>): Result<seq<byte>, Error>
  {
    if |payload| > PAYLOAD_LIMIT then Err(ErrProtocol)
    else Ok(dst + ([VERSION, t, 0, 0] + Put32(|payload|)) + payload)
  }

  /** Encode and Append agree on the frame. */
  lemma AppendIsBytes(dst: seq<byte>, t: byte, payload: seq<byte>)
    requires |payload| <= PAYLOAD_LIMIT
    ensures Append(dst, t, payload) == Ok(dst + Bytes(t, payload))
  {
    var header := [VERSION, t, 0, 0] + Put32(|payload|);
    assert header == [VERSION, t] + Put16(0) + Put32(|payload|);
    assert dst + header + payload == dst + (header + payload);
  }

  datatype Parsed = Parsed(t: byte, payload: seq<byte>)

  function Limit(maxPayload: int): nat
  {
    if maxPayload < 0 || maxPayload > PAYLOAD_LIMIT then PAYLOAD_LIMIT else maxPayload
  }

  /** The payload rules of each frame type. */
  predicate Shaped(t: byte, payload: seq<byte>)
  {
    && (t == TYPE_PING || t == TYPE_PONG ==> |payload| == PING_SIZE)
    && (t == TYPE_CLOSE ==> |payload| >= 2)
  }

  function Parse(msg: seq<byte>, maxPayload: int): Result<Parsed, Error>
  {
    if |msg| < HEADER_SIZE then Err(ErrProtocol)
    else
      var t, length := msg[1], Get32(msg[4..8]);
      if msg[0] != VERSION then Err(ErrProtocol)
      else if !ValidType(t) then Err(ErrProtocol)
      else if Get16(msg[2..4]) != 0 then Err(ErrProtocol)
      else if length > Limit(maxPayload) then Err(ErrProtocol)
      else if length != |msg| - HEADER_SIZE then Err(ErrProtocol)
      else
        var payload := msg[HEADER_SIZE..HEADER_SIZE + length];
        if (t == TYPE_PING || t == TYPE_PONG) && |payload| != PING_SIZE then Err(ErrProtocol)
        else if t == TYPE_CLOSE && |payload| < 2 then Err(ErrProtocol)
        else Ok(Parsed(t, payload))
  }

  /** An encoded frame is accepted exactly when its type, size and shape are, and comes back whole. */
  lemma ParseOfBytes(t: byte, payload: seq<byte>, maxPayload: int)
    requires |payload| <= PAYLOAD_LIMIT
    ensures Parse(Bytes(t, payload), maxPayload) ==
      if ValidType(t) && |payload| <= Limit(maxPayload) && Shaped(t, payload)
      then Ok(Parsed(t, payload)) else Err(ErrProtocol)
  {
    BytesParts(t, payload);
    Put16Get16(0);
    Put32Get32(|payload|);
    assert Bytes(t, payload)[HEADER_SIZE..HEADER_SIZE + |payload|] == payload;
  }

  /** The length field of a message, most significant byte first. */
  function LengthField(msg: seq<byte>): int
    requires |msg| >= 8
  {
    msg[4] as int * 0x100_0000 + msg[5] as int * 0x1_0000 + msg[6] as int * 0x100 + msg[7] as int
  }

  /** Exactly which messages a parser admits, and what it makes of them. */
  lemma AcceptedExactly(msg: seq<byte>, maxPayload: int)
    ensures Parse(msg, maxPayload).Ok? <==>
      && |msg| >= 8 && msg[0] == 1 && 1 <= msg[1] <= 4 && msg[2] == 0 && msg[3] == 0
      && LengthField(msg) == |msg| - 8 <= (if 0 <= maxPayload <= 262144 then maxPayload else 262144)
      && (msg[1] == 2 || msg[1] == 3 ==> |msg| == 16)
      && (msg[1] == 4 ==> |msg| >= 10)
    ensures Parse(msg, maxPayload).Ok? ==> Parse(msg, maxPayload).value == Parsed(msg[1], msg[8..])
  {
    if |msg| >= 8 { FieldsOf(msg); }
  }

  lemma FieldsOf(msg: seq<byte>)
    requires |msg| >= 8
    ensures Get16(msg[2..4]) == 0 <==> msg[2] == 0 && msg[3] == 0
    ensures Get32(msg[4..8]) == LengthField(msg)
  {
    var length := msg[4..8];
    assert length[..2] == [msg[4], msg[5]] && length[2..] == [msg[6], msg[7]];
  }

  /** Every accepted message is the encoding of what was parsed from it, byte for byte. */
  lemma BytesOfParse(msg: seq<byte>, maxPayload: int)
    requires Parse(msg, maxPayload).Ok?
    ensures var p := Parse(msg, maxPayload).value;
      && ValidType(p.t) && Shaped(p.t, p.payload) && |p.payload| <= Limit(maxPayload)
      && Bytes(p.t, p.payload) == msg
  {
    Get16Put16(msg[2..4]);
    Get32Put32(msg[4..8]);
    assert msg == [msg[0], msg[1]] + msg[2..4] + msg[4..8] + msg[8..];
  }

  // ------------------------------------------------------------- close frames

  datatype CloseInfo = CloseInfo(code: uint16, reason: seq<byte>)

  /** The reason a close frame carries: long ones are cut to the longest valid prefix. */
  function SentReason(reason: seq<byte>): (r: seq<byte>)
    ensures |r| <= MAX_CLOSE_REASON
  {
    if |reason| <= MAX_CLOSE_REASON then reason
    else reason[..LongestValid(reason, MAX_CLOSE_REASON)]
  }

  method EncodeClose(code: uint16, reason: seq<byte>) returns (out: seq<byte>)
    ensures out == Put16(code) + SentReason(reason)
  {
    var cut := reason;
    if |reason| > MAX_CLOSE_REASON {
      cut := reason[..MAX_CLOSE_REASON];
      while |cut| > 0 && !Valid(cut)
        invariant |cut| <= MAX_CLOSE_REASON && cut == reason[..|cut|]
        invariant LongestValid(reason, MAX_CLOSE_REASON) == LongestValid(reason, |cut|)
      {
        cut := cut[..|cut| - 1];
      }
    }
    out := Put16(code) + cut;
  }

  function ParseClose(payload: seq<byte>): Result<CloseInfo, Error>
  {
    if |payload| < 2 then Err(ErrProtocol)
    else
      var reason := payload[2..];
      if |reason| > MAX_CLOSE_REASON then Err(ErrProtocol)
      else if !Valid(reason) then Err(ErrProtocol)
      else Ok(CloseInfo(Get16(payload[..2]), reason))
  }

  /** Exactly which close payloads are readable, and what they say. */
  lemma CloseReadExactly(payload: seq<byte>)
    ensures ParseClose(payload).Ok? <==> 2 <= |payload| <= 258 && Valid(payload[2..])
    ensures ParseClose(payload).Ok? ==>
      ParseClose(payload).value == CloseInfo(payload[0] as int * 0x100 + payload[1] as int, payload[2..])
  {
    if |payload| >= 2 { assert payload[..2] == [payload[0], payload[1]]; }
  }

  /**
    The peer can read a close frame if and only if the reason was valid text or
    was long enough to be cut; it then gets the code and the longest valid prefix
    that fits, which for valid text is at most three bytes short of the limit.
   */
  lemma CloseRoundTrip(code: uint16, reason: seq<byte>)
    ensures var parsed := ParseClose(Put16(code) + SentReason(reason));
      && (parsed.Ok? <==> Valid(reason) || |reason| > MAX_CLOSE_REASON)
      && (parsed.Ok? ==> parsed.value == CloseInfo(code, SentReason(reason)))
    ensures Valid(reason) ==> |SentReason(reason)| >= Min(|reason|, MAX_CLOSE_REASON - 3)
    ensures SentReason(reason) <= reason
    ensures forall n | |SentReason(reason)| < n <= Min(|reason|, MAX_CLOSE_REASON) :: !Valid(reason[..n])
  {
    var payload := Put16(code) + SentReason(reason);
    assert payload[2..] == SentReason(reason) && payload[..2] == Put16(code);
    Put16Get16(code);
    if Valid(reason) && |reason| > MAX_CLOSE_REASON { CutLosesLittle(reason, MAX_CLOSE_REASON); }
  }

  /** A close frame is always a well-shaped frame. */
  lemma CloseFrameParses(code: uint16, reason: seq<byte>, maxPayload: int)
    requires Limit(maxPayload) >= 2 + MAX_CLOSE_REASON
    ensures var body := Put16(code) + SentReason(reason);
      Parse(Bytes(TYPE_CLOSE, body), maxPayload) == Ok(Parsed(TYPE_CLOSE, body))
  {
    ParseOfBytes(TYPE_CLOSE, Put16(code) + SentReason(reason), maxPayload);
  }
}
