/** Version 1 frame headers and control payloads, byte for byte. */
module Codec {
  import opened Bytes

  const VERSION := 1
  const HEADER_BYTES := 12
  const TAG_BYTES := 16
  const MAX_PAYLOAD := 65_536
  const MAX_REASON := 1_024

  datatype Kind = Hello | Auth | Ping | Pong | GoAway | Error | Open | Data | End | Cancel

  datatype ErrorCode =
    | NoError
    | ProtocolError
    | AuthenticationFailed
    | FrameSizeError
    | UnsupportedProtocol
    | StreamStateError
    | RefusedStream
    | InternalError
    | IdExhausted
    | Cancelled
    | ResourceLimit

  datatype Protection = Untagged | Tagged

  datatype Header = Header(kind: Kind, id: u32, length: u32)

  datatype HeaderError =
    | InvalidLength
    | UnsupportedVersion
    | NonzeroFlags
    | PayloadTooLarge
    | UnknownType
    | InvalidStreamId

  datatype PayloadError =
    | TooShort
    | ReasonTooLong
    | LengthMismatch
    | InvalidUtf8
    | UnknownCode
    | ByteOrderMark
    | NoErrorForbidden

  datatype OpenError = Length | Identifier | ProtocolVersion

  datatype Protocol = Protocol(id: seq<byte>, version: u32)

  datatype Diagnostic = Diagnostic(code: ErrorCode, reason: seq<byte>)

  function KindByte(k: Kind): byte {
    match k
    case Hello => 0x01
    case Auth => 0x02
    case Ping => 0x03
    case Pong => 0x04
    case GoAway => 0x05
    case Error => 0x06
    case Open => 0x10
    case Data => 0x11
    case End => 0x12
    case Cancel => 0x13
  }

  function KindOf(b: byte): (r: Result<Kind, HeaderError>)
    ensures forall k :: r == Ok(k) <==> KindByte(k) == b
  {
    if b == 0x01 then Ok(Hello)
    else if b == 0x02 then Ok(Auth)
    else if b == 0x03 then Ok(Ping)
    else if b == 0x04 then Ok(Pong)
    else if b == 0x05 then Ok(GoAway)
    else if b == 0x06 then Ok(Error)
    else if b == 0x10 then Ok(Open)
    else if b == 0x11 then Ok(Data)
    else if b == 0x12 then Ok(End)
    else if b == 0x13 then Ok(Cancel)
    else Err(UnknownType)
  }

  function CodeNumber(c: ErrorCode): u16 {
    match c
    case NoError => 0
    case ProtocolError => 1
    case AuthenticationFailed => 2
    case FrameSizeError => 3
    case UnsupportedProtocol => 4
    case StreamStateError => 5
    case RefusedStream => 6
    case InternalError => 7
    case IdExhausted => 8
    case Cancelled => 9
    case ResourceLimit => 10
  }

  function CodeOf(n: u16): (r: Result<ErrorCode, PayloadError>)
    ensures forall c :: r == Ok(c) <==> CodeNumber(c) == n
  {
    if n == 0 then Ok(NoError)
    else if n == 1 then Ok(ProtocolError)
    else if n == 2 then Ok(AuthenticationFailed)
    else if n == 3 then Ok(FrameSizeError)
    else if n == 4 then Ok(UnsupportedProtocol)
    else if n == 5 then Ok(StreamStateError)
    else if n == 6 then Ok(RefusedStream)
    else if n == 7 then Ok(InternalError)
    else if n == 8 then Ok(IdExhausted)
    else if n == 9 then Ok(Cancelled)
    else if n == 10 then Ok(ResourceLimit)
    else Err(UnknownCode)
  }

  /** Which stream identifiers a frame type may carry; ERROR has both scopes. */
  predicate ValidScope(k: Kind, id: u32) {
    match k
    case Hello | Auth | Ping | Pong | GoAway => id == 0
    case Open | Data | End | Cancel => id != 0
    case Error => true
  }

  predicate ValidHeader(h: Header) {
    h.length <= MAX_PAYLOAD && ValidScope(h.kind, h.id)
  }

  function NewHeader(kind: Kind, id: u32, length: u32): (r: Result<Header, HeaderError>)
    ensures forall h :: r == Ok(h) <==> ValidHeader(h) && h.kind == kind && h.id == id && h.length == length
    ensures r == Err(PayloadTooLarge) <==> length > MAX_PAYLOAD
    ensures r.Err? && length <= MAX_PAYLOAD ==> r == Err(InvalidStreamId)
  {
    if length > MAX_PAYLOAD then Err(PayloadTooLarge)
    else if !ValidScope(kind, id) then Err(InvalidStreamId)
    else Ok(Header(kind, id, length))
  }

  function EncodeHeader(h: Header): (r: seq<byte>)
    ensures |r| == HEADER_BYTES
  {
    [VERSION, KindByte(h.kind), 0, 0] + BigEndian32(h.id) + BigEndian32(h.length)
  }

  /** Checks keep the order version, flags, size, type and stream scope. */
  function DecodeHeader(s: seq<byte>): Result<Header, HeaderError> {
    if |s| != HEADER_BYTES then Err(InvalidLength)
    else if s[0] != VERSION then Err(UnsupportedVersion)
    else if FromBigEndian16(s[2..4]) != 0 then Err(NonzeroFlags)
    else
      var length := FromBigEndian32(s[8..12]);
      if length > MAX_PAYLOAD then Err(PayloadTooLarge)
      else match KindOf(s[1])
           case Err(e) => Err(e)
           case Ok(kind) => NewHeader(kind, FromBigEndian32(s[4..8]), length)
  }

  function FrameLength(h: Header, p: Protection): nat {
    HEADER_BYTES + h.length + (if p == Tagged then TAG_BYTES else 0)
  }

  /** Decoding succeeds on exactly the encodings of valid headers. */
  lemma HeaderExact(s: seq<byte>, h: Header)
    ensures DecodeHeader(s) == Ok(h) <==> ValidHeader(h) && s == EncodeHeader(h)
  {
    if ValidHeader(h) && s == EncodeHeader(h) {
      assert s[2..4] == [0, 0];
      assert s[4..8] == BigEndian32(h.id);
      assert s[8..12] == BigEndian32(h.length);
      RoundTrip32(h.id);
      RoundTrip32(h.length);
    }
    if DecodeHeader(s) == Ok(h) {
      Canonical32(s[4..8]);
      Canonical32(s[8..12]);
      assert s == s[..4] + s[4..8] + s[8..12];
      assert s[..4] == [VERSION, KindByte(h.kind), 0, 0];
    }
  }

  /** Canonical header bytes identify the header they were made from. */
  lemma HeaderInjective(h: Header, g: Header)
    requires ValidHeader(h) && ValidHeader(g)
    ensures EncodeHeader(h) == EncodeHeader(g) ==> h == g
  {
    HeaderExact(EncodeHeader(h), h);
    HeaderExact(EncodeHeader(g), g);
  }

  predicate Alphanumeric(b: byte) {
    'a' as int <= b <= 'z' as int || '0' as int <= b <= '9' as int
  }

  const DOT: byte := '.' as int
  const DASH: byte := '-' as int

  /** Namespace grammar: letters and digits at both ends, dots and dashes inside, no empty label. */
  predicate ValidIdentifier(s: seq<byte>) {
    && 1 <= |s| <= 255
    && Alphanumeric(s[0]) && Alphanumeric(s[|s| - 1])
    && (forall i :: 0 <= i < |s| ==> Alphanumeric(s[i]) || s[i] == DOT || s[i] == DASH)
    && (forall i :: 0 < i < |s| ==> !(s[i - 1] == DOT && s[i] == DOT))
  }

  predicate ValidProtocol(p: Protocol) {
    ValidIdentifier(p.id) && p.version != 0
  }

  function NewOpen(id: seq<byte>, version: u32): (r: Result<Protocol, OpenError>)
    ensures r.Ok? <==> ValidProtocol(Protocol(id, version))
    ensures r.Ok? ==> r.value == Protocol(id, version)
  {
    if !(1 <= |id| <= 255) then Err(Length)
    else if !ValidIdentifier(id) then Err(Identifier)
    else if version == 0 then Err(ProtocolVersion)
    else Ok(Protocol(id, version))
  }

  function EncodeOpen(p: Protocol): seq<byte>
    requires ValidProtocol(p)
  {
    BigEndian16(|p.id|) + p.id + BigEndian32(p.version)
  }

  function DecodeOpen(s: seq<byte>): Result<Protocol, OpenError> {
    if |s| < 7 then Err(Length)
    else
      var n := FromBigEndian16(s[..2]);
      if !(1 <= n <= 255) || |s| != n + 6 then Err(Length)
      else NewOpen(s[2..2 + n], FromBigEndian32(s[2 + n..]))
  }

  /** OPEN payloads decode exactly when they encode a valid selection, with nothing trailing. */
  lemma OpenExact(s: seq<byte>, p: Protocol)
    ensures DecodeOpen(s) == Ok(p) <==> ValidProtocol(p) && s == EncodeOpen(p)
  {
    if ValidProtocol(p) && s == EncodeOpen(p) {
      var n := |p.id|;
      assert s[..2] == BigEndian16(n);
      RoundTrip16(n);
      assert s[2..2 + n] == p.id;
      assert s[2 + n..] == BigEndian32(p.version);
      RoundTrip32(p.version);
    }
    if DecodeOpen(s) == Ok(p) {
      var n := FromBigEndian16(s[..2]);
      Canonical16(s[..2]);
      Canonical32(s[2 + n..]);
      assert s == s[..2] + s[2..2 + n] + s[2 + n..];
    }
  }

  const BYTE_ORDER_MARK: seq<byte> := [0xEF, 0xBB, 0xBF]

  predicate ValidDiagnostic(d: Diagnostic, allowNoError: bool) {
    && |d.reason| <= MAX_REASON
    && ValidUtf8(d.reason)
    && !(BYTE_ORDER_MARK <= d.reason)
    && (d.code == NoError ==> allowNoError)
  }

  function NewDiagnostic(code: ErrorCode, reason: seq<byte>, allowNoError: bool): Result<Diagnostic, PayloadError> {
    if |reason| > MAX_REASON then Err(ReasonTooLong)
    else if BYTE_ORDER_MARK <= reason then Err(ByteOrderMark)
    else if code == NoError && !allowNoError then Err(NoErrorForbidden)
    else Ok(Diagnostic(code, reason))
  }

  function EncodeDiagnostic(d: Diagnostic): seq<byte>
    requires |d.reason| <= MAX_REASON
  {
    BigEndian16(CodeNumber(d.code)) + BigEndian16(|d.reason|) + d.reason
  }

  function DecodeDiagnostic(s: seq<byte>, allowNoError: bool): Result<Diagnostic, PayloadError> {
    if |s| < 4 then Err(TooShort)
    else
      var n := FromBigEndian16(s[2..4]);
      if n > MAX_REASON then Err(ReasonTooLong)
      else if |s| != 4 + n then Err(LengthMismatch)
      else if !ValidUtf8(s[4..]) then Err(InvalidUtf8)
      else match CodeOf(FromBigEndian16(s[..2]))
           case Err(e) => Err(e)
           case Ok(code) => NewDiagnostic(code, s[4..], allowNoError)
  }

  lemma DiagnosticExact(s: seq<byte>, d: Diagnostic, allowNoError: bool)
    ensures DecodeDiagnostic(s, allowNoError) == Ok(d) <==>
            ValidDiagnostic(d, allowNoError) && s == EncodeDiagnostic(d)
  {
    if ValidDiagnostic(d, allowNoError) && s == EncodeDiagnostic(d) {
      assert s[..2] == BigEndian16(CodeNumber(d.code));
      assert s[2..4] == BigEndian16(|d.reason|);
      assert s[4..] == d.reason;
      RoundTrip16(CodeNumber(d.code));
      RoundTrip16(|d.reason|);
    }
    if DecodeDiagnostic(s, allowNoError) == Ok(d) {
      Canonical16(s[..2]);
      Canonical16(s[2..4]);
      assert s == s[..2] + s[2..4] + s[4..];
    }
  }

  /** ERROR and CANCEL share one diagnostic, which never carries NO_ERROR. */
  function DecodeError(s: seq<byte>): Result<Diagnostic, PayloadError> {
    DecodeDiagnostic(s, false)
  }

  /** The session's own ERROR and CANCEL payloads, which carry no text. */
  function EncodeError(code: ErrorCode): (r: seq<byte>)
    ensures |r| == 4
    ensures code != NoError ==> DecodeError(r) == Ok(Diagnostic(code, []))
  {
    var d := Diagnostic(code, []);
    DiagnosticExact(EncodeDiagnostic(d), d, false);
    EncodeDiagnostic(d)
  }

  function DecodeGoAway(s: seq<byte>): Result<(u32, Diagnostic), PayloadError> {
    if |s| < 8 then Err(TooShort)
    else match DecodeDiagnostic(s[4..], true)
         case Err(e) => Err(e)
         case Ok(d) => Ok((FromBigEndian32(s[..4]), d))
  }

  function EncodeGoAway(last: u32, d: Diagnostic): seq<byte>
    requires |d.reason| <= MAX_REASON
  {
    BigEndian32(last) + EncodeDiagnostic(d)
  }

  lemma GoAwayExact(s: seq<byte>, last: u32, d: Diagnostic)
    ensures DecodeGoAway(s) == Ok((last, d)) <==> ValidDiagnostic(d, true) && s == EncodeGoAway(last, d)
  {
    if ValidDiagnostic(d, true) && s == EncodeGoAway(last, d) {
      assert s[..4] == BigEndian32(last);
      assert s[4..] == EncodeDiagnostic(d);
      RoundTrip32(last);
      DiagnosticExact(s[4..], d, true);
    }
    if DecodeGoAway(s) == Ok((last, d)) {
      Canonical32(s[..4]);
      DiagnosticExact(s[4..], d, true);
      assert s == s[..4] + s[4..];
    }
  }

  function GoAwayPayload(last: u32, code: ErrorCode): (r: seq<byte>)
    ensures |r| == 8
    ensures DecodeGoAway(r) == Ok((last, Diagnostic(code, [])))
  {
    var d := Diagnostic(code, []);
    GoAwayExact(EncodeGoAway(last, d), last, d);
    EncodeGoAway(last, d)
  }

  function DecodePing(s: seq<byte>): Result<u64, PayloadError> {
    if |s| != 8 then Err(LengthMismatch) else Ok(FromBigEndian64(s))
  }

  function EncodePing(token: u64): (r: seq<byte>)
    ensures |r| == 8 && DecodePing(r) == Ok(token)
  {
    RoundTrip64(token);
    BigEndian64(token)
  }
}
