/** HELLO and AUTH payloads, the role-ordered transcript and the messages signed over it. */
module Transcripts {
  import opened Bytes
  import opened StreamNumbering

  const HELLO_BYTES := 100
  const AUTH_BYTES := 64

  type Bytes32 = s: seq<byte> | |s| == 32 witness seq(32, _ => 0)
  type Signature = s: seq<byte> | |s| == 64 witness seq(64, _ => 0)

  datatype Hello = Hello(identityKey: Bytes32, ephemeralKey: Bytes32, nonce: Bytes32)

  datatype HelloError = WrongLength(actual: nat) | Selector(offset: nat, value: byte)

  function EncodeHello(h: Hello): (r: seq<byte>)
    ensures |r| == HELLO_BYTES
  {
    [1, 1, 1] + h.identityKey + [1] + h.ephemeralKey + h.nonce
  }

  function DecodeHello(s: seq<byte>): Result<Hello, HelloError> {
    if |s| != HELLO_BYTES then Err(WrongLength(|s|))
    else if s[0] != 1 then Err(Selector(0, s[0]))
    else if s[1] != 1 then Err(Selector(1, s[1]))
    else if s[2] != 1 then Err(Selector(2, s[2]))
    else if s[35] != 1 then Err(Selector(35, s[35]))
    else Ok(Hello(s[3..35], s[36..68], s[68..]))
  }

  /** Decoding accepts exactly the encodings. */
  lemma HelloExact(s: seq<byte>, h: Hello)
    ensures DecodeHello(s) == Ok(h) <==> s == EncodeHello(h)
  {
    if s == EncodeHello(h) {
      assert s[3..35] == h.identityKey && s[36..68] == h.ephemeralKey && s[68..] == h.nonce;
    }
    if DecodeHello(s) == Ok(h) {
      assert s == s[..3] + s[3..35] + s[35..36] + s[36..68] + s[68..];
      assert s[..3] == [1, 1, 1] && s[35..36] == [1];
    }
  }

  /** Both complete HELLO payloads, initiator first, each behind its length. */
  function Transcript(initiator: Hello, acceptor: Hello): (r: seq<byte>)
    ensures |r| == 208
  {
    BigEndian32(HELLO_BYTES) + EncodeHello(initiator) + BigEndian32(HELLO_BYTES) + EncodeHello(acceptor)
  }

  lemma TranscriptInjective(i: Hello, a: Hello, j: Hello, b: Hello)
    requires Transcript(i, a) == Transcript(j, b)
    ensures i == j && a == b
  {
    hide EncodeHello, DecodeHello, BigEndian32;
    assert EncodeHello(i) == Transcript(i, a)[4..104] && EncodeHello(a) == Transcript(i, a)[108..];
    assert EncodeHello(j) == Transcript(j, b)[4..104] && EncodeHello(b) == Transcript(j, b)[108..];
    HelloExact(EncodeHello(i), i);
    HelloExact(EncodeHello(j), j);
    HelloExact(EncodeHello(a), a);
    HelloExact(EncodeHello(b), b);
  }

  /** ASCII of "CR2SE-NETWORK-AUTH-V1". */
  const AUTH_LABEL: seq<byte> :=
    [0x43, 0x52, 0x32, 0x53, 0x45, 0x2D, 0x4E, 0x45, 0x54, 0x57, 0x4F, 0x52, 0x4B, 0x2D,
     0x41, 0x55, 0x54, 0x48, 0x2D, 0x56, 0x31]

  function RoleByte(role: Role): byte {
    if role == Initiator then 1 else 2
  }

  /** What the holder of a role signs: label, role and transcript. */
  function Authentication(role: Role, transcript: seq<byte>): seq<byte> {
    AUTH_LABEL + [0, RoleByte(role)] + transcript
  }

  /** A signed message fixes both the role and the transcript. */
  lemma AuthenticationInjective(r: Role, t: seq<byte>, q: Role, u: seq<byte>)
    requires Authentication(r, t) == Authentication(q, u)
    ensures r == q && t == u
  {
    var m, n := Authentication(r, t), Authentication(q, u);
    assert m[22] == RoleByte(r) && n[22] == RoleByte(q);
    assert t == m[23..] && u == n[23..];
  }
}
