/** Machine integers and their big-endian encodings. */
module Bytes {
  type byte = b: nat | b < 0x100
  type u16 = n: nat | n < 0x1_0000
  type u32 = n: nat | n < 0x1_0000_0000
  type u64 = n: nat | n < 0x1_0000_0000_0000_0000

  const MAX_U32 := 0xFFFF_FFFF
  const MAX_U64 := 0xFFFF_FFFF_FFFF_FFFF

  datatype Option<+T> = None | Some(value: T)

  datatype Result<+T, +E> = Ok(value: T) | Err(error: E)

  function BigEndian16(n: u16): (r: seq<byte>)
    ensures |r| == 2
  {
    [n / 0x100, n % 0x100]
  }

  function FromBigEndian16(s: seq<byte>): u16
    requires |s| == 2
  {
    (s[0] as int) * 0x100 + s[1]
  }

  function BigEndian32(n: u32): (r: seq<byte>)
    ensures |r| == 4
  {
    BigEndian16(n / 0x1_0000) + BigEndian16(n % 0x1_0000)
  }

  function FromBigEndian32(s: seq<byte>): u32
    requires |s| == 4
  {
    (FromBigEndian16(s[..2]) as int) * 0x1_0000 + FromBigEndian16(s[2..])
  }

  function BigEndian64(n: u64): (r: seq<byte>)
    ensures |r| == 8
  {
    BigEndian32(n / 0x1_0000_0000) + BigEndian32(n % 0x1_0000_0000)
  }

  function FromBigEndian64(s: seq<byte>): u64
    requires |s| == 8
  {
    (FromBigEndian32(s[..4]) as int) * 0x1_0000_0000 + FromBigEndian32(s[4..])
  }

  lemma RoundTrip16(n: u16)
    ensures FromBigEndian16(BigEndian16(n)) == n
  {
  }

  lemma Canonical16(s: seq<byte>)
    requires |s| == 2
    ensures BigEndian16(FromBigEndian16(s)) == s
  {
  }

  lemma RoundTrip32(n: u32)
    ensures FromBigEndian32(BigEndian32(n)) == n
  {
    var s := BigEndian32(n);
    assert s[..2] == BigEndian16(n / 0x1_0000);
    assert s[2..] == BigEndian16(n % 0x1_0000);
  }

  lemma Canonical32(s: seq<byte>)
    requires |s| == 4
    ensures BigEndian32(FromBigEndian32(s)) == s
  {
    Canonical16(s[..2]);
    Canonical16(s[2..]);
    assert s == s[..2] + s[2..];
  }

  /** Big-endian counters are injective, so distinct sequence numbers give distinct bytes. */
  lemma RoundTrip64(n: u64)
    ensures FromBigEndian64(BigEndian64(n)) == n
  {
    var s := BigEndian64(n);
    assert s[..4] == BigEndian32(n / 0x1_0000_0000);
    assert s[4..] == BigEndian32(n % 0x1_0000_0000);
    RoundTrip32(n / 0x1_0000_0000);
    RoundTrip32(n % 0x1_0000_0000);
  }

  lemma Canonical64(s: seq<byte>)
    requires |s| == 8
    ensures BigEndian64(FromBigEndian64(s)) == s
  {
    hide BigEndian32, FromBigEndian32;
    Canonical32(s[..4]);
    Canonical32(s[4..]);
    var hi, lo := FromBigEndian32(s[..4]), FromBigEndian32(s[4..]);
    var n := FromBigEndian64(s);
    assert n / 0x1_0000_0000 == hi && n % 0x1_0000_0000 == lo;
    assert s == s[..4] + s[4..];
  }

  /** Continuation byte of a multi-byte UTF-8 sequence. */
  predicate Continues(b: byte) {
    0x80 <= b <= 0xBF
  }

  /** Well-formed UTF-8 (section 4 of RFC 3629), which the string types of the source guarantee. */
  predicate ValidUtf8(s: seq<byte>) {
    if s == [] then true
    else if s[0] < 0x80 then ValidUtf8(s[1..])
    else if 0xC2 <= s[0] <= 0xDF then
      |s| >= 2 && Continues(s[1]) && ValidUtf8(s[2..])
    else if 0xE0 <= s[0] <= 0xEF then
      && |s| >= 3
      && (if s[0] == 0xE0 then 0xA0 else 0x80) <= s[1] <= (if s[0] == 0xED then 0x9F else 0xBF)
      && Continues(s[2])
      && ValidUtf8(s[3..])
    else
      && 0xF0 <= s[0] <= 0xF4
      && |s| >= 4
      && (if s[0] == 0xF0 then 0x90 else 0x80) <= s[1] <= (if s[0] == 0xF4 then 0x8F else 0xBF)
      && Continues(s[2]) && Continues(s[3])
      && ValidUtf8(s[4..])
  }
}
