/** Complete frames as they travel, before any authentication. */
module Wire {
  import opened Bytes
  import opened Codec

  type Tag = s: seq<byte> | |s| == TAG_BYTES witness seq(TAG_BYTES, _ => 0)

  datatype Packet = Packet(header: Header, payload: seq<byte>, tag: Option<Tag>)
  {
    /** What the frame constructor guarantees: a valid header that states the payload's length. */
    predicate Valid() {
      ValidHeader(header) && |payload| == header.length
    }

    function Protected(): Protection {
      if tag.Some? then Tagged else Untagged
    }

    /** The bytes a tag covers. */
    function Covered(): seq<byte> {
      EncodeHeader(header) + payload
    }

    function Encoded(): (r: seq<byte>)
      ensures |r| >= HEADER_BYTES
    {
      Covered() + if tag.Some? then tag.value else []
    }
  }

  /** Covered bytes determine header and payload. */
  lemma CoveredExact(p: Packet, q: Packet)
    requires p.Valid() && q.Valid() && p.Covered() == q.Covered()
    ensures p.header == q.header && p.payload == q.payload
  {
    assert EncodeHeader(p.header) == p.Covered()[..HEADER_BYTES];
    assert EncodeHeader(q.header) == q.Covered()[..HEADER_BYTES];
    HeaderInjective(p.header, q.header);
    assert p.payload == p.Covered()[HEADER_BYTES..];
    assert q.payload == q.Covered()[HEADER_BYTES..];
  }
}
