/** The reference for framing: a parser that sees the whole byte string at once. */
module Parsing {
  import opened Bytes
  import opened Codec
  import opened Wire

  datatype Parsed = Ended | Cut | Malformed(error: HeaderError) | Whole(frame: Packet, rest: seq<byte>)

  function FrameOf(s: seq<byte>, h: Header, phase: Protection): (p: Packet)
    requires |s| == FrameLength(h, phase)
    ensures p.header == h && p.Protected() == phase && |p.payload| == h.length
  {
    var body := HEADER_BYTES + h.length;
    Packet(h, s[HEADER_BYTES..body], if phase == Tagged then Some(s[body..]) else None)
  }

  function ParseFrame(s: seq<byte>, phase: Protection): Parsed {
    if s == [] then Ended
    else if |s| < HEADER_BYTES then Cut
    else match DecodeHeader(s[..HEADER_BYTES])
         case Err(e) => Malformed(e)
         case Ok(h) =>
           var n := FrameLength(h, phase);
           if |s| < n then Cut else Whole(FrameOf(s[..n], h, phase), s[n..])
  }

  /** Frames laid end to end. */
  ghost function Flat(frames: seq<Packet>): seq<byte> {
    if frames == [] then [] else frames[0].Encoded() + Flat(frames[1..])
  }

  lemma {:induction false} FlatConcat(a: seq<Packet>, b: seq<Packet>)
    ensures Flat(a + b) == Flat(a) + Flat(b)
  {
    if a == [] {
      assert a + b == b;
    } else {
      assert (a + b)[1..] == a[1..] + b;
      FlatConcat(a[1..], b);
      assert a[0].Encoded() + (Flat(a[1..]) + Flat(b)) == a[0].Encoded() + Flat(a[1..]) + Flat(b);
    }
  }

  lemma FlatPush(frames: seq<Packet>, p: Packet)
    ensures Flat(frames + [p]) == Flat(frames) + p.Encoded()
  {
    FlatConcat(frames, [p]);
    assert Flat([p]) == p.Encoded() + Flat([p][1..]);
  }

  lemma FrameOfEncoded(p: Packet)
    requires p.Valid()
    ensures |p.Encoded()| == FrameLength(p.header, p.Protected())
    ensures FrameOf(p.Encoded(), p.header, p.Protected()) == p
    ensures p.Encoded()[..HEADER_BYTES] == EncodeHeader(p.header)
  {
    hide EncodeHeader;
    var s, body := p.Encoded(), HEADER_BYTES + p.header.length;
    assert s[HEADER_BYTES..body] == p.payload;
    assert p.tag.Some? ==> s[body..] == p.tag.value;
  }

  lemma EncodedFrameOf(s: seq<byte>, h: Header, phase: Protection)
    requires |s| == FrameLength(h, phase) && s[..HEADER_BYTES] == EncodeHeader(h)
    ensures FrameOf(s, h, phase).Encoded() == s
  {
    hide EncodeHeader;
    var body := HEADER_BYTES + h.length;
    assert s == s[..HEADER_BYTES] + s[HEADER_BYTES..body] + s[body..];
    assert phase == Untagged ==> s[body..] == [];
  }

  /** Parsing one frame and writing one frame are inverse to each other, whatever follows. */
  lemma ParseExact(s: seq<byte>, phase: Protection, p: Packet, rest: seq<byte>)
    ensures ParseFrame(s, phase) == Whole(p, rest) <==> p.Valid() && p.Protected() == phase && s == p.Encoded() + rest
  {
    hide EncodeHeader, DecodeHeader, FrameOf;
    if p.Valid() && p.Protected() == phase && s == p.Encoded() + rest {
      FrameOfEncoded(p);
      var n := FrameLength(p.header, phase);
      assert s[..HEADER_BYTES] == p.Encoded()[..HEADER_BYTES];
      HeaderExact(s[..HEADER_BYTES], p.header);
      assert s[..n] == p.Encoded() && s[n..] == rest;
    }
    if ParseFrame(s, phase) == Whole(p, rest) {
      var n := FrameLength(p.header, phase);
      HeaderExact(s[..HEADER_BYTES], p.header);
      assert s[..n][..HEADER_BYTES] == s[..HEADER_BYTES];
      EncodedFrameOf(s[..n], p.header, phase);
      assert s == s[..n] + s[n..];
    }
  }

  /** The whole-string parser: frames in order, each read under the phase its position has. */
  ghost function ParseAll(s: seq<byte>, phases: seq<Protection>): seq<Packet>
    decreases |phases|
  {
    if phases == [] then []
    else match ParseFrame(s, phases[0])
         case Whole(p, rest) => [p] + ParseAll(rest, phases[1..])
         case _ => []
  }

  ghost function PhasesOf(frames: seq<Packet>): (r: seq<Protection>)
    ensures |r| == |frames| && forall i :: 0 <= i < |r| ==> r[i] == frames[i].Protected()
  {
    seq(|frames|, i requires 0 <= i < |frames| => frames[i].Protected())
  }

  ghost predicate AllValid(frames: seq<Packet>) {
    forall i :: 0 <= i < |frames| ==> frames[i].Valid()
  }

  /** Round trip of whole conversations: parsing what frames laid end to end give returns those frames. */
  lemma {:induction false} ParseAllFlat(frames: seq<Packet>, rest: seq<byte>)
    requires AllValid(frames)
    ensures ParseAll(Flat(frames) + rest, PhasesOf(frames)) == frames
  {
    hide ParseFrame, EncodeHeader, FrameLength, Packet.Encoded;
    if frames != [] {
      var s := Flat(frames) + rest;
      var tail := Flat(frames[1..]) + rest;
      assert s == frames[0].Encoded() + tail;
      ParseExact(s, frames[0].Protected(), frames[0], tail);
      ParseAllFlat(frames[1..], rest);
      assert PhasesOf(frames)[1..] == PhasesOf(frames[1..]);
    }
  }

  /** Streams of frames are uniquely readable: a prefix of the bytes is a prefix of the frames. */
  lemma {:induction false} FramesCrossIntact(sent: seq<Packet>, got: seq<Packet>)
    requires AllValid(sent) && AllValid(got) && Flat(got) <= Flat(sent)
    requires forall i :: 0 <= i < |got| && i < |sent| ==> got[i].Protected() == sent[i].Protected()
    ensures got <= sent
  {
    hide ParseFrame, EncodeHeader;
    if got != [] {
      assert sent != [] by { assert |Flat(got)| >= |got[0].Encoded()|; }
      var wire, phase, first := Flat(sent), got[0].Protected(), got[0].Encoded();
      ParseExact(wire, phase, sent[0], Flat(sent[1..]));
      var rest := wire[|first|..];
      assert wire == first + rest;
      ParseExact(wire, phase, got[0], rest);
      assert Flat(got) == first + Flat(got[1..]);
      assert wire[..|Flat(got)|] == Flat(got);
      assert rest[..|Flat(got[1..])|] == Flat(got[1..]);
      FramesCrossIntact(sent[1..], got[1..]);
      assert got == [got[0]] + got[1..] && sent == [sent[0]] + sent[1..];
    }
  }
}
