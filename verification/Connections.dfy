/** One socket's composition of framing, handshake and integrity, and its switch to tagged frames. */
module Connections {
  import opened Bytes
  import opened Codec
  import opened StreamNumbering
  import opened SessionTypes
  import opened Wire
  import opened Parsing
  import opened FrameIO
  import opened Integrity
  import opened Transcripts
  import opened Handshakes

  datatype Disposition = Disposition(failure: Failure, response: Option<ErrorCode>)

  function LocalFailure(code: FailureCode): Disposition {
    Disposition(Failure(Local, code), None)
  }

  function OfFraming(e: FramingError): Disposition {
    match e
    case BadHeader(UnsupportedVersion) => LocalFailure(ProtocolViolation)
    case BadHeader(PayloadTooLarge) => Disposition(Failure(Local, FrameTooLarge), Some(FrameSizeError))
    case BadHeader(_) => Disposition(Failure(Local, ProtocolViolation), Some(ProtocolError))
    case Truncated => LocalFailure(TruncatedFrame)
    case Io(_) | Closed => LocalFailure(ConnectionLost)
    case PhaseChanged | Shape | Busy => LocalFailure(Internal)
  }

  function OfHandshake(e: HandshakeError): Disposition {
    match e
    case FromPeer(code) => Disposition(Failure(Peer, FailureOf(code)), None)
    case OutOfOrder | Payload => Disposition(Failure(Local, ProtocolViolation), Some(ProtocolError))
    case _ => Disposition(Failure(Local, FailureCode.AuthenticationFailed), Some(ErrorCode.AuthenticationFailed))
  }

  function OfIntegrity(e: IntegrityError): Disposition {
    LocalFailure(if e == IntegrityError.Exhausted then SequenceExhausted else IntegrityFailed)
  }

  /** How the session is told that its connection ends. */
  datatype Notice = Notice(failure: Option<Failure>, response: Option<ErrorCode>)

  /** The local AUTH, which only ever travels untagged. */
  ghost predicate HasAuth(wire: seq<Packet>) {
    exists i :: 0 <= i < |wire| && wire[i].header.kind == Auth && wire[i].tag.None?
  }

  /** Untagged frames stand only before or at the AUTH, tagged ones only after it. */
  ghost predicate Discipline(wire: seq<Packet>) {
    forall i :: 0 <= i < |wire| ==> (wire[i].tag.Some? <==> HasAuth(wire[..i]))
  }

  lemma DisciplinePush(wire: seq<Packet>, f: Packet)
    requires Discipline(wire) && (f.tag.Some? <==> HasAuth(wire))
    ensures Discipline(wire + [f])
    ensures HasAuth(wire + [f]) <==> HasAuth(wire) || (f.header.kind == Auth && f.tag.None?)
  {
    var all := wire + [f];
    forall i | 0 <= i < |all|
      ensures all[i].tag.Some? <==> HasAuth(all[..i])
    {
      assert all[..i] == if i < |wire| then wire[..i] else wire;
    }
    assert all[|wire|] == f;
    if i :| 0 <= i < |wire| && wire[i].header.kind == Auth && wire[i].tag.None? {
      assert all[i] == wire[i];
    }
  }

  ghost function Kinds(frames: seq<Packet>): (r: seq<Kind>)
    ensures |r| == |frames| && forall i :: 0 <= i < |r| ==> r[i] == frames[i].header.kind
  {
    seq(|frames|, i requires 0 <= i < |frames| => frames[i].header.kind)
  }

  ghost predicate Plain(frames: seq<Packet>) {
    forall i :: 0 <= i < |frames| ==> frames[i].Valid() && frames[i].tag.None?
  }

  /** What a handshake has to say: HELLO, and AUTH once the peer's HELLO is in. */
  ghost function Lines(h: Hand): seq<Kind> {
    if h.remote.Some? then [Kind.Hello, Auth] else [Kind.Hello]
  }

  /**
   Before authentication the wire and the queue together hold exactly those lines, and the flags tell how far
   they got.
   */
  ghost predicate Speaking(h: Hand, wire: seq<Packet>, output: seq<Packet>, busy: bool) {
    && Plain(wire) && Plain(output)
    && Kinds(wire) + Kinds(output) == Lines(h)
    && (busy ==> wire != [])
    && (h.helloSent <==> |wire| == 2 || (|wire| == 1 && !busy))
    && (h.authSent <==> |wire| == 2 && !busy)
  }

  /** A failed handshake may still have one ERROR to say, and only if AUTH was never begun. */
  ghost predicate Leaving(h: Hand, wire: seq<Packet>, output: seq<Packet>) {
    && !h.authSent
    && Plain(wire) && Plain(output) && !HasAuth(wire)
    && forall i :: 0 <= i < |output| ==> output[i].header.kind == Kind.Error
  }

  lemma SpokenAuth(h: Hand, wire: seq<Packet>, output: seq<Packet>, busy: bool)
    requires Speaking(h, wire, output, busy)
    ensures HasAuth(wire) <==> |wire| == 2
    ensures Discipline(wire)
    ensures |wire| + |output| <= 2
  {
    var all := Kinds(wire) + Kinds(output);
    assert |all| == |wire| + |output|;
    forall i | 0 <= i < |wire|
      ensures wire[i].header.kind == if i == 0 then Kind.Hello else Auth
    {
      assert all[i] == Kinds(wire)[i];
    }
    if |wire| == 2 {
      assert wire[1].header.kind == Auth;
    }
    forall i | 0 <= i < |wire|
      ensures wire[i].tag.Some? <==> HasAuth(wire[..i])
    {
      assert forall j :: 0 <= j < i ==> wire[..i][j] == wire[j];
    }
  }

  /** The one ERROR frame a failing connection may still send. */
  function ErrorPacket(code: ErrorCode): (p: Packet)
    ensures p.Valid() && p.tag.None? && p.header.kind == Kind.Error
  {
    var payload := EncodeError(code);
    Packet(Header(Kind.Error, 0, |payload|), payload, None)
  }

  lemma PopLine(h: Hand, wire: seq<Packet>, output: seq<Packet>)
    requires Speaking(h, wire, output, false) && output != []
    ensures Speaking(h, wire + [output[0]], output[1..], true)
  {
    SpokenAuth(h, wire, output, false);
    assert Kinds(wire + [output[0]]) + Kinds(output[1..]) == Kinds(wire) + Kinds(output);
  }

  lemma FirstLine(h: Hand, hello: Packet)
    requires h.remote.None? && !h.helloSent && !h.authSent
    requires hello.Valid() && hello.tag.None? && hello.header.kind == Kind.Hello
    ensures Speaking(h, [], [hello], false) && Discipline([]) && !HasAuth([]) && Flat([]) == []
  {
    assert Kinds([]) + Kinds([hello]) == [Kind.Hello];
  }

  lemma LeaveLine(h: Hand, wire: seq<Packet>, output: seq<Packet>, code: ErrorCode)
    requires Speaking(h, wire, output, false) && !h.authSent
    ensures Leaving(h, wire, []) && Leaving(h, wire, [ErrorPacket(code)]) && !HasAuth(wire)
  {
    hide ErrorPacket;
    SpokenAuth(h, wire, output, false);
  }

  lemma LeavePop(h: Hand, wire: seq<Packet>, output: seq<Packet>)
    requires Leaving(h, wire, output) && output != [] && Discipline(wire)
    ensures Leaving(h, wire + [output[0]], output[1..]) && Discipline(wire + [output[0]])
    ensures output[0].Valid() && output[0].tag.None?
  {
    DisciplinePush(wire, output[0]);
  }

  lemma SpeakPop(h: Hand, wire: seq<Packet>, output: seq<Packet>)
    requires Speaking(h, wire, output, false) && output != []
    ensures Speaking(h, wire + [output[0]], output[1..], true) && Discipline(wire + [output[0]])
    ensures output[0].Valid() && output[0].tag.None?
  {
    PopLine(h, wire, output);
    SpokenAuth(h, wire + [output[0]], output[1..], true);
  }

  lemma AddAuth(h: Hand, k: Hand, wire: seq<Packet>, output: seq<Packet>, busy: bool, auth: Packet)
    requires Speaking(h, wire, output, busy) && h.remote.None? && k.remote.Some?
    requires k.helloSent == h.helloSent && k.authSent == h.authSent
    requires auth.Valid() && auth.tag.None? && auth.header.kind == Auth
    ensures Speaking(k, wire, output + [auth], busy)
  {
    assert |Kinds(wire) + Kinds(output)| == 1;
    assert Kinds(output + [auth]) == Kinds(output) + [Auth];
    assert Kinds(wire) + Kinds(output + [auth]) == Kinds(wire) + Kinds(output) + [Auth];
  }

  /** Which line a completed write was, and that the handshake takes note of it. */
  lemma LineWritten(h: Hand, wire: seq<Packet>, output: seq<Packet>)
    requires Speaking(h, wire, output, true) && !h.closed
    ensures wire != []
    ensures var kind := wire[|wire| - 1].header.kind;
            ReportSent(h, kind).result.Ok? && Speaking(ReportSent(h, kind).hand, wire, output, false)
  {
    SpokenAuth(h, wire, output, true);
    var all := Kinds(wire) + Kinds(output);
    assert all[|wire| - 1] == wire[|wire| - 1].header.kind;
  }

  /** One more frame was begun: this one, in the clear or under a tag. */
  ghost predicate Extends(before: seq<Packet>, after: seq<Packet>, f: Packet) {
    && |after| == |before| + 1 && before <= after
    && after[|before|].header == f.header && after[|before|].payload == f.payload
  }

  /** The socket took no more than a beginning of the frames begun. */
  ghost predicate Taken(wire: seq<Packet>, written: seq<byte>) {
    AllValid(wire) && written <= Flat(wire)
  }

  /** The socket gave at least the frames read. */
  ghost predicate Given(heard: seq<Packet>, given: seq<byte>) {
    AllValid(heard) && Flat(heard) <= given
  }

  class Connection {
    const inlet: Inlet
    const outlet: Outlet
    const timeout: Instant
    const lastInstant: Instant
    const reader: FrameReader
    const writer: FrameWriter
    var open: bool
    var handshake: Handshake?
    var integrity: Integrity?
    var session: bool
    var output: seq<Packet>
    var writing: Option<(Kind, u32, Protection)>
    var closing: bool
    var deadline: Instant
    var events: seq<Event>
    var told: Option<Notice>      // the latest notice to the session
    ghost var wire: seq<Packet>   // every frame begun
    ghost var heard: seq<Packet>  // every frame read

    ghost function Parts(): set<object>
      reads this
    {
      var hands: set<object> := if handshake != null then {handshake} else {};
      var guards: set<object> := if integrity != null then {integrity} else {};
      {reader, writer, inlet, outlet} + hands + guards
    }

    /** The integrity state, or that of a connection without any. */
    ghost function Guarding(): Guard
      reads this, integrity
    {
      if integrity != null then integrity.View() else Guard(None, None, 0, 0, false)
    }

    /** Frames finished: written to the last byte, or read. */
    ghost function Finished(): int
      reads this
    {
      |heard| + |wire| - if writing.Some? then 1 else 0
    }

    /** The protection the next inbound frame is read under. */
    function Phase(): Protection
      reads this, handshake
    {
      if handshake != null && !handshake.peerVerified then Untagged else Tagged
    }

    /** A connection that never authenticated reports its closure exactly once. */
    ghost predicate Reported()
      reads this
    {
      |events| <= 1 && (if session then events == [] else events != [] <==> closing || !open)
    }

    /** The writer holds the last frame begun, and the slot says which one that is. */
    ghost predicate Output()
      reads this, writer, outlet
    {
      && writer.Valid(outlet) && !writer.failed
      && wire == writer.done + (if writer.current.Some? then [writer.current.value] else [])
      && (writing.Some? <==> writer.current.Some?)
      && (writing.Some? ==> writing.value.0 == writer.current.value.header.kind
                            && writing.value.2 == writer.current.value.Protected())
    }

    ghost predicate Input()
      reads this, handshake, reader, inlet
    {
      && reader.Valid(inlet) && heard == reader.log
      && (reader.phase.Some? ==> reader.phase.value == Phase())
    }

    /** The peer's frames are read under the same discipline, as long as any are read. */
    ghost predicate Listening()
      reads this, handshake
    {
      open && !closing ==> (Phase() == Tagged <==> HasAuth(heard))
    }

    ghost predicate Keyed()
      reads this, integrity
    {
      integrity != null ==>
        && HasAuth(wire) && integrity.send.Some?
        && (integrity.pendingSend <==> writing.Some?)
        && (integrity.pendingSend ==> integrity.sendSequence < MAX_U64)
    }

    ghost predicate Talking()
      reads this, handshake
    {
      handshake != null ==>
        if closing then Leaving(handshake.View(), wire, output)
        else !handshake.closed && Speaking(handshake.View(), wire, output, writing.Some?)
    }

    ghost predicate Accounted()
      reads this, inlet, outlet
    {
      Taken(wire, outlet.written) && Given(heard, inlet.given)
    }

    /** While a frame is being written, or after its write failed, the writer accounts for the socket. */
    lemma Counted()
      requires writer.Valid(outlet) && reader.Valid(inlet) && heard == reader.log
      requires wire == writer.done + if writer.current.Some? then [writer.current.value] else []
      ensures Accounted()
    {
      hide Flat, EncodeHeader;
      var w := writer;
      if w.current.Some? {
        if !w.failed {
          FlatPush(w.done, w.current.value);
          var before, after := w.bytes[..w.offset], w.bytes[w.offset..];
          assert w.bytes == before + after;
          Leads(Flat(w.done), before, after);
        }
      } else {
        assert w.done + [] == w.done;
        assert w.bytes[..w.offset] == [];
      }
    }

    ghost predicate Sound()
      reads this, reader, writer, inlet, outlet, handshake, integrity
    {
      && Discipline(wire) && Discipline(heard) && Reported()
      && (!open ==> Accounted())
      && (open ==> Output() && Input() && Keyed() && Talking()
                   && (session <==> integrity != null) && (session <==> handshake == null))
    }

    ghost predicate Valid()
      reads this, reader, writer, inlet, outlet, handshake, integrity
    {
      Sound() && Listening()
    }

    constructor (inlet: Inlet, outlet: Outlet, primitives: Primitives, role: Role, expected: Option<Identity>,
                 identity: Identity, local: Hello, secret: Secret, now: Instant, timeout: Instant, lastInstant: Instant)
      requires inlet.given == [] && outlet.written == []
      ensures Valid() && open && wire == [] && this.inlet == inlet && this.outlet == outlet
      ensures !session && !closing && writing.None? && events == [] && deadline == now + timeout
      ensures output == [RawFrame(Kind.Hello, EncodeHello(local))]
      ensures handshake != null && handshake.View() == Handshakes.Begin(role, expected, identity, local, secret)
      ensures fresh(Parts() - {inlet, outlet})
    {
      hide DecodeHeader, EncodeHeader, EncodeHello, Speaking, Leaving, Discipline, HasAuth, Flat, Kinds, FrameLength,
        Accounted;
      this.inlet, this.outlet, this.timeout, this.lastInstant := inlet, outlet, timeout, lastInstant;
      open, closing, session := true, false, false;
      reader := new FrameReader();
      writer := new FrameWriter();
      handshake := new Handshake(primitives, role, expected, identity, local, secret);
      integrity := null;
      var hello := RawFrame(Kind.Hello, EncodeHello(local));
      output := [hello];
      writing, events, told, deadline := None, [], None, now + timeout;
      wire, heard := [], [];
      new;
      FirstLine(handshake.View(), hello);
      assert Output() && Input() && Talking();
    }

    /** Drop everything owned; what was written stays written. */
    method Release()
      requires Accounted()
      modifies this, reader, writer
      ensures !open && handshake == null && integrity == null && output == [] && writing.None? && Accounted()
      ensures wire == old(wire) && heard == old(heard)
      ensures events == old(events) && closing == old(closing) && session == old(session) && told == old(told)
      ensures Parts() <= old(Parts())
    {
      hide Taken, Given, Flat, AllValid, DecodeHeader, EncodeHeader;
      open := false;
      handshake, integrity := null, null;
      output, writing := [], None;
      reader.Reset();
      writer.Reset();
    }

    method Abort(d: Disposition)
      requires open && Discipline(wire) && Discipline(heard) && Reported() && Accounted()
      modifies this, writer, reader
      ensures Valid() && !open && wire == old(wire) && heard == old(heard) && session == old(session)
      ensures events == if old(session || closing) then old(events)
                        else old(events) + [ConnectionClosed(Some(d.failure))]
      ensures closing == old(closing) && (session ==> told == Some(Notice(Some(d.failure), None)))
      ensures Parts() <= old(Parts())
    {
      if session {
        told := Some(Notice(Some(d.failure), None));
      } else if !closing {
        events := events + [ConnectionClosed(Some(d.failure))];
      }
      Release();
    }

    /** No frame is half written, and whether the next one carries a tag is settled. */
    predicate Unambiguous()
      reads this, handshake
    {
      writing.None? && (integrity != null || (handshake != null && !handshake.authSent))
    }

    /** Error replies go out only where the next frame's protection is beyond doubt. */
    method Fail(d: Disposition, now: Instant, admit: bool)
      requires open && !closing && Discipline(wire) && Discipline(heard) && Reported() && Output() && Input() && Keyed()
      requires (session <==> integrity != null) && (session <==> handshake == null)
      requires handshake != null ==> Speaking(handshake.View(), wire, output, writing.Some?)
      modifies this, writer, reader
      ensures Valid() && wire == old(wire) && heard == old(heard) && session == old(session)
      ensures open == (old(Unambiguous()) && d.response.Some? && now + timeout <= lastInstant)
      ensures open ==> Replying(d, now, admit) && integrity == old(integrity)
      ensures session ==> told == Some(Notice(Some(d.failure), if open then d.response else None))
      ensures open && output != [] ==> !HasAuth(wire)
      ensures !session ==> events == old(events) + [ConnectionClosed(Some(d.failure))]
      ensures Parts() <= old(Parts())
    {
      hide Speaking, Leaving, HasAuth, Discipline, ErrorPacket, Taken, Given, FrameReader.Valid, FrameWriter.Valid;
      if !Unambiguous() || d.response.None? || now + timeout > lastInstant {
        Counted();
        Abort(d);
      } else {
        Reply(d, now, admit);
      }
    }

    /** What is left of a failed connection that may still say so. */
    predicate Replying(d: Disposition, now: Instant, admit: bool)
      reads this
      requires d.response.Some?
    {
      && closing && writing.None? && deadline == now + timeout
      && output == if !session && admit && d.response.value != NoError then [ErrorPacket(d.response.value)] else []
    }

    method Reply(d: Disposition, now: Instant, admit: bool)
      requires open && !closing && Discipline(wire) && Discipline(heard) && Reported() && Output() && Input() && Keyed()
      requires (session <==> integrity != null) && (session <==> handshake == null)
      requires handshake != null ==> Speaking(handshake.View(), wire, output, writing.Some?)
      requires Unambiguous() && d.response.Some?
      modifies `deadline, `closing, `output, `events, `told
      ensures Valid() && Replying(d, now, admit)
      ensures session ==> told == Some(Notice(Some(d.failure), d.response))
      ensures output != [] ==> !HasAuth(wire)
      ensures !session ==> events == old(events) + [ConnectionClosed(Some(d.failure))]
    {
      hide Speaking, Leaving, HasAuth, Discipline, ErrorPacket, Taken, Given, FrameReader.Valid, FrameWriter.Valid;
      if handshake != null {
        LeaveLine(handshake.View(), wire, output, d.response.value);
      }
      deadline, closing := now + timeout, true;
      output := if !session && admit && d.response.value != NoError then [ErrorPacket(d.response.value)] else [];
      if session {
        told := Some(Notice(Some(d.failure), d.response));
      } else {
        events := events + [ConnectionClosed(Some(d.failure))];
      }
    }

    /** Hand over to integrity and session once both directions of the handshake succeeded. */
    method Establish()
      requires Valid() && open
      modifies this, handshake
      ensures Valid() && open && wire == old(wire) && heard == old(heard)
      ensures old(session) ==> session && integrity == old(integrity)
      ensures session && !old(session) ==>
                && old(handshake) != null && writing.None? && !closing
                && var facts := TakeEstablished(old(handshake.View())).1;
                   facts.Some? && Guarding() == NewGuard(facts.value.keys.send, facts.value.keys.receive)
      ensures session <==> old(session || (handshake != null && TakeEstablished(handshake.View()).1.Some?))
      ensures writing == old(writing) && closing == old(closing)
      ensures handshake != null ==> handshake == old(handshake) && handshake.View() == old(handshake.View())
      ensures handshake != null ==> TakeEstablished(handshake.View()).1.None?
      ensures fresh(Parts() - old(Parts()))
    {
      hide Flat, EncodeHeader, Discipline, HasAuth, Taken, Given;
      if handshake == null {
        return;
      }
      var established := handshake.Take();
      if established.Some? {
        SpokenAuth(handshake.View(), wire, output, writing.Some?);
        session := true;
        integrity := new Integrity(established.value.keys.send, established.value.keys.receive);
        handshake := null;
      }
    }

    /** Begin the next line of the handshake, or its last ERROR; it is never protected. */
    method StartLine()
      requires Valid() && open && handshake != null && writing.None? && output != []
      modifies this, writer
      ensures Valid() && open && writing.Some? && heard == old(heard) && Parts() == old(Parts())
      ensures wire == old(wire) + [old(output)[0]] && session == old(session) && closing == old(closing)
    {
      hide Flat, EncodeHeader, Speaking, Leaving, Discipline, HasAuth, Taken, Given;
      var frame := output[0];
      if closing {
        LeavePop(handshake.View(), wire, output);
      } else {
        SpeakPop(handshake.View(), wire, output);
      }
      output := output[1..];
      var started := writer.Start(outlet, frame, Untagged);
      writing := Some((frame.header.kind, frame.header.id, Untagged));
      wire := wire + [frame];
    }

    /** What became of a frame offered for sealing under this guard. */
    ghost predicate Sealing(g: Guard, frame: Packet, mac: Mac, begun: bool)
      reads this, integrity
    {
      var r := Seal(g, frame, mac);
      && (begun <==> r.result.Ok?)
      && (begun ==> Guarding() == r.guard && writing == Some((frame.header.kind, frame.header.id, Tagged)))
      && (!begun ==> told == Some(Notice(Some(OfIntegrity(r.result.error).failure), None)))
    }

    /** Seal and begin one session frame; it always carries a tag. */
    method StartSealed(frame: Packet, mac: Mac) returns (begun: bool)
      requires Valid() && open && integrity != null && writing.None? && frame.Valid() && frame.tag.None?
      modifies this, writer, integrity, reader
      ensures Valid() && heard == old(heard) && Parts() <= old(Parts())
      ensures if begun then open && writing.Some? && Extends(old(wire), wire, frame) && wire[|wire| - 1].tag.Some?
              else !open && wire == old(wire)
      ensures Sealing(old(Guarding()), frame, mac, begun)
      ensures begun ==> wire == old(wire) + [Seal(old(Guarding()), frame, mac).result.value]
      ensures session == old(session) && closing == old(closing)
    {
      hide Flat, EncodeHeader, Taken, Given, Discipline, HasAuth, FrameReader.Valid, Nonce;
      var sealed := integrity.SealFrame(frame, mac);
      if sealed.Err? {
        Counted();
        Abort(OfIntegrity(sealed.error));
        return false;
      }
      DisciplinePush(wire, sealed.value);
      var started := writer.Start(outlet, sealed.value, Tagged);
      writing := Some((frame.header.kind, frame.header.id, Tagged));
      wire := wire + [sealed.value];
      return true;
    }

    /** A frame's last byte is out: its sequence number or its handshake line counts as sent. */
    method Complete()
      requires open && Discipline(wire) && Discipline(heard) && Reported() && Listening() && Input() && writing.Some?
      requires (session <==> integrity != null) && (session <==> handshake == null)
      requires writer.Valid(outlet) && !writer.failed && writer.current.None? && wire == writer.done && wire != []
      requires writing.value.0 == wire[|wire| - 1].header.kind && writing.value.2 == wire[|wire| - 1].Protected()
      requires Keyed() && Talking()
      modifies this, handshake, integrity
      ensures Valid() && open && wire == old(wire) && heard == old(heard) && Parts() == old(Parts())
      ensures handshake == old(handshake)
      ensures handshake != null && !closing ==>
                handshake.View() == ReportSent(old(handshake.View()), old(writing).value.0).hand
      ensures writing.None? && session == old(session) && closing == old(closing)
      ensures session ==> Sent(old(Guarding())).result.Ok? && Guarding() == Sent(old(Guarding())).guard
    {
      hide Flat, EncodeHeader, Taken, Given;
      var kind, phase := writing.value.0, writing.value.2;
      if integrity != null {
        assert HasAuth(wire);
        var sent := integrity.MarkSent();
      } else if !closing {
        LineWritten(handshake.View(), wire, output);
        var sent := handshake.Sent(kind);
      }
      writing := None;
    }

    /** The frame to begin next: the session's choice once there is a session, else the handshake's. */
    function Offered(next: Option<Packet>): Option<Packet>
      reads this
    {
      if session then next else if output != [] then Some(output[0]) else None
    }

    /** Begin the next frame there is, if any; a closing connection with nothing left releases itself. */
    method Begin(next: Option<Packet>, mac: Mac) returns (begun: bool)
      requires Valid() && open && writing.None? && (next.Some? ==> next.value.Valid() && next.value.tag.None?)
      modifies this, reader, writer, integrity
      ensures Valid() && heard == old(heard) && Parts() <= old(Parts())
      ensures begun ==>
                open && writing.Some? && old(Offered(next)).Some? && Extends(old(wire), wire, old(Offered(next)).value)
      ensures !begun ==> wire == old(wire) && (old(Offered(next)).Some? || closing ==> !open)
      ensures session == old(session) && closing == old(closing)
      ensures !begun && open ==> writing.None? && old(Offered(next)).None? && !closing
      ensures session && next.Some? ==> Sealing(old(Guarding()), next.value, mac, begun)
      ensures session && begun ==> wire == old(wire) + [Seal(old(Guarding()), next.value, mac).result.value]
      ensures session && next.None? ==> !begun && (open <==> !closing)
      ensures session && next.None? && open ==> Guarding() == old(Guarding()) && writing.None?
    {
      hide Flat, EncodeHeader, Discipline, Speaking, Leaving, HasAuth, Taken, Given;
      if session && next.Some? {
        begun := StartSealed(next.value, mac);
      } else if !session && output != [] {
        StartLine();
        return true;
      } else {
        if closing {
          Counted();
          Release();
        }
        return false;
      }
    }

    /** The session is told of a local end, without any last word to the peer. */
    predicate Dropped()
      reads this
    {
      told.Some? && told.value.response.None? && (told.value.failure.Some? ==> told.value.failure.value.origin == Local)
    }

    method Flush() returns (progressed: bool)
      requires Valid() && open && writing.Some?
      modifies this, reader, writer, outlet, handshake, integrity
      ensures Valid() && wire == old(wire) && heard == old(heard) && Parts() <= old(Parts())
      ensures session == old(session) && closing == old(closing)
      ensures progressed ==> open && writing.None?
      ensures session && progressed ==> Sent(old(Guarding())).result.Ok? && Guarding() == Sent(old(Guarding())).guard
      ensures !progressed && open ==> writing == old(writing) && Guarding() == old(Guarding())
      ensures session && !open ==> Dropped()
      ensures !progressed && open ==> WriteStalls(old(outlet.script), outlet.script)
      ensures !open ==> exists kind :: WriteBreaks(old(outlet.script), outlet.script, kind)
      ensures progressed && handshake != null && !closing ==>
                && handshake == old(handshake)
                && handshake.View() == ReportSent(old(handshake.View()), old(writing).value.0).hand
    {
      hide Flat, EncodeHeader, Discipline, Speaking, Leaving, HasAuth, Taken, Given;
      ghost var current := writer.current.value;
      var flushed := writer.PollFlush(outlet);
      match flushed {
        case Pending => return false;
        case Ready(Err(error)) =>
          Counted();
          Abort(OfFraming(error));
          return false;
        case Ready(Ok(_)) =>
          assert wire[|wire| - 1] == current;
          Complete();
          return true;
      }
    }

    /** One step of output; the session's next frame, if there is a session, is an input. */
    method Write(next: Option<Packet>, mac: Mac) returns (progressed: bool)
      requires Valid() && (next.Some? ==> next.value.Valid() && next.value.tag.None?)
      modifies this, reader, writer, outlet, handshake, integrity
      ensures Valid() && heard == old(heard) && Parts() <= old(Parts())
      ensures wire == old(wire) || (old(Offered(next)).Some? && Extends(old(wire), wire, old(Offered(next)).value))
      ensures old(!open || writing.Some?) ==> wire == old(wire)
      ensures old(open && writing.None?) && old(Offered(next)).Some? && open ==> wire != old(wire)
      ensures closing == old(closing)
              && (progressed ==> open && writing.None? && (old(writing).Some? || wire != old(wire)))
      ensures open && old(writing).None? && writing.Some? ==> |wire| == |old(wire)| + 1
      ensures !progressed && open ==>
                || (old(writing).None? && old(Offered(next)).None? && wire == old(wire) && writing.None? && !closing)
                || (writing.Some? && WriteStalls(old(outlet.script), outlet.script))
    {
      hide Valid;
      if !open {
        return false;
      }
      if writing.None? {
        var begun := Begin(next, mac);
        if !begun {
          return false;
        }
      }
      progressed := Flush();
    }

    /** Polls the reader under the current phase; it never sees that phase change under a frame. */
    method NextFrame() returns (r: Poll<Result<Option<Packet>, FramingError>>)
      requires Valid() && open && !closing
      modifies reader, inlet, `heard
      ensures open && Input() && Discipline(heard) && r != Ready(Err(PhaseChanged))
      ensures session ==> Valid()
      ensures if r.Ready? && r.value.Ok? && r.value.value.Some? then
                && reader.phase.None? && heard == old(heard) + [r.value.value.value]
                && (Phase() == Untagged || integrity != null)
                && (HasAuth(heard) <==> Phase() == Tagged || r.value.value.value.header.kind == Auth)
                && r.value.value.value.Protected() == Phase() && r.value.value.value.Valid()
              else heard == old(heard)
      ensures r.Pending? ==> (Phase() == Tagged && integrity == null) || ReadStalls(old(inlet.script), inlet.script)
    {
      hide Discipline, HasAuth, Flat, ParseFrame;
      if Phase() == Tagged && integrity == null {
        return Pending;
      }
      r := reader.PollFrame(inlet, Phase());
      if r.Ready? && r.value.Ok? && r.value.value.Some? {
        DisciplinePush(heard, r.value.value.value);
        heard := reader.log;
        assert heard[|heard| - 1] == r.value.value.value;
      }
    }

    /** One step of input. Crypto answers, and whether the session closed on this frame, are inputs. */
    method Read(answers: Answers, check: Check, ready: bool, sessionClosed: bool, now: Instant, admit: bool)
      returns (progressed: bool)
      requires Valid() && open && !closing
      modifies this, reader, writer, inlet, handshake, integrity
      ensures Valid() && wire == old(wire) && Parts() <= old(Parts())
      ensures heard == old(heard) || (|heard| == |old(heard)| + 1 && old(heard) <= heard)
      ensures !progressed ==>
                && open && !closing && heard == old(heard) && writing == old(writing)
                && handshake == old(handshake) && (handshake != null ==> handshake.View() == old(handshake.View()))
                && (old(Phase() == Tagged && integrity == null) || ReadStalls(old(inlet.script), inlet.script))
      ensures progressed && heard == old(heard) ==> closing || !open
      ensures open ==> writing == old(writing)
      ensures heard != old(heard) && old(session) ==>
                Verified(old(Guarding()), heard[|heard| - 1], check, sessionClosed)
      ensures heard != old(heard) && old(handshake) != null ==>
                Understood(old(handshake), old(handshake.View()), old(output), heard[|heard| - 1], answers, admit)
    {
      hide Flat, EncodeHeader, Discipline, Speaking, Leaving, HasAuth, Taken, Given, FrameReader.Valid,
        FrameWriter.Valid;
      var polled := NextFrame();
      match polled {
        case Pending => return false;
        case Ready(Err(error)) =>
          Fail(OfFraming(error), now, admit);
        case Ready(Ok(None)) =>
          AtEnd(ready);
        case Ready(Ok(Some(frame))) =>
          if handshake != null {
            OnHandshake(frame, answers, now, admit);
          } else {
            OnSealed(frame, check, sessionClosed, now);
          }
      }
      return true;
    }

    /** The peer closed its side: fine for a drained session, a loss otherwise. */
    method AtEnd(ready: bool)
      requires Sound() && open
      modifies this, writer, reader
      ensures session == old(session)
      ensures session ==> told == Some(if ready && old(writing).None? then Notice(None, None)
                                       else Notice(Some(Failure(Local, ConnectionLost)), None))
      ensures closing == old(closing)
      ensures Valid() && !open && wire == old(wire) && heard == old(heard) && Parts() <= old(Parts())
    {
      hide Discipline, Speaking, Leaving, HasAuth, Taken, Given, FrameReader.Valid, FrameWriter.Valid;
      Counted();
      if session && ready && writing.None? {
        told := Some(Notice(None, None));
        Release();
      } else {
        Abort(LocalFailure(ConnectionLost));
      }
    }

    /** What became of the handshake frame: it moved the handshake on, or the connection is about to end. */
    ghost predicate Understood(hand: Handshake, before: Hand, queued: seq<Packet>, frame: Packet, answers: Answers,
                               admit: bool)
      reads this, hand
    {
      var r := ReceiveHand(hand.primitives, before, frame, answers);
      match r.result
      case Err(_) => closing || !open
      case Ok(None) => open && !closing && handshake == hand && hand.View() == r.hand && output == queued
      case Ok(Some(auth)) =>
        if admit then open && !closing && handshake == hand && hand.View() == r.hand && output == queued + [auth]
        else !open
    }

    method OnHandshake(frame: Packet, answers: Answers, now: Instant, admit: bool)
      requires Sound() && open && !closing && handshake != null && reader.phase.None?
      requires HasAuth(heard) <==> frame.header.kind == Auth
      modifies this, handshake, writer, reader
      ensures Valid() && wire == old(wire) && heard == old(heard) && Parts() <= old(Parts())
      ensures open ==> writing == old(writing)
      ensures Understood(old(handshake), old(handshake.View()), old(output), frame, answers, admit)
    {
      hide Flat, EncodeHeader, Discipline, HasAuth, ReceiveHand, Taken, Given;
      ghost var before := handshake.View();
      var received := handshake.Receive(frame, answers);
      ReceivedLine(handshake.primitives, before, frame, answers);
      match received {
        case Err(error) => Fail(OfHandshake(error), now, admit);
        case Ok(None) =>
        case Ok(Some(auth)) =>
          if admit {
            AddAuth(before, handshake.View(), wire, output, writing.Some?, auth);
            output := output + [auth];
          } else {
            Counted();
            Abort(LocalFailure(FailureCode.ResourceLimit));
          }
      }
    }

    /** What became of the sealed frame: its tag was checked under the next number, and the session decides the rest. */
    ghost predicate Verified(g: Guard, frame: Packet, check: Check, sessionClosed: bool)
      reads this, integrity
    {
      var r := Verify(g, frame, check);
      if r.result.Err? then !open
      else (!sessionClosed ==> open) && (open ==> Guarding() == r.guard && closing == sessionClosed)
    }

    method OnSealed(frame: Packet, check: Check, sessionClosed: bool, now: Instant)
      requires Valid() && open && !closing && integrity != null
      modifies this, integrity, writer, reader
      ensures Valid() && wire == old(wire) && heard == old(heard) && Parts() <= old(Parts())
      ensures Verified(old(Guarding()), frame, check, sessionClosed)
      ensures open ==> writing == old(writing)
    {
      hide Valid;
      var verified := Unseal(frame, check);
      if verified.Ok? {
        Settle(sessionClosed, now);
      }
    }

    /** Verify one frame; a connection does not survive a failure. */
    method Unseal(frame: Packet, check: Check) returns (r: Result<Packet, IntegrityError>)
      requires Valid() && open && !closing && integrity != null
      modifies this, integrity, writer, reader
      ensures Valid() && wire == old(wire) && heard == old(heard) && Parts() <= old(Parts()) && session
      ensures r == Verify(old(Guarding()), frame, check).result
      ensures if r.Ok? then
                && open && !closing && integrity == old(integrity)
                && Guarding() == Verify(old(Guarding()), frame, check).guard
                && writing == old(writing)
              else !open && told == Some(Notice(Some(OfIntegrity(r.error).failure), None))
    {
      hide Flat, EncodeHeader, Discipline, Taken, Given;
      r := integrity.VerifyFrame(frame, check);
      if r.Err? {
        Counted();
        Abort(OfIntegrity(r.error));
      }
    }

    /** A session that closed on a frame lets its connection finish an idle writer's last words, or nothing at all. */
    method Settle(sessionClosed: bool, now: Instant)
      requires Valid() && open && !closing && integrity != null
      modifies this, writer, reader
      ensures Valid() && wire == old(wire) && heard == old(heard) && Parts() <= old(Parts()) && session
      ensures open <==> !sessionClosed || old(writing).None?
      ensures open ==> closing == sessionClosed && Guarding() == old(Guarding()) && writing == old(writing)
    {
      hide Flat, EncodeHeader, Discipline, HasAuth, Taken, Given;
      if sessionClosed {
        if writing.Some? {
          Counted();
          Release();
        } else {
          closing := true;
          deadline := if now + timeout <= lastInstant then now + timeout else now;
        }
      }
    }

    method Expire()
      requires Valid() && open
      modifies this, writer, reader
      ensures Valid() && !open && wire == old(wire) && heard == old(heard) && Parts() <= old(Parts())
      ensures session == old(session) && closing == old(closing)
      ensures session ==> told == Some(Notice(Some(Failure(Local, DeadlineExceeded)), None))
      ensures events == if old(session || closing) then old(events)
                        else old(events) + [ConnectionClosed(Some(Failure(Local, DeadlineExceeded)))]
    {
      hide Speaking, Leaving, HasAuth, Discipline, Taken, Given, FrameReader.Valid, FrameWriter.Valid;
      Counted();
      Abort(LocalFailure(DeadlineExceeded));
    }

    /** A drained session ends the connection without complaint. */
    method Finish()
      requires Valid() && open && session
      modifies this, writer, reader
      ensures Valid() && !open && wire == old(wire) && heard == old(heard) && Parts() <= old(Parts())
      ensures session && told == Some(Notice(None, None))
    {
      told := Some(Notice(None, None));
      Counted();
      Release();
    }

    method Outward(next: Option<Packet>, mac: Mac) returns (progressed: bool)
      requires Valid() && open && (next.Some? ==> next.value.Valid() && next.value.tag.None?)
      modifies this, reader, writer, outlet, handshake, integrity
      ensures Valid() && old(wire) <= wire && heard == old(heard) && fresh(Parts() - old(Parts()))
      ensures closing == old(closing) && (old(writing).Some? ==> wire == old(wire))
      ensures open && old(writing).None? && writing.Some? ==> |wire| == |old(wire)| + 1
      ensures open && handshake != null ==> TakeEstablished(handshake.View()).1.None?
      ensures old(writing.None?) && old(Offered(next)).Some? && open ==> |old(wire)| < |wire|
      ensures progressed ==> open && writing.None? && (old(writing).Some? || |old(wire)| < |wire|)
      ensures !progressed && open ==>
                || (old(writing).None? && old(Offered(next)).None? && wire == old(wire) && writing.None? && !closing)
                || (writing.Some? && WriteStalls(old(outlet.script), outlet.script))
    {
      hide Valid;
      progressed := Write(next, mac);
      if open {
        Establish();
      }
    }

    method Inward(input: Round, now: Instant) returns (progressed: bool)
      requires Valid() && open
      modifies this, reader, writer, inlet, handshake, integrity
      ensures Valid() && wire == old(wire) && old(heard) <= heard && fresh(Parts() - old(Parts()))
      ensures open ==> writing == old(writing)
      ensures !progressed && open ==>
                && heard == old(heard) && closing == old(closing) && writing == old(writing)
                && (|| closing || ReadStalls(old(inlet.script), inlet.script)
                    || old(Phase() == Tagged && integrity == null))
                && (old(handshake != null && TakeEstablished(handshake.View()).1.None?) ==>
                      handshake == old(handshake) && handshake.View() == old(handshake.View()))
      ensures open && session && input.ready ==> writing.Some?
      ensures open && old(closing) ==> closing
      ensures progressed && open && closing == old(closing) ==> |old(heard)| < |heard|
    {
      hide Valid;
      Sides(this);
      progressed := false;
      if !closing {
        progressed := Read(input.answers, input.check, input.ready, input.sessionClosed, now, input.admit);
      }
      if open {
        Establish();
        Sides(this);
      }
      if open && session && input.ready && writing.None? {
        Finish();
      }
    }

    /** Neither side of the socket moves: there is nothing to write or the socket waits, and likewise for reading. */
    ghost predicate Stuck(ins: seq<ReadStep>, outs: seq<WriteStep>)
      reads this, handshake, inlet, outlet
    {
      && (writing.Some? ==> WriteStalls(outs, outlet.script))
      && (closing || ReadStalls(ins, inlet.script) || (handshake != null && handshake.peerVerified))
    }

    /** One round of polling: output, handover, input, handover, and the end of a drained session. */
    method PollOnce(input: Round, now: Instant) returns (progressed: bool)
      requires Valid() && open && (input.next.Some? ==> input.next.value.Valid() && input.next.value.tag.None?)
      modifies this, reader, writer, inlet, outlet, handshake, integrity
      ensures Valid() && old(wire) <= wire && old(heard) <= heard && fresh(Parts() - old(Parts()))
      ensures old(writing.None?) && old(Offered(input.next)).Some? && open ==> |old(wire)| < |wire|
      ensures open && session && input.ready ==> writing.Some?
      ensures !progressed && open ==> heard == old(heard) && Stuck(old(inlet.script), old(outlet.script))
      ensures open ==> (old(closing) ==> closing)
                       && Finished() >= old(Finished()) + if progressed && closing == old(closing) then 1 else 0
    {
      hide Valid;
      progressed := Outward(input.next, input.mac);
      if open {
        Sides(this);
        var more := Inward(input, now);
        progressed := progressed || more;
      }
    }

    /**
     The bounded polling loop: rounds until the connection is over or nothing moves. `n` counts the
     rounds; `ins` and `outs` are what the socket was going to do at the start of the last one.
     */
    method PollAll(rounds: seq<Round>, now: Instant)
      returns (r: Poll<()>, ghost n: nat, ghost ins: seq<ReadStep>, ghost outs: seq<WriteStep>)
      requires Valid() && |rounds| == ROUNDS
      requires forall i :: 0 <= i < |rounds| && rounds[i].next.Some? ==>
                 rounds[i].next.value.Valid() && rounds[i].next.value.tag.None?
      modifies this, Parts()
      ensures Valid() && old(wire) <= wire && old(heard) <= heard && fresh(Parts() - old(Parts()))
      ensures r.Ready? <==> !open
      ensures n == 0 <==> old(!open || Overdue(now))
      ensures old(open && Overdue(now)) ==> !open && wire == old(wire) && heard == old(heard) && Expired()
      ensures old(open && Overdue(now)) ==>
                events == if old(session || closing) then old(events)
                          else old(events) + [ConnectionClosed(Some(Failure(Local, DeadlineExceeded)))]
      ensures n > 0 && old(writing.None?) && old(Offered(rounds[0].next)).Some? && open ==> |old(wire)| < |wire|
      ensures n == 1 ==> ins == old(inlet.script) && outs == old(outlet.script)
      ensures open ==> Finished() >= old(Finished()) + n - 1 - (if closing && old(!closing) then 1 else 0)
      ensures open ==> n == ROUNDS || Stuck(ins, outs)
    {
      hide Valid, Stuck;
      n, ins, outs := 0, inlet.script, outlet.script;
      if !open {
        return Ready(()), n, ins, outs;
      }
      if (handshake != null || closing) && now >= deadline {
        Expire();
        return Ready(()), n, ins, outs;
      }
      r, n, ins, outs := Rounds(rounds, now);
    }

    method Rounds(rounds: seq<Round>, now: Instant)
      returns (r: Poll<()>, ghost n: nat, ghost ins: seq<ReadStep>, ghost outs: seq<WriteStep>)
      requires Valid() && open && |rounds| == ROUNDS
      requires forall i :: 0 <= i < |rounds| && rounds[i].next.Some? ==>
                 rounds[i].next.value.Valid() && rounds[i].next.value.tag.None?
      modifies this, Parts()
      ensures Valid() && old(wire) <= wire && old(heard) <= heard && fresh(Parts() - old(Parts()))
      ensures r.Ready? <==> !open
      ensures n > 0 && (old(writing.None?) && old(Offered(rounds[0].next)).Some? && open ==> |old(wire)| < |wire|)
      ensures n == 1 ==> ins == old(inlet.script) && outs == old(outlet.script)
      ensures open ==> Finished() >= old(Finished()) + n - 1 - (if closing && old(!closing) then 1 else 0)
      ensures open ==> n == ROUNDS || Stuck(ins, outs)
    {
      hide Valid, Stuck;
      ghost var first := Offered(rounds[0].next);
      n, ins, outs := 0, inlet.script, outlet.script;
      for i := 0 to ROUNDS
        invariant Valid() && open && old(wire) <= wire && old(heard) <= heard && fresh(Parts() - old(Parts()))
        invariant n == i && (i <= 1 ==> ins == old(inlet.script) && outs == old(outlet.script))
        invariant i == 0 ==> inlet.script == ins && outlet.script == outs
        invariant i == 0 ==> writing == old(writing) && Offered(rounds[0].next) == first && wire == old(wire)
        invariant i > 0 && old(writing.None?) && first.Some? ==> |old(wire)| < |wire|
        invariant old(closing) ==> closing
        invariant Finished() >= old(Finished()) + n - if closing && old(!closing) then 1 else 0
      {
        ins, outs := inlet.script, outlet.script;
        var progressed := PollOnce(rounds[i], now);
        n := n + 1;
        if !open {
          return Ready(()), n, ins, outs;
        }
        if !progressed {
          return Pending, n, ins, outs;
        }
      }
      return Pending, n, ins, outs;
    }

    /** A handshake, or a connection saying its last words, has run out of time. */
    predicate Overdue(now: Instant)
      reads this
    {
      (handshake != null || closing) && now >= deadline
    }

    /** A session of an overdue connection is told so. */
    predicate Expired()
      reads this
    {
      session ==> told == Some(Notice(Some(Failure(Local, DeadlineExceeded)), None))
    }
  }

  /**
   Phase discipline on the actual bytes: what the socket has accepted is a beginning of the frames
   begun, laid end to end, and among those none is untagged after the local AUTH, none tagged before it.
   */
  lemma WrittenUnderDiscipline(c: Connection)
    requires c.Valid()
    ensures c.outlet.written <= Flat(c.wire) && AllValid(c.wire) && Discipline(c.wire)
    ensures Flat(c.heard) <= c.inlet.given && AllValid(c.heard) && Discipline(c.heard)
  {
    hide Flat, Discipline, HasAuth, Speaking, Leaving;
    if c.open {
      c.Counted();
    }
  }

  /** An open connection has a handshake or keys, never both. */
  lemma Sides(c: Connection)
    requires c.Valid() && c.open
    ensures (c.integrity == null <==> c.handshake != null) && (c.session <==> c.handshake == null)
  {
    hide Discipline, HasAuth, Flat;
  }

  /** What an open connection with a session brings along to fail or to end. */
  lemma SessionStands(c: Connection)
    requires c.Valid() && c.open && c.session
    ensures c.Sound() && Discipline(c.wire) && Discipline(c.heard) && c.Reported()
    ensures c.Output() && c.Input() && c.Keyed() && c.integrity != null && c.handshake == null
  {
    hide Discipline, HasAuth, Flat;
  }

  /** A connection with a session has keys, and one pending number exactly while a frame is being written. */
  lemma SessionIsGuarded(c: Connection)
    requires c.Valid() && c.open && c.session
    ensures c.integrity != null && c.Guarding().send.Some? && (c.Guarding().pending <==> c.writing.Some?)
  {
    hide Discipline, HasAuth, Speaking, Leaving, Flat;
  }

  /** Everything outside a connection's control in one round of polling. */
  datatype Round = Round(next: Option<Packet>, mac: Mac, answers: Answers, check: Check, ready: bool,
                         sessionClosed: bool, admit: bool)

  const ROUNDS := 32

  /** What one handshake frame can change: an AUTH to send, a verified peer, or a failure. */
  lemma ReceivedLine(c: Primitives, h: Hand, f: Packet, answers: Answers)
    ensures var r := ReceiveHand(c, h, f, answers);
            && r.hand.helloSent == h.helloSent && r.hand.authSent == h.authSent
            && (r.result.Err? ==> r.hand.remote == h.remote)
            && (r.result.Ok? ==> r.hand.closed == h.closed && (r.hand.peerVerified <==> f.header.kind == Auth))
            && (r.result == Ok(None) ==> r.hand.remote == h.remote)
            && (r.result.Ok? && r.result.value.Some? ==>
                  && h.remote.None? && r.hand.remote.Some? && r.hand.peerVerified == h.peerVerified
                  && r.result.value.value.Valid() && r.result.value.value.tag.None?
                  && r.result.value.value.header.kind == Auth)
  {
    hide DecodeHello, DecodeError, Authentication, Transcript, DeriveKeys;
  }

  /** Two lists of frames under discipline that share their bytes share their frames. */
  lemma {:induction false} DisciplinedFramesCross(sent: seq<Packet>, got: seq<Packet>)
    requires AllValid(sent) && AllValid(got) && Discipline(sent) && Discipline(got) && Flat(got) <= Flat(sent)
    ensures got <= sent
    decreases |got|
  {
    hide Flat, HasAuth;
    if got != [] {
      var n := |got| - 1;
      var before, last := got[..n], got[n];
      assert got == before + [last];
      FlatPush(before, last);
      DisciplineOfPrefix(got, n);
      DisciplinedFramesCross(sent, before);
      SameLength(sent, before, last);
      assert sent[..n] == before;
      forall i | 0 <= i < |got| && i < |sent|
        ensures got[i].Protected() == sent[i].Protected()
      {
        assert sent[..i] == got[..i];
      }
      FramesCrossIntact(sent, got);
    }
  }

  lemma DisciplineOfPrefix(frames: seq<Packet>, n: nat)
    requires Discipline(frames) && n <= |frames|
    ensures Discipline(frames[..n])
  {
    forall i | 0 <= i < n
      ensures frames[..n][i].tag.Some? <==> HasAuth(frames[..n][..i])
    {
      assert frames[..n][..i] == frames[..i];
    }
  }

  /** There is a next frame on the other side if there are bytes for one. */
  lemma SameLength(sent: seq<Packet>, before: seq<Packet>, last: Packet)
    requires before <= sent && |Flat(before) + last.Encoded()| <= |Flat(sent)|
    ensures |before| < |sent|
  {
    assert before == sent[..|before|];
    if |before| == |sent| {
      assert false;
    }
  }

  /**
   Two connections on one wire: whatever the receiving end has read, across the switch from untagged
   to tagged frames and whatever the socket did in between, is a prefix of the frames the sending end
   began; either end may have failed, released itself or be alive.
   */
  lemma ConnectionsAgreeOnFrames(a: Connection, b: Connection)
    requires a.Valid() && b.Valid()
    requires b.inlet.given <= a.outlet.written
    ensures b.heard <= a.wire
  {
    hide Flat, Discipline, HasAuth, Speaking, Leaving;
    WrittenUnderDiscipline(a);
    WrittenUnderDiscipline(b);
    DisciplinedFramesCross(a.wire, b.heard);
  }
}
