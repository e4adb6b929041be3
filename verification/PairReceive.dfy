/** Delivering the next frame between honest endpoints: what dispatch does, and that it never objects. */
module PairReceive {
  import opened Bytes
  import opened Codec
  import opened StreamNumbering
  import opened SessionTypes
  import opened Lines
  import opened SessionModel
  import opened SessionRun
  import opened ChannelMoves
  import opened PairInvariant
  import opened PairMoves
  import opened PairSteps

  /** Outcomes dispatch may report about an honest peer's frame. */
  predicate Acceptable(r: Result<(), SessionError>) {
    r.Ok? || r.error == Capacity
  }

  lemma FlightTail(link: seq<Frame>, p: Endpoint)
    requires link != []
    ensures Flight(link, p) != [] && Flight(link, p)[0] == link[0]
    ensures Flight(link, p)[1..] == Flight(link[1..], p)
  {
  }

  /** What the invariant says of the frame about to be delivered. */
  lemma HeadFacts(p: Endpoint, q: Endpoint, flight: seq<Frame>)
    requires Direction(p, q, flight) && flight != []
    ensures var f := flight[0];
            if f.id == 0 then ControlFrame(p.s, f) && (f.kind == GoAway ==> q.s.peerGoaway.None?)
            else WellFormed(f) && StreamChannel(p, q, flight, f.id)
                 && Line(flight, f.id) != [] && Line(flight, f.id)[0] == f
  {
    var f := flight[0];
    LineHead(flight, f.id);
    var line := Line(flight, f.id);
    assert line[0] == f;
    if f.id != 0 {
      assert StreamChannel(p, q, flight, f.id);
    }
  }

  /** Taking a connection-level frame without touching streams. */
  lemma StepTaken(p: Endpoint, p2: Endpoint, q: Endpoint, outgoing: seq<Frame>, incoming: seq<Frame>)
    requires Joined(p, q, outgoing, incoming) && Sound(p2)
    requires incoming != [] && incoming[0].id == 0 && incoming[0].kind != Open
    requires p2.s.ids == p.s.ids && p2.s.streams == p.s.streams && p2.s.outbound == p.s.outbound
    requires SameSending(p, p2) && SameDelivery(p, p2)
    requires if incoming[0].kind == GoAway then p2.s.peerGoaway.Some? else p2.s.peerGoaway == p.s.peerGoaway
    ensures Joined(p2, q, outgoing, incoming[1..])
  {
    hide Channel, Numbers, Control;
    FlightTail(incoming, q);
    SenderSilent(p, p2, q, Flight(outgoing, p));
    ReceiverControl(q, p, p2, Flight(incoming, q));
  }

  lemma TakeAll(p: Endpoint, q: Endpoint, outgoing: seq<Frame>, incoming: seq<Frame>, ids: seq<u32>, outcome: Outcome)
    requires Joined(p, q, outgoing, incoming)
    requires forall i :: 0 <= i < |ids| ==> ids[i] in p.s.streams
    requires forall i, j :: 0 <= i < j < |ids| ==> ids[i] != ids[j]
    ensures p.s.events <= TerminateAll(p.s, ids, outcome).events
    ensures Joined(Track(p, TerminateAll(p.s, ids, outcome)), q, outgoing, incoming)
    decreases |ids|
  {
    hide Joined;
    if ids == [] {
      assert Track(p, p.s) == p;
    } else {
      var t := Terminate(p.s, ids[0], outcome);
      var p1 := Track(p, t);
      StepTerminate(p, q, outgoing, incoming, ids[0], outcome);
      assert forall i :: 0 <= i < |ids[1..]| ==> ids[1..][i] == ids[i + 1];
      TakeAll(p1, q, outgoing, incoming, ids[1..], outcome);
      TrackTwice(p, t, TerminateAll(t, ids[1..], outcome));
    }
  }

  lemma TrackTwice(e: Endpoint, t: State, u: State)
    requires e.s.events <= t.events && t.events <= u.events
    ensures Track(Track(e, t), u) == Track(e, u)
  {
    var n, m := |e.s.events|, |t.events|;
    assert t.events[n..] + u.events[m..] == u.events[n..];
    assert e.log + t.events[n..] + u.events[m..] == e.log + u.events[n..];
  }

  /** What a delivery has to establish. */
  ghost predicate Delivered(p: Endpoint, q: Endpoint, outgoing: seq<Frame>, incoming: seq<Frame>, r: Step<()>) {
    && Acceptable(r.result)
    && p.s.events <= r.state.events
    && (incoming != [] ==> Joined(Track(p, r.state), q, outgoing, incoming[1..]))
  }

  /** The peer's bound is a number this end allocated. */
  lemma GoawayIsAcceptable(p: Endpoint, q: Endpoint, outgoing: seq<Frame>, incoming: seq<Frame>)
    requires Joined(p, q, outgoing, incoming)
    requires incoming != [] && incoming[0].kind == GoAway && incoming[0].id == 0
    ensures DecodeGoAway(incoming[0].payload).Ok?
    ensures GoawayAcceptable(p.s, DecodeGoAway(incoming[0].payload).value.0)
  {
    hide Channel;
    FlightTail(incoming, q);
    HeadFacts(q, p, Flight(incoming, q));
    var last := q.s.acceptedRemote;
    if last != 0 {
      AcceptedWasAllocated(p.s, q.s, Opens(Flight(outgoing, p)), last);
    }
  }

  /** The bound is noted before anything is ended. */
  lemma StepNoted(p: Endpoint, q: Endpoint, outgoing: seq<Frame>, incoming: seq<Frame>, noted: State)
    requires Joined(p, q, outgoing, incoming)
    requires incoming != [] && incoming[0].kind == GoAway && incoming[0].id == 0
    requires noted == p.s.(peerGoaway := noted.peerGoaway, drainFailure := noted.drainFailure) && noted.peerGoaway.Some?
    ensures Joined(Track(p, noted), q, outgoing, incoming[1..])
  {
    hide Direction;
    assert noted.events == p.s.events + [];
    QuietTrack(p, noted, []);
    StepTaken(p, Track(p, noted), q, outgoing, incoming);
  }

  lemma DeliverGoaway(p: Endpoint, q: Endpoint, outgoing: seq<Frame>, incoming: seq<Frame>, admit: bool)
    requires Joined(p, q, outgoing, incoming) && !p.s.closed
    requires incoming != [] && incoming[0].kind == GoAway && incoming[0].id == 0
    ensures Delivered(p, q, outgoing, incoming, ReceiveGoaway(p.s, incoming[0].payload, admit))
  {
    hide Joined, GoawayAcceptable, DecodeGoAway, TerminateAll;
    var payload := incoming[0].payload;
    GoawayIsAcceptable(p, q, outgoing, incoming);
    var last, code := DecodeGoAway(payload).value.0, DecodeGoAway(payload).value.1.code;
    var noted := p.s.(peerGoaway := Some(last),
                      drainFailure := if code != NoError then Some(Failure(Peer, FailureOf(code)))
                                      else p.s.drainFailure);
    StepNoted(p, q, outgoing, incoming, noted);
    var p1 := Track(p, noted);
    var ids, outcome := IdsInOrder(RefusedBy(p.s, last)), Failed(Failure(Peer, Refused));
    assert forall i :: 0 <= i < |ids| ==> ids[i] in RefusedBy(p.s, last);
    TakeAll(p1, q, outgoing, incoming[1..], ids, outcome);
    var u := TerminateAll(noted, ids, outcome);
    StepDrain(Track(p1, u), q, outgoing, incoming[1..], Normal, admit);
    TerminateAllStaysOpen(noted, ids, outcome);
    TrackTwice(p, noted, u);
    TrackTwice(p, u, Drain(u, Normal, admit).state);
  }

  lemma TerminateAllStaysOpen(s: State, ids: seq<u32>, outcome: Outcome)
    ensures TerminateAll(s, ids, outcome).closed == s.closed
    decreases |ids|
  {
    if ids != [] {
      TerminateAllStaysOpen(Terminate(s, ids[0], outcome), ids[1..], outcome);
    }
  }

  lemma DeliverPing(p: Endpoint, q: Endpoint, outgoing: seq<Frame>, incoming: seq<Frame>, admit: bool)
    requires Joined(p, q, outgoing, incoming) && !p.s.closed
    requires incoming != [] && incoming[0].kind == Ping && incoming[0].id == 0
    ensures Delivered(p, q, outgoing, incoming, ReceivePing(p.s, Ping, incoming[0].payload, admit))
  {
    hide Direction, DecodePing;
    FlightTail(incoming, q);
    HeadFacts(q, p, Flight(incoming, q));
    StepTaken(p, p, q, outgoing, incoming);
    var token := DecodePing(incoming[0].payload).value;
    var f := Frame(Pong, 0, EncodePing(token));
    var r := ReceivePing(p.s, Ping, incoming[0].payload, admit);
    assert Track(p, r.state).log == p.log;
    PingFrameIsControl(r.state, token);
    if admit {
      StepControl(p, Track(p, r.state), q, outgoing, incoming[1..], f);
    } else {
      assert Track(p, r.state) == p;
    }
  }

  /** Time does not run backwards, so a matching PONG always has an elapsed time. */
  lemma DeliverPong(p: Endpoint, q: Endpoint, outgoing: seq<Frame>, incoming: seq<Frame>, admit: bool)
    requires Joined(p, q, outgoing, incoming) && p.s.now == Some(p.clock)
    requires incoming != [] && incoming[0].kind == Pong && incoming[0].id == 0
    ensures Delivered(p, q, outgoing, incoming, ReceivePing(p.s, Pong, incoming[0].payload, admit))
  {
    hide Direction, DecodePing;
    FlightTail(incoming, q);
    HeadFacts(q, p, Flight(incoming, q));
    var token := DecodePing(incoming[0].payload).value;
    var t := ReceivePing(p.s, Pong, incoming[0].payload, admit).state;
    if token in p.s.pings {
      QuietTrack(p, t, [PingFinished(token, Ok(p.clock - p.s.pings[token].0))]);
    } else {
      assert t.events == p.s.events + [];
      QuietTrack(p, t, []);
    }
    StepTaken(p, Track(p, t), q, outgoing, incoming);
  }

  lemma DeliverConnectionError(p: Endpoint, q: Endpoint, outgoing: seq<Frame>, incoming: seq<Frame>)
    requires Joined(p, q, outgoing, incoming)
    requires incoming != [] && incoming[0].kind == Kind.Error && incoming[0].id == 0
    ensures Delivered(p, q, outgoing, incoming, ReceiveConnectionError(p.s, incoming[0].payload))
  {
    hide Direction, DecodeError;
    FlightTail(incoming, q);
    HeadFacts(q, p, Flight(incoming, q));
    StepTaken(p, p, q, outgoing, incoming);
    var code := DecodeError(incoming[0].payload).value.code;
    StepClose(p, q, outgoing, incoming[1..], Some(Failure(Peer, FailureOf(code))), None, false);
  }

  // ---------------------------------------------------------------- stream frames

  /** A frame for a stream this end has left is dropped without effect. */
  lemma StepDiscard(p: Endpoint, q: Endpoint, outgoing: seq<Frame>, incoming: seq<Frame>)
    requires Joined(p, q, outgoing, incoming)
    requires incoming != [] && incoming[0].id != 0 && incoming[0].kind != Open && InHalf(p.s, incoming[0].id) == Gone
    ensures Joined(p, q, outgoing, incoming[1..])
  {
    hide Channel, Numbers, Control;
    FlightTail(incoming, q);
    var flight, id := Flight(incoming, q), incoming[0].id;
    assert StreamChannel(q, p, flight, id);
    LineHead(flight, id);
    ReceiverLeaves(OutHalf(q.s, id), Gone, Line(flight, id), q.SentBytes(id), Got(p.log, id), Finished(p.log, id), 1);
    ReceiverConsumes(q, p, p, flight);
  }

  lemma DeliverTermination(p: Endpoint, q: Endpoint, outgoing: seq<Frame>, incoming: seq<Frame>)
    requires Joined(p, q, outgoing, incoming) && incoming != [] && incoming[0].id in p.s.streams
    requires incoming[0].id != 0 && (incoming[0].kind == Kind.Cancel || incoming[0].kind == Kind.Error)
    ensures Delivered(p, q, outgoing, incoming, ReceiveTermination(p.s, incoming[0]))
  {
    hide Direction, DecodeError;
    FlightTail(incoming, q);
    HeadFacts(q, p, Flight(incoming, q));
    var f := incoming[0];
    var t := ReceiveTermination(p.s, f).state;
    StepTerminate(p, q, outgoing, incoming, f.id, PeerOutcome(f.kind, DecodeError(f.payload).value.code));
    StepDiscard(Track(p, t), q, outgoing, incoming);
  }

  /** Failing a stream answers with an ERROR unless output is exhausted. */
  lemma DeliverFailure(p: Endpoint, q: Endpoint, outgoing: seq<Frame>, incoming: seq<Frame>, wire: ErrorCode,
                       code: FailureCode, admit: bool)
    requires Joined(p, q, outgoing, incoming) && incoming != [] && incoming[0].id in p.s.streams
    requires incoming[0].id != 0 && incoming[0].kind != Open
    requires StreamCode(Kind.Error, wire) && wire != NoError
    ensures Delivered(p, q, outgoing, incoming, FailStream(p.s, incoming[0].id, wire, code, admit))
  {
    hide Direction, DecodeError;
    var f := incoming[0];
    var outcome := Failed(Failure(Local, code));
    var t := FailStream(p.s, f.id, wire, code, admit).state;
    if admit {
      StepTerminateWith(p, q, outgoing, incoming, outcome, ErrorFrame(f.id, wire));
    } else {
      StepTerminate(p, q, outgoing, incoming, f.id, outcome);
    }
    StepDiscard(Track(p, t), q, outgoing, incoming);
  }

  /** The receiving half cannot have ended while DATA or END is still on its way. */
  lemma StillLive(p: Endpoint, q: Endpoint, outgoing: seq<Frame>, incoming: seq<Frame>)
    requires Joined(p, q, outgoing, incoming) && incoming != [] && incoming[0].id in p.s.streams
    requires incoming[0].id != 0 && (incoming[0].kind == Data || incoming[0].kind == Kind.End)
    ensures p.s.streams[incoming[0].id].remoteOpen && WellFormed(incoming[0])
  {
    FlightTail(incoming, q);
    HeadFacts(q, p, Flight(incoming, q));
  }

  lemma GotOne(p: Endpoint, h: Handle, bytes: seq<byte>, p2: Endpoint)
    requires p2 == Track(p, Push(p.s, DataReceived(h, bytes)))
    ensures Got(p2.log, h.id) == Got(p.log, h.id) + bytes
    ensures forall id: u32 :: id != h.id ==> Got(p2.log, id) == Got(p.log, id)
    ensures forall id: u32 :: Finished(p2.log, id) == Finished(p.log, id)
  {
    var e := DataReceived(h, bytes);
    assert p2.log == p.log + [e];
    assert p2.log[..|p2.log| - 1] == p.log && p2.log[|p2.log| - 1] == e;
    forall id: u32
      ensures Finished(p2.log, id) == Finished(p.log, id)
    {
      if Finished(p.log, id) {
        var i :| 0 <= i < |p.log| && p.log[i].RemoteEnd? && p.log[i].stream.id == id;
        assert p2.log[i] == p.log[i];
      }
    }
  }

  lemma DeliverData(p: Endpoint, q: Endpoint, outgoing: seq<Frame>, incoming: seq<Frame>, admit: bool)
    requires Joined(p, q, outgoing, incoming) && incoming != [] && incoming[0].id in p.s.streams
    requires incoming[0].id != 0 && incoming[0].kind == Data
    ensures Delivered(p, q, outgoing, incoming, ReceiveData(p.s, incoming[0], admit))
  {
    hide Joined, Buffered;
    var f := incoming[0];
    StillLive(p, q, outgoing, incoming);
    if Buffered(p.s.events, f.id) + |f.payload| > p.s.limits.bufferedPerStream {
      DeliverFailure(p, q, outgoing, incoming, ErrorCode.ResourceLimit, FailureCode.ResourceLimit, admit);
    } else {
      var p2 := Track(p, Push(p.s, DataReceived(p.s.streams[f.id].handle, f.payload)));
      StepData(p, p2, q, outgoing, incoming);
    }
  }

  lemma StepData(p: Endpoint, p2: Endpoint, q: Endpoint, outgoing: seq<Frame>, incoming: seq<Frame>)
    requires Joined(p, q, outgoing, incoming) && incoming != [] && incoming[0].id in p.s.streams
    requires incoming[0].id != 0 && incoming[0].kind == Data && p.s.streams[incoming[0].id].remoteOpen
    requires p2 == Track(p, Push(p.s, DataReceived(p.s.streams[incoming[0].id].handle, incoming[0].payload)))
    ensures Joined(p2, q, outgoing, incoming[1..])
  {
    hide Channel, Numbers, Control, Line, Got, Finished, Opens;
    var f, flight := incoming[0], Flight(incoming, q);
    FlightTail(incoming, q);
    GotOne(p, p.s.streams[f.id].handle, f.payload, p2);
    LineHead(flight, f.id);
    assert StreamChannel(q, p, flight, f.id);
    ReceivesData(OutHalf(q.s, f.id), Line(flight, f.id), q.SentBytes(f.id), Got(p.log, f.id), Finished(p.log, f.id));
    ReceiverConsumes(q, p, p2, flight);
    SenderSilent(p, p2, q, Flight(outgoing, p));
  }

  lemma EndedOne(p: Endpoint, h: Handle, t: State, p2: Endpoint)
    requires p2 == Track(p, t) && t.events == p.s.events + [RemoteEnd(h)]
    ensures forall id: u32 :: Got(p2.log, id) == Got(p.log, id)
    ensures forall id: u32 :: Finished(p2.log, id) == (Finished(p.log, id) || id == h.id)
  {
    var e := RemoteEnd(h);
    assert p2.log == p.log + [e];
    assert p2.log[..|p2.log| - 1] == p.log && p2.log[|p2.log| - 1] == e;
    forall id: u32
      ensures Finished(p2.log, id) == (Finished(p.log, id) || id == h.id)
    {
      if Finished(p.log, id) {
        var i :| 0 <= i < |p.log| && p.log[i].RemoteEnd? && p.log[i].stream.id == id;
        assert p2.log[i] == p.log[i];
      }
    }
  }

  lemma StepRemoteEnd(p: Endpoint, p2: Endpoint, q: Endpoint, outgoing: seq<Frame>, incoming: seq<Frame>)
    requires Joined(p, q, outgoing, incoming) && incoming != [] && incoming[0].id in p.s.streams
    requires incoming[0].id != 0 && incoming[0].kind == Kind.End && p.s.streams[incoming[0].id].remoteOpen
    requires var st := p.s.streams[incoming[0].id];
             p2 == Track(p, Push(p.s.(streams := p.s.streams[incoming[0].id := st.(remoteOpen := false)]),
                                 RemoteEnd(st.handle)))
    ensures Joined(p2, q, outgoing, incoming[1..])
  {
    hide Channel, Numbers, Control, Line, Got, Finished, Opens;
    var f, flight := incoming[0], Flight(incoming, q);
    FlightTail(incoming, q);
    EndedOne(p, p.s.streams[f.id].handle, p2.s, p2);
    LineHead(flight, f.id);
    assert StreamChannel(q, p, flight, f.id);
    ReceivesEnd(OutHalf(q.s, f.id), Line(flight, f.id), q.SentBytes(f.id), Got(p.log, f.id), Finished(p.log, f.id));
    ReceiverConsumes(q, p, p2, flight);
    SenderSilent(p, p2, q, Flight(outgoing, p));
  }

  lemma DeliverEnd(p: Endpoint, q: Endpoint, outgoing: seq<Frame>, incoming: seq<Frame>, admit: bool)
    requires Joined(p, q, outgoing, incoming) && incoming != [] && incoming[0].id in p.s.streams
    requires incoming[0].id != 0 && incoming[0].kind == Kind.End
    ensures Delivered(p, q, outgoing, incoming, ReceiveEnd(p.s, incoming[0], admit))
  {
    hide Direction;
    StillLive(p, q, outgoing, incoming);
    var id := incoming[0].id;
    var st := p.s.streams[id];
    var t := Push(p.s.(streams := p.s.streams[id := st.(remoteOpen := false)]), RemoteEnd(st.handle));
    StepRemoteEnd(p, Track(p, t), q, outgoing, incoming);
    StepComplete(Track(p, t), q, outgoing, incoming[1..], id);
    TrackTwice(p, t, Complete(t, id));
  }

  // ---------------------------------------------------------------- OPEN

  /** The next OPEN carries exactly the expected number, which its sender allocated. */
  lemma OpenIsExpected(p: Endpoint, q: Endpoint, outgoing: seq<Frame>, incoming: seq<Frame>)
    requires Joined(p, q, outgoing, incoming) && !p.s.closed
    requires incoming != [] && incoming[0].kind == Open
    ensures incoming[0].id != 0 && Accept(p.s.ids, incoming[0].id).Ok?
    ensures InHalf(q.s, incoming[0].id) != Absent && OutHalf(p.s, incoming[0].id) == Absent
    ensures DecodeOpen(incoming[0].payload).Ok?
  {
    hide Channel;
    FlightTail(incoming, q);
    HeadFacts(q, p, Flight(incoming, q));
    OpensHead(Flight(incoming, q));
    assert Opens(Flight(incoming, q))[0] == incoming[0].id;
  }

  /** Consuming the number without adding a stream. */
  lemma StepConsumed(p: Endpoint, q: Endpoint, outgoing: seq<Frame>, incoming: seq<Frame>, p1: Endpoint)
    requires Joined(p, q, outgoing, incoming) && !p.s.closed
    requires incoming != [] && incoming[0].kind == Open && Accept(p.s.ids, incoming[0].id).Ok?
    requires p1 == p.(s := p.s.(ids := Accept(p.s.ids, incoming[0].id).value))
    ensures Joined(p1, q, outgoing, incoming[1..])
  {
    hide Channel, Numbers, Control, Line, Got, Finished, Opens, StreamChannel;
    FlightTail(incoming, q);
    OpenIsExpected(p, q, outgoing, incoming);
    SenderSilent(p, p1, q, Flight(outgoing, p));
    ReceiverAccepts(q, p, p1, Flight(incoming, q));
  }

  lemma RefusalSent(p: Endpoint, p1: Endpoint, p2: Endpoint, q: Endpoint, outgoing: seq<Frame>, f: Frame)
    requires Direction(p, q, Flight(outgoing, p)) && Direction(p1, q, Flight(outgoing, p1))
    requires f.id != 0 && f.kind == Kind.Error && WellFormed(f)
    requires OutHalf(p.s, f.id) == Absent && InHalf(q.s, f.id) != Absent
    requires OutHalf(p1.s, f.id) == Gone && p1.s.outbound == p.s.outbound && p1.sent == p.sent
    requires p2 == p1.(s := Enqueue(p1.s, f))
    ensures Direction(p2, q, Flight(outgoing, p2))
  {
    hide Channel, Numbers, Control, WellFormed;
    var flight := Flight(outgoing, p);
    assert StreamChannel(p, q, flight, f.id);
    SenderRefuses(InHalf(q.s, f.id), Line(flight, f.id), p.SentBytes(f.id), Got(q.log, f.id), Finished(q.log, f.id), f);
    assert Flight(outgoing, p2) == Flight(outgoing, p1) + [f];
    SenderAppends(p1, p2, q, Flight(outgoing, p1), f);
  }

  /** Refusing: the number is consumed and one ERROR answers. */
  lemma StepRefused(p: Endpoint, q: Endpoint, outgoing: seq<Frame>, incoming: seq<Frame>, code: ErrorCode, p1: Endpoint,
                    p2: Endpoint)
    requires Joined(p, q, outgoing, incoming) && !p.s.closed
    requires incoming != [] && incoming[0].kind == Open && Accept(p.s.ids, incoming[0].id).Ok?
    requires p1 == p.(s := p.s.(ids := Accept(p.s.ids, incoming[0].id).value))
    requires StreamCode(Kind.Error, code) && code != NoError
    requires p2 == p1.(s := Enqueue(p1.s, ErrorFrame(incoming[0].id, code)))
    ensures Joined(p2, q, outgoing, incoming[1..])
  {
    hide Direction, DecodeError;
    var f := ErrorFrame(incoming[0].id, code);
    StepConsumed(p, q, outgoing, incoming, p1);
    OpenIsExpected(p, q, outgoing, incoming);
    assert OutHalf(p1.s, f.id) == Gone;
    RefusalSent(p, p1, p2, q, outgoing, f);
    ReceiverPassive(q, p1, p2, Flight(incoming[1..], q));
  }

  lemma AddedSound(p: Endpoint, h: Handle, protocol: Protocol, t: State)
    requires Sound(p) && Accept(p.s.ids, h.id).Ok? && !p.s.closed
    requires t == AddStream(p.s.(ids := Accept(p.s.ids, h.id).value), h, protocol)
    ensures Sound(Track(p, t))
    ensures InHalf(t, h.id) == Live && OutHalf(t, h.id) == Live
    ensures forall j: u32 :: j != h.id ==> InHalf(t, j) == InHalf(p.s, j) && OutHalf(t, j) == OutHalf(p.s, j)
  {
  }

  lemma StepAdded(p: Endpoint, q: Endpoint, outgoing: seq<Frame>, incoming: seq<Frame>, h: Handle, protocol: Protocol,
                  t: State)
    requires Joined(p, q, outgoing, incoming) && !p.s.closed && !p.s.goawaySent
    requires incoming != [] && incoming[0].kind == Open && incoming[0].id == h.id && Accept(p.s.ids, h.id).Ok?
    requires t == AddStream(p.s.(ids := Accept(p.s.ids, h.id).value), h, protocol)
    ensures Joined(Track(p, t), q, outgoing, incoming[1..])
  {
    hide Channel, Numbers, Control;
    FlightTail(incoming, q);
    OpenIsExpected(p, q, outgoing, incoming);
    AddedSound(p, h, protocol, t);
    QuietTrack(p, t, [StreamOpened(h, protocol)]);
    SenderSilent(p, Track(p, t), q, Flight(outgoing, p));
    ReceiverAccepts(q, p, Track(p, t), Flight(incoming, q));
  }

  lemma DeliverRefusal(p: Endpoint, q: Endpoint, outgoing: seq<Frame>, incoming: seq<Frame>, code: ErrorCode,
                       admit: bool)
    requires Joined(p, q, outgoing, incoming) && !p.s.closed
    requires incoming != [] && incoming[0].kind == Open && Accept(p.s.ids, incoming[0].id).Ok?
    requires StreamCode(Kind.Error, code) && code != NoError
    ensures Delivered(p, q, outgoing, incoming,
                      Refuse(p.s.(ids := Accept(p.s.ids, incoming[0].id).value), incoming[0].id, code, admit))
  {
    hide Joined, Accept, StreamCode;
    var t := p.s.(ids := Accept(p.s.ids, incoming[0].id).value);
    var r := Refuse(t, incoming[0].id, code, admit);
    var p1 := p.(s := t);
    assert Track(p, r.state) == p.(s := r.state);
    StepConsumed(p, q, outgoing, incoming, p1);
    if admit {
      StepRefused(p, q, outgoing, incoming, code, p1, Track(p, r.state));
    }
  }

  lemma DeliverOpen(p: Endpoint, q: Endpoint, outgoing: seq<Frame>, incoming: seq<Frame>,
                    registry: map<Protocol, Owner>, admit: bool)
    requires Joined(p, q, outgoing, incoming) && !p.s.closed
    requires incoming != [] && incoming[0].kind == Open
    ensures Delivered(p, q, outgoing, incoming, ReceiveOpen(p.s, incoming[0], registry, admit))
  {
    hide Joined, Accept, DecodeOpen;
    var f := incoming[0];
    OpenIsExpected(p, q, outgoing, incoming);
    if p.s.goawaySent || p.s.peerGoaway.Some? {
      DeliverRefusal(p, q, outgoing, incoming, RefusedStream, admit);
    } else if |p.s.streams| >= p.s.limits.streams {
      DeliverRefusal(p, q, outgoing, incoming, ErrorCode.ResourceLimit, admit);
    } else {
      var protocol := DecodeOpen(f.payload).value;
      if protocol !in registry {
        DeliverRefusal(p, q, outgoing, incoming, ErrorCode.UnsupportedProtocol, admit);
      } else {
        var r := ReceiveOpen(p.s, f, registry, admit);
        StepAdded(p, q, outgoing, incoming, Handle(p.s.connection, registry[protocol], f.id), protocol, r.state);
      }
    }
  }

  // ---------------------------------------------------------------- any frame

  lemma DeliverControl(p: Endpoint, q: Endpoint, outgoing: seq<Frame>, incoming: seq<Frame>,
                       registry: map<Protocol, Owner>, admit: bool)
    requires Joined(p, q, outgoing, incoming) && !p.s.closed && p.s.now == Some(p.clock)
    requires incoming != [] && incoming[0].id == 0
    ensures Delivered(p, q, outgoing, incoming, Dispatch(p.s, incoming[0], registry, admit))
  {
    hide Joined, Delivered, ReceiveGoaway, ReceivePing, ReceiveConnectionError, ReceiveOpen;
    var f := incoming[0];
    HeadIsControl(p, q, outgoing, incoming);
    match f.kind {
      case GoAway => DeliverGoaway(p, q, outgoing, incoming, admit);
      case Ping => DeliverPing(p, q, outgoing, incoming, admit);
      case Pong => DeliverPong(p, q, outgoing, incoming, admit);
      case Error => DeliverConnectionError(p, q, outgoing, incoming);
    }
  }

  lemma HeadIsControl(p: Endpoint, q: Endpoint, outgoing: seq<Frame>, incoming: seq<Frame>)
    requires Joined(p, q, outgoing, incoming) && incoming != []
    ensures incoming[0].id == 0 ==> incoming[0].kind in {GoAway, Ping, Pong, Kind.Error}
    ensures incoming[0].id != 0 ==> incoming[0].kind in {Open, Kind.Cancel, Kind.Error, Kind.End, Kind.Data}
  {
    hide Direction;
    FlightTail(incoming, q);
    HeadFacts(q, p, Flight(incoming, q));
  }

  lemma DeliverStream(p: Endpoint, q: Endpoint, outgoing: seq<Frame>, incoming: seq<Frame>,
                      registry: map<Protocol, Owner>, admit: bool)
    requires Joined(p, q, outgoing, incoming) && !p.s.closed
    requires incoming != [] && incoming[0].id != 0 && incoming[0].kind != Open
    ensures Delivered(p, q, outgoing, incoming, Dispatch(p.s, incoming[0], registry, admit))
  {
    hide Joined, ReceiveTermination, ReceiveEnd, ReceiveData;
    var f := incoming[0];
    HeadIsControl(p, q, outgoing, incoming);
    StreamIsKnown(p, q, outgoing, incoming);
    if f.id !in p.s.streams {
      StepDiscard(p, q, outgoing, incoming);
      assert Track(p, p.s) == p;
    } else {
      match f.kind {
        case Cancel => DeliverTermination(p, q, outgoing, incoming);
        case Error => DeliverTermination(p, q, outgoing, incoming);
        case End => DeliverEnd(p, q, outgoing, incoming, admit);
        case Data => DeliverData(p, q, outgoing, incoming, admit);
      }
    }
  }

  lemma DeliverDispatch(p: Endpoint, q: Endpoint, outgoing: seq<Frame>, incoming: seq<Frame>,
                        registry: map<Protocol, Owner>, admit: bool)
    requires Joined(p, q, outgoing, incoming) && !p.s.closed && p.s.now == Some(p.clock)
    requires incoming != []
    ensures Delivered(p, q, outgoing, incoming, Dispatch(p.s, incoming[0], registry, admit))
  {
    hide Joined, Delivered, ReceiveOpen;
    if incoming[0].id == 0 {
      DeliverControl(p, q, outgoing, incoming, registry, admit);
    } else if incoming[0].kind == Open {
      DeliverOpen(p, q, outgoing, incoming, registry, admit);
    } else {
      DeliverStream(p, q, outgoing, incoming, registry, admit);
    }
  }

  /** Any frame after the OPEN finds its stream number known. */
  lemma StreamIsKnown(p: Endpoint, q: Endpoint, outgoing: seq<Frame>, incoming: seq<Frame>)
    requires Joined(p, q, outgoing, incoming) && !p.s.closed
    requires incoming != [] && incoming[0].id != 0 && incoming[0].kind != Open
    ensures p.s.ids.WasCreated(incoming[0].id)
  {
    FlightTail(incoming, q);
    HeadFacts(q, p, Flight(incoming, q));
  }

  /** Delivery to an open session succeeds or runs out of capacity; either way both directions stay in order. */
  lemma StepReceive(p: Endpoint, q: Endpoint, outgoing: seq<Frame>, incoming: seq<Frame>,
                    registry: map<Protocol, Owner>, now: Instant, admit: bool, admitError: bool)
    requires Joined(p, q, outgoing, incoming) && !p.s.closed && p.clock <= now && incoming != []
    ensures var r := Receive(p.s, incoming[0], registry, now, admit, admitError);
            Acceptable(r.result) && Joined(Track(p.(clock := now), r.state), q, outgoing, incoming[1..])
  {
    hide Direction, Dispatch, Close, Tick;
    var e := p.(clock := now);
    var t := Tick(p.s, now);
    var p1 := Track(e, t);
    StepTick(p, q, outgoing, incoming, now);
    TickFacts(p.s, now);
    if |t.events| >= EventLimit(t.limits) {
      var cause := Some(Failure(Local, FailureCode.ResourceLimit));
      StepClose(p1, q, outgoing, incoming, cause, None, false);
      CloseFacts(t, cause, None, false);
      TrackTwice(e, t, Close(t, cause, None, false));
      StepThrownAway(Track(p1, Close(t, cause, None, false)), q, outgoing, incoming);
    } else {
      DeliverDispatch(p1, q, outgoing, incoming, registry, admit);
      var r := Dispatch(t, incoming[0], registry, admit);
      TrackTwice(e, t, r.state);
      if r.result.Err? {
        var cause, response := Some(FailureFor(r.result.error)), Some(ResponseFor(r.result.error));
        StepClose(Track(p1, r.state), q, outgoing, incoming[1..], cause, response, admitError);
        CloseFacts(r.state, cause, response, admitError);
        TrackTwice(e, r.state, Close(r.state, cause, response, admitError));
      }
    }
  }

  lemma StepThrownAway(p: Endpoint, q: Endpoint, outgoing: seq<Frame>, incoming: seq<Frame>)
    requires Joined(p, q, outgoing, incoming) && p.s.closed && incoming != []
    ensures Joined(p, q, outgoing, incoming[1..])
  {
    hide Direction;
    FlightTail(incoming, q);
    ReceiverDiscards(q, p, Flight(incoming, q));
  }

  lemma TickFacts(s: State, now: Instant)
    ensures s.events <= Tick(s, now).events
    ensures Tick(s, now).closed == s.closed && Tick(s, now).now == Some(now)
  {
  }

  lemma CloseFacts(s: State, failure: Option<Failure>, response: Option<ErrorCode>, admit: bool)
    ensures s.events <= Close(s, failure, response, admit).events
    ensures Close(s, failure, response, admit).closed
  {
  }
}
