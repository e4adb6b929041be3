/** Every call on one endpoint keeps both directions between it and its peer in order. */
module PairSteps {
  import opened Bytes
  import opened Codec
  import opened StreamNumbering
  import opened SessionTypes
  import opened Lines
  import opened Scheduler
  import opened SessionModel
  import opened SessionRun
  import opened ChannelMoves
  import opened PairInvariant
  import opened PairMoves

  /** `outgoing` runs from `p` to `q`, `incoming` from `q` to `p`. */
  ghost predicate Joined(p: Endpoint, q: Endpoint, outgoing: seq<Frame>, incoming: seq<Frame>) {
    && Sound(p) && Sound(q)
    && Direction(p, q, Flight(outgoing, p))
    && Direction(q, p, Flight(incoming, q))
  }

  lemma QuietTrack(e: Endpoint, t: State, pushed: seq<Event>)
    requires t.events == e.s.events + pushed && Quiet(pushed)
    ensures Track(e, t).log == e.log + pushed && SameDelivery(e, Track(e, t))
  {
    assert t.events[|e.s.events|..] == pushed;
    forall id: u32
      ensures Got(Track(e, t).log, id) == Got(e.log, id) && Finished(Track(e, t).log, id) == Finished(e.log, id)
    {
      QuietLog(e.log, pushed, id);
    }
  }

  /** A change that touches no stream, number or frame. */
  lemma StepQuiet(p: Endpoint, p2: Endpoint, q: Endpoint, outgoing: seq<Frame>, incoming: seq<Frame>)
    requires Joined(p, q, outgoing, incoming) && Sound(p2)
    requires p2.s.ids == p.s.ids && p2.s.streams == p.s.streams && p2.s.outbound == p.s.outbound
    requires SameSending(p, p2) && SameReceiving(p, p2) && SameDelivery(p, p2)
    ensures Joined(p2, q, outgoing, incoming)
  {
    hide Channel, Numbers, Control;
    SenderSilent(p, p2, q, Flight(outgoing, p));
    ReceiverPassive(q, p, p2, Flight(incoming, q));
  }

  lemma StepTick(p: Endpoint, q: Endpoint, outgoing: seq<Frame>, incoming: seq<Frame>, now: Instant)
    requires Joined(p, q, outgoing, incoming) && p.clock <= now
    ensures Joined(Track(p.(clock := now), Tick(p.s, now)), q, outgoing, incoming)
  {
    var pushed := AllPingFailures(Expired(p.s, now), Failure(Local, DeadlineExceeded));
    QuietTrack(p.(clock := now), Tick(p.s, now), pushed);
    StepQuiet(p, Track(p.(clock := now), Tick(p.s, now)), q, outgoing, incoming);
  }

  /** Queueing a connection-level frame. */
  lemma StepControl(p: Endpoint, p2: Endpoint, q: Endpoint, outgoing: seq<Frame>, incoming: seq<Frame>, f: Frame)
    requires Joined(p, q, outgoing, incoming) && Sound(p2)
    requires f.id == 0 && f.kind != Open && ControlFrame(p2.s, f)
    requires p2.s.ids == p.s.ids && p2.s.closed == p.s.closed && p2.s.streams == p.s.streams
    requires p2.s.acceptedRemote == p.s.acceptedRemote && p2.s.peerGoaway == p.s.peerGoaway
    requires p2.s.outbound == p.s.outbound + [f] && p2.sent == p.sent && p2.log == p.log
    requires if f.kind == GoAway then !p.s.goawaySent && p2.s == Enqueue(p.s, f).(goawaySent := true)
             else p2.s.goawaySent == p.s.goawaySent
    ensures Joined(p2, q, outgoing, incoming)
  {
    hide Channel, Numbers, Control;
    assert Flight(outgoing, p2) == Flight(outgoing, p) + [f];
    SenderControl(p, p2, q, Flight(outgoing, p), f);
    ReceiverPassive(q, p, p2, Flight(incoming, q));
  }

  lemma StepDrain(p: Endpoint, q: Endpoint, outgoing: seq<Frame>, incoming: seq<Frame>, reason: ShutdownReason,
                  admit: bool)
    requires Joined(p, q, outgoing, incoming)
    ensures Joined(Track(p, Drain(p.s, reason, admit).state), q, outgoing, incoming)
  {
    hide Direction;
    var t := Drain(p.s, reason, admit).state;
    assert t.events == p.s.events + [];
    QuietTrack(p, t, []);
    assert Track(p, t).log == p.log;
    if t == p.s {
      assert Track(p, t) == p;
    } else {
      var f := Frame(GoAway, 0, GoAwayPayload(p.s.acceptedRemote, ShutdownCode(reason)));
      StepControl(p, Track(p, t), q, outgoing, incoming, f);
    }
  }

  lemma PingFrameIsControl(s: State, token: Token)
    ensures ControlFrame(s, Frame(Ping, 0, EncodePing(token))) && ControlFrame(s, Frame(Pong, 0, EncodePing(token)))
  {
  }

  lemma StepPing(p: Endpoint, q: Endpoint, outgoing: seq<Frame>, incoming: seq<Frame>, token: Token, timeout: nat,
                 now: Instant, admit: bool)
    requires Joined(p, q, outgoing, incoming) && p.clock <= now
    ensures Joined(Track(p.(clock := now), SendPing(p.s, token, timeout, now, admit).state), q, outgoing, incoming)
  {
    hide Direction, EncodePing, ControlFrame;
    var e := p.(clock := now);
    var t := SendPing(p.s, token, timeout, now, admit).state;
    StepQuiet(p, e, q, outgoing, incoming);
    if t == p.s {
      assert Track(e, t) == e;
    } else {
      var f := Frame(Ping, 0, EncodePing(token));
      assert t == Enqueue(e.s, f).(pings := e.s.pings[token := (now, now + timeout)]);
      assert Track(e, t).log == e.log;
      PingFrameIsControl(t, token);
      StepControl(e, Track(e, t), q, outgoing, incoming, f);
    }
  }

  lemma FarewellIsQuiet(s: State, cause: Option<Failure>)
    ensures Quiet(Farewell(s, cause))
  {
  }

  lemma ClosedSound(p: Endpoint, failure: Option<Failure>, response: Option<ErrorCode>, admit: bool)
    requires Sound(p)
    ensures Sound(Track(p, Close(p.s, failure, response, admit)))
  {
  }

  lemma CloseOutputIsControl(s: State, response: Option<ErrorCode>, admit: bool)
    requires response.Some? ==> response.value != RefusedStream
    ensures var output := CloseOutput(response, admit);
            output == [] || exists f :: output == [f] && f.id == 0 && f.kind == Kind.Error && ControlFrame(s, f)
  {
    var output := CloseOutput(response, admit);
    if output != [] {
      var f := ErrorFrame(0, response.value);
      assert output == [f] && ControlFrame(s, f);
    }
  }

  /** Closing: every stream leaves, every queued frame goes. */
  lemma StepClose(p: Endpoint, q: Endpoint, outgoing: seq<Frame>, incoming: seq<Frame>,
                  failure: Option<Failure>, response: Option<ErrorCode>, admit: bool)
    requires Joined(p, q, outgoing, incoming)
    requires response.Some? ==> response.value != RefusedStream
    ensures Joined(Track(p, Close(p.s, failure, response, admit)), q, outgoing, incoming)
  {
    var t := Close(p.s, failure, response, admit);
    var p2 := Track(p, t);
    ClosedSound(p, failure, response, admit);
    if p.s.closed {
      assert Pushed(p.s, t) == [];
      assert p2 == p;
    } else {
      FarewellIsQuiet(p.s, CloseCause(p.s, failure));
      QuietTrack(p, t, Farewell(p.s, CloseCause(p.s, failure)));
      CloseOutputIsControl(t, response, admit);
      SenderCloses(p, p2, q, outgoing, CloseOutput(response, admit));
      ReceiverPassive(q, p, p2, Flight(incoming, q));
    }
  }

  /** A stream leaves the table and its queued production is cut. */
  lemma StepTerminate(p: Endpoint, q: Endpoint, outgoing: seq<Frame>, incoming: seq<Frame>, id: u32, outcome: Outcome)
    requires Joined(p, q, outgoing, incoming) && id in p.s.streams
    ensures Joined(Track(p, Terminate(p.s, id, outcome)), q, outgoing, incoming)
  {
    hide Channel, Numbers, Control;
    var t := Terminate(p.s, id, outcome);
    QuietTrack(p, t, [StreamClosed(p.s.streams[id].handle, outcome)]);
    SenderTerminates(p, Track(p, t), q, outgoing, id);
    ReceiverPassive(q, p, Track(p, t), Flight(incoming, q));
  }

  lemma StepTerminateWith(p: Endpoint, q: Endpoint, outgoing: seq<Frame>, incoming: seq<Frame>, outcome: Outcome,
                          f: Frame)
    requires Joined(p, q, outgoing, incoming) && f.id in p.s.streams
    requires Rank(f.kind) == 3 && WellFormed(f)
    ensures Joined(Track(p, Enqueue(Terminate(p.s, f.id, outcome), f)), q, outgoing, incoming)
  {
    hide Channel, Numbers, Control;
    var t := Terminate(p.s, f.id, outcome);
    var p1, p2 := Track(p, t), Track(p, Enqueue(t, f));
    StepTerminate(p, q, outgoing, incoming, f.id, outcome);
    SenderTerminatesWith(p, p1, p2, q, outgoing, f);
    ReceiverPassive(q, p1, p2, Flight(incoming, q));
  }

  lemma StepComplete(p: Endpoint, q: Endpoint, outgoing: seq<Frame>, incoming: seq<Frame>, id: u32)
    requires Joined(p, q, outgoing, incoming)
    ensures Joined(Track(p, Complete(p.s, id)), q, outgoing, incoming)
  {
    hide Channel, Numbers, Control;
    var t := Complete(p.s, id);
    if t == p.s {
      assert Track(p, t) == p;
    } else {
      QuietTrack(p, t, [StreamClosed(p.s.streams[id].handle, Completed)]);
      SenderSilent(p, Track(p, t), q, Flight(outgoing, p));
      ReceiverPassive(q, p, Track(p, t), Flight(incoming, q));
    }
  }

  lemma StepOpen(p: Endpoint, q: Endpoint, outgoing: seq<Frame>, incoming: seq<Frame>,
                 owner: Owner, selection: Option<Protocol>, admit: bool, admitDrain: bool)
    requires Joined(p, q, outgoing, incoming)
    ensures Joined(Track(p, OpenStream(p.s, owner, selection, admit, admitDrain).state), q, outgoing, incoming)
  {
    hide Joined;
    var r := OpenStream(p.s, owner, selection, admit, admitDrain);
    if r.result.Ok? {
      StepOpened(p, q, outgoing, incoming, r.result.value, selection.value, Track(p, r.state));
    } else if r.state == p.s {
      assert Track(p, r.state) == p;
    } else {
      StepDrain(p, q, outgoing, incoming, NoMoreIds, admitDrain);
    }
  }

  lemma OpenedSound(p: Endpoint, h: Handle, protocol: Protocol, t: State)
    requires Sound(p) && Allocate(p.s.ids).Ok? && Allocate(p.s.ids).value.1 == h.id && !p.s.closed
    requires t == AddStream(p.s.(ids := Allocate(p.s.ids).value.0), h, protocol)
    ensures Sound(Track(p, t))
    ensures InHalf(t, h.id) == Live && OutHalf(t, h.id) == Live && InHalf(p.s, h.id) == Absent
    ensures forall j: u32 :: j != h.id ==> InHalf(t, j) == InHalf(p.s, j) && OutHalf(t, j) == OutHalf(p.s, j)
  {
  }

  lemma DirectionNumbers(p: Endpoint, q: Endpoint, flight: seq<Frame>)
    requires Direction(p, q, flight)
    ensures Numbers(p.s, q.s, Opens(flight))
  {
  }

  lemma StepOpened(p: Endpoint, q: Endpoint, outgoing: seq<Frame>, incoming: seq<Frame>, h: Handle, protocol: Protocol,
                   p2: Endpoint)
    requires Joined(p, q, outgoing, incoming) && !p.s.closed && ValidProtocol(protocol)
    requires Allocate(p.s.ids).Ok? && Allocate(p.s.ids).value.1 == h.id
    requires p2 == Track(p, Enqueue(AddStream(p.s.(ids := Allocate(p.s.ids).value.0), h, protocol),
                                    Frame(Kind.Open, h.id, EncodeOpen(protocol))))
    ensures Joined(p2, q, outgoing, incoming)
  {
    hide Direction, Numbers, EncodeOpen, DecodeOpen, Opens;
    var f := Frame(Kind.Open, h.id, EncodeOpen(protocol));
    DirectionNumbers(p, q, Flight(outgoing, p));
    OpenExact(f.payload, protocol);
    QuietTrack(p, p2.s, [StreamOpened(h, protocol)]);
    OpenedSound(p, h, protocol, AddStream(p.s.(ids := Allocate(p.s.ids).value.0), h, protocol));
    assert Flight(outgoing, p2) == Flight(outgoing, p) + [f];
    SenderOpensStream(p, p2, q, Flight(outgoing, p), f);
    NextIsUnknown(p, q, Opens(Flight(outgoing, p)), h.id);
    assert OutHalf(q.s, h.id) == Absent;
    ReceiverPassive(q, p, p2, Flight(incoming, q));
  }

  lemma StepSend(p: Endpoint, q: Endpoint, outgoing: seq<Frame>, incoming: seq<Frame>, f: Frame, p2: Endpoint)
    requires Joined(p, q, outgoing, incoming)
    requires f.id in p.s.streams && p.s.streams[f.id].localOpen && f.kind == Data && WellFormed(f)
    requires p2 == p.(s := Enqueue(p.s, f), sent := p.sent[f.id := p.SentBytes(f.id) + f.payload])
    ensures Joined(p2, q, outgoing, incoming)
  {
    hide Channel, Numbers, Control;
    var flight, id := Flight(outgoing, p), f.id;
    assert Flight(outgoing, p2) == flight + [f];
    assert StreamChannel(p, q, flight, id);
    SendsData(InHalf(q.s, id), Line(flight, id), p.SentBytes(id), Got(q.log, id), Finished(q.log, id), f);
    SenderAppends(p, p2, q, flight, f);
    ReceiverPassive(q, p, p2, Flight(incoming, q));
  }

  lemma EndSound(p: Endpoint, id: u32, p2: Endpoint)
    requires Sound(p) && id in p.s.streams
    requires p2 ==
             p.(s := Enqueue(p.s.(streams := p.s.streams[id := p.s.streams[id].(localOpen := false)]),
                             Frame(Kind.End, id, [])))
    ensures Sound(p2)
    ensures forall j: u32 :: InHalf(p2.s, j) == InHalf(p.s, j)
    ensures forall j: u32 :: j != id ==> OutHalf(p2.s, j) == OutHalf(p.s, j)
  {
  }

  lemma StepEnd(p: Endpoint, q: Endpoint, outgoing: seq<Frame>, incoming: seq<Frame>, id: u32, p2: Endpoint)
    requires Joined(p, q, outgoing, incoming)
    requires id in p.s.streams && p.s.streams[id].localOpen
    requires p2 ==
             p.(s := Enqueue(p.s.(streams := p.s.streams[id := p.s.streams[id].(localOpen := false)]),
                             Frame(Kind.End, id, [])))
    ensures Joined(p2, q, outgoing, incoming)
  {
    hide Channel, Numbers, Control;
    var flight, f := Flight(outgoing, p), Frame(Kind.End, id, []);
    EndSound(p, id, p2);
    assert Flight(outgoing, p2) == flight + [f];
    assert StreamChannel(p, q, flight, id);
    SendsEnd(InHalf(q.s, id), Line(flight, id), p.SentBytes(id), Got(q.log, id), Finished(q.log, id), f);
    assert p2.SentBytes(id) == p.SentBytes(id);
    SenderAppends(p, p2, q, flight, f);
    ReceiverPassive(q, p, p2, Flight(incoming, q));
  }
}
