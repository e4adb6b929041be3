/** Every frame a session queues in its life has its cause in the call that queued it. */
module LifeFrames {
  import opened Bytes
  import opened Codec
  import opened StreamNumbering
  import opened SessionTypes
  import opened Lines
  import opened Scheduler
  import opened SessionModel
  import opened SessionRun
  import opened Lifecycle

  /** What a session may answer to a frame. */
  ghost predicate Answers(s: State, frame: Frame, f: Frame) {
    match f.kind
    case Pong => frame.kind == Ping && frame.id == 0 && f == Frame(Pong, 0, frame.payload)
    case Error => f.id == frame.id
    case GoAway =>
      frame.kind == GoAway && frame.id == 0 && f == Frame(GoAway, 0, GoAwayPayload(s.acceptedRemote, NoError))
    case _ => false
  }

  /** The cause of one queued frame in the call that queued it. */
  ghost predicate QueuedBy(e: Endpoint, a: Action, f: Frame) {
    match a
    case Opening(_, selection, _, _) =>
      || (f.kind == Kind.Open && selection.Some? && DecodeOpen(f.payload) == Ok(selection.value))
      || f == Frame(GoAway, 0, GoAwayPayload(e.s.acceptedRemote, ErrorCode.IdExhausted))
    case Sending(owner, stream, bytes, _) =>
      f == Frame(Kind.Data, stream.id, bytes) && owner == stream.owner && stream.connection == e.s.connection
    case Ending(owner, stream, _) =>
      f == Frame(Kind.End, stream.id, []) && owner == stream.owner && stream.connection == e.s.connection
    case Cancelling(owner, stream, reason, _) =>
      && f == Frame(Kind.Cancel, stream.id, EncodeError(CancelCode(reason)))
      && owner == stream.owner && stream.connection == e.s.connection
    case Pinging(token, _, _, _) => f == Frame(Ping, 0, EncodePing(token))
    case DrainingFor(shutdown, _) => f == Frame(GoAway, 0, GoAwayPayload(e.s.acceptedRemote, ShutdownCode(shutdown)))
    case Closing(_, response, _) => response.Some? && f == ErrorFrame(0, response.value)
    case Receiving(frame, _, _, _, _) =>
      Answers(e.s, frame, f) || f == ErrorFrame(0, ProtocolError) || f == ErrorFrame(0, ErrorCode.ResourceLimit)
    case _ => false
  }

  /** Nothing is queued in `t` that was not queued in `s`. */
  ghost predicate Subset(s: State, t: State) {
    forall f :: f in t.outbound ==> f in s.outbound
  }

  /** At most this frame is new. */
  ghost predicate OneMore(s: State, t: State, g: Frame) {
    forall f :: f in t.outbound ==> f in s.outbound || f == g
  }

  lemma TerminateQueues(s: State, id: u32, outcome: Outcome)
    ensures Subset(s, Terminate(s, id, outcome))
  {
    hide Surviving;
    SurvivingMembers(s.outbound, id);
  }

  lemma {:induction false} TerminateAllQueues(s: State, ids: seq<u32>, outcome: Outcome)
    ensures Subset(s, TerminateAll(s, ids, outcome))
    ensures TerminateAll(s, ids, outcome).acceptedRemote == s.acceptedRemote
    decreases |ids|
  {
    hide Surviving;
    if ids != [] {
      TerminateQueues(s, ids[0], outcome);
      TerminateAllQueues(Terminate(s, ids[0], outcome), ids[1..], outcome);
    }
  }

  lemma FailQueues(s: State, id: u32, wire: ErrorCode, code: FailureCode, admit: bool)
    ensures OneMore(s, FailStream(s, id, wire, code, admit).state, ErrorFrame(id, wire))
  {
    hide Terminate, EncodeError;
    TerminateQueues(s, id, Failed(Failure(Local, code)));
  }

  lemma GoawayQueues(s: State, payload: seq<byte>, admit: bool)
    ensures OneMore(s, ReceiveGoaway(s, payload, admit).state,
                    Frame(GoAway, 0, GoAwayPayload(s.acceptedRemote, NoError)))
  {
    hide DecodeGoAway, GoawayAcceptable, TerminateAll, IdsInOrder, GoAwayPayload;
    if DecodeGoAway(payload).Ok? {
      var last, code := DecodeGoAway(payload).value.0, DecodeGoAway(payload).value.1.code;
      var noted := s.(peerGoaway := Some(last),
                      drainFailure := if code != NoError then Some(Failure(Peer, FailureOf(code))) else s.drainFailure);
      TerminateAllQueues(noted, IdsInOrder(RefusedBy(s, last)), Failed(Failure(Peer, Refused)));
    }
  }

  lemma RefuseQueues(s: State, id: u32, code: ErrorCode, admit: bool)
    ensures OneMore(s, Refuse(s, id, code, admit).state, ErrorFrame(id, code))
  {
    hide EncodeError;
  }

  lemma AddQueues(s: State, h: Handle, p: Protocol)
    ensures AddStream(s, h, p).outbound == s.outbound
  {
    hide Ids.IsLocal;
  }

  lemma OpenQueues(s: State, f: Frame, registry: map<Protocol, Owner>, admit: bool, g: Frame)
    requires g in ReceiveOpen(s, f, registry, admit).state.outbound
    ensures g in s.outbound || (g.kind == Kind.Error && g.id == f.id)
  {
    hide DecodeOpen, EncodeError, Accept, AddStream, Refuse;
    if Accept(s.ids, f.id).Ok? {
      var t := s.(ids := Accept(s.ids, f.id).value);
      forall code: ErrorCode
        ensures OneMore(t, Refuse(t, f.id, code, admit).state, ErrorFrame(f.id, code))
      {
        RefuseQueues(t, f.id, code, admit);
      }
      if DecodeOpen(f.payload).Ok? && DecodeOpen(f.payload).value in registry {
        var p := DecodeOpen(f.payload).value;
        AddQueues(t, Handle(s.connection, registry[p], f.id), p);
      }
    }
  }

  lemma StreamQueues(s: State, f: Frame, admit: bool, g: Frame)
    requires f.id in s.streams
    requires || g in ReceiveTermination(s, f).state.outbound || g in ReceiveEnd(s, f, admit).state.outbound
             || g in ReceiveData(s, f, admit).state.outbound
    ensures g in s.outbound || (g.kind == Kind.Error && g.id == f.id)
  {
    hide DecodeError, FailStream, Terminate, Buffered, PeerOutcome, EncodeError;
    FailQueues(s, f.id, StreamStateError, FailureCode.StreamState, admit);
    FailQueues(s, f.id, ErrorCode.ResourceLimit, FailureCode.ResourceLimit, admit);
    if DecodeError(f.payload).Ok? {
      TerminateQueues(s, f.id, PeerOutcome(f.kind, DecodeError(f.payload).value.code));
    }
  }

  lemma DispatchQueues(s: State, f: Frame, registry: map<Protocol, Owner>, admit: bool, g: Frame)
    requires g in Dispatch(s, f, registry, admit).state.outbound
    ensures g in s.outbound || Answers(s, f, g)
  {
    hide ReceiveGoaway, ReceiveOpen, ReceiveTermination, ReceiveEnd, ReceiveData, DecodeError, Farewell, DecodePing,
      EncodePing, GoAwayPayload;
    GoawayQueues(s, f.payload, admit);
    if f.kind == Kind.Open {
      OpenQueues(s, f, registry, admit, g);
    } else if f.id != 0 && f.id in s.streams {
      if g !in s.outbound && s.ids.WasCreated(f.id) {
        StreamQueues(s, f, admit, g);
      }
    } else if f.kind == Ping && f.id == 0 && DecodePing(f.payload).Ok? {
      PingPayload(f.payload);
    }
  }

  /** A token's encoding is the payload it was read from. */
  lemma PingPayload(payload: seq<byte>)
    requires DecodePing(payload).Ok?
    ensures EncodePing(DecodePing(payload).value) == payload
  {
    Canonical64(payload);
  }

  lemma CloseQueues(s: State, failure: Option<Failure>, response: Option<ErrorCode>, admit: bool, g: Frame)
    requires g in Close(s, failure, response, admit).outbound
    ensures g in s.outbound || (response.Some? && g == ErrorFrame(0, response.value))
  {
    hide Farewell, EncodeError;
  }

  lemma ReceiveQueues(s: State, f: Frame, registry: map<Protocol, Owner>, now: Instant, admit: bool, admitError: bool,
                      g: Frame)
    requires g in Receive(s, f, registry, now, admit, admitError).state.outbound
    ensures || g in s.outbound || Answers(s, f, g)
            || g == ErrorFrame(0, ProtocolError) || g == ErrorFrame(0, ErrorCode.ResourceLimit)
  {
    hide Dispatch, Close, AllPingFailures, EventLimit, EncodeError, GoAwayPayload;
    if !s.closed {
      var t := Tick(s, now);
      var r := Dispatch(t, f, registry, admit);
      if |t.events| >= EventLimit(t.limits) {
        CloseQueues(t, Some(Failure(Local, FailureCode.ResourceLimit)), None, false, g);
      } else {
        if r.result.Err? {
          CloseQueues(r.state, Some(FailureFor(r.result.error)), Some(ResponseFor(r.result.error)), admitError, g);
        }
        if g in r.state.outbound {
          DispatchQueues(t, f, registry, admit, g);
        }
      }
    }
  }

  lemma OpeningQueues(e: Endpoint, a: Action, g: Frame)
    requires a.Opening? && g in Act(e, a).s.outbound
    ensures g in e.s.outbound || QueuedBy(e, a, g)
  {
    hide EncodeOpen, DecodeOpen, ValidProtocol, GoAwayPayload, EventLimit, Allocate, Ids.IsLocal;
    if a.selection.Some? && ValidProtocol(a.selection.value) {
      OpenExact(EncodeOpen(a.selection.value), a.selection.value);
    }
  }

  lemma CancellingQueues(e: Endpoint, a: Action, g: Frame)
    requires a.Cancelling? && g in Act(e, a).s.outbound
    ensures g in e.s.outbound || QueuedBy(e, a, g)
  {
    hide Terminate, Close, EncodeError;
    if a.stream.id in e.s.streams {
      TerminateQueues(e.s, a.stream.id, CancelledBy(Local, a.reason));
      var t := Terminate(e.s, a.stream.id, CancelledBy(Local, a.reason));
      if g in Close(t, Some(Failure(Local, FailureCode.ResourceLimit)), None, false).outbound {
        CloseQueues(t, Some(Failure(Local, FailureCode.ResourceLimit)), None, false, g);
      }
    }
  }

  lemma ProbingQueues(e: Endpoint, a: Action, g: Frame)
    requires (a.Pinging? || a.DrainingFor? || a.Sending? || a.Ending?) && Enabled(e, a) && g in Act(e, a).s.outbound
    ensures g in e.s.outbound || QueuedBy(e, a, g)
  {
    hide EncodePing, GoAwayPayload;
  }

  lemma CallQueues(e: Endpoint, a: Action, g: Frame)
    requires Enabled(e, a) && !a.Receiving? && !a.TakingOutput? && !a.Opening? && !a.Cancelling?
    requires g in Act(e, a).s.outbound
    ensures g in e.s.outbound || QueuedBy(e, a, g)
  {
    hide Close, EncodeError, SendPing, SessionModel.Drain, Send, EndStream, FirstVisible, AllPingFailures;
    if a.Closing? {
      CloseQueues(e.s, a.failure, a.response, a.admit, g);
    } else if a.Pinging? || a.DrainingFor? || a.Sending? || a.Ending? {
      ProbingQueues(e, a, g);
    }
  }

  /** Every frame in the queue was there before, or has its cause in this very call. */
  lemma EveryFrameHasItsCause(e: Endpoint, a: Action, g: Frame)
    requires Enabled(e, a) && g in Act(e, a).s.outbound
    ensures g in e.s.outbound || QueuedBy(e, a, g)
  {
    hide QueuedBy, Receive, Answers;
    if a.Receiving? {
      ReceiveQueues(e.s, a.frame, a.registry, a.now, a.admit, a.admitError, g);
      if g !in e.s.outbound {
        AnswerIsCause(e, a, g);
      }
    } else if a.TakingOutput? {
      assert forall f :: f in Without(e.s.outbound, Choice(e.s.lastOutput, e.s.outbound)) ==> f in e.s.outbound;
    } else if a.Opening? {
      OpeningQueues(e, a, g);
    } else if a.Cancelling? {
      CancellingQueues(e, a, g);
    } else {
      CallQueues(e, a, g);
    }
  }

  lemma AnswerIsCause(e: Endpoint, a: Action, g: Frame)
    requires a.Receiving?
    requires || Answers(e.s, a.frame, g)
             || g == ErrorFrame(0, ProtocolError) || g == ErrorFrame(0, ErrorCode.ResourceLimit)
    ensures QueuedBy(e, a, g)
  {
    hide Answers, EncodeError;
  }
}
