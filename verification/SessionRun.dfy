/**
 Runs of one session: the calls its consumers, its connection and the clock can make.
 An endpoint adds what an observer outside the session remembers.
 */
module SessionRun {
  import opened Bytes
  import opened Codec
  import opened StreamNumbering
  import opened SessionTypes
  import opened Lines
  import opened SessionModel

  datatype Endpoint = Endpoint(
    s: State,
    clock: Instant,                   // latest time any call supplied
    writing: Option<(Kind, u32)>,     // frame the writer owns, if any
    log: seq<Event>,                  // every event the session ever queued
    sent: map<u32, seq<byte>>,        // bytes of accepted sends, per stream
    written: set<u32>)                // streams whose END was fully written
  {
    ghost function SentBytes(id: u32): seq<byte> {
      if id in sent then sent[id] else []
    }
  }

  datatype Action =
    | Opening(owner: Owner, selection: Option<Protocol>, admit: bool, admitDrain: bool)
    | Sending(owner: Owner, stream: Handle, bytes: seq<byte>, admit: bool)
    | Ending(owner: Owner, stream: Handle, admit: bool)
    | Cancelling(owner: Owner, stream: Handle, reason: CancelReason, admit: bool)
    | Pinging(token: Token, timeout: nat, now: Instant, admit: bool)
    | Ticking(now: Instant)
    | DrainingFor(shutdown: ShutdownReason, admit: bool)
    | Closing(failure: Option<Failure>, response: Option<ErrorCode>, admit: bool)
    | Receiving(frame: Frame, registry: map<Protocol, Owner>, now: Instant, admit: bool, admitError: bool)
    | TakingOutput
    | FinishingOutput
    | TakingEvent
    | TakingStreamEvent(owner: Owner)

  function Start(connection: nat, role: Role, limits: Limits): Endpoint {
    Endpoint(NewSession(connection, role, limits), 0, None, [Authenticated], map[], {})
  }

  function Pushed(s: State, t: State): seq<Event> {
    if |s.events| <= |t.events| then t.events[|s.events|..] else []
  }

  /** The endpoint after its session moved to `t`, remembering newly queued events. */
  function Track(e: Endpoint, t: State): Endpoint {
    e.(s := t, log := e.log + Pushed(e.s, t))
  }

  /** Failures the connection reports to a live session are its own; responses come from framing. */
  predicate LocalCause(failure: Option<Failure>, response: Option<ErrorCode>) {
    && (failure.Some? ==> failure.value.origin != Peer)
    && (response.Some? ==> response.value == FrameSizeError || response.value == ProtocolError)
  }

  /** Time never runs backwards and the writer owns one frame at a time. */
  predicate Enabled(e: Endpoint, a: Action) {
    match a
    case Pinging(_, _, now, _) => e.clock <= now
    case Ticking(now) => e.clock <= now
    case Receiving(_, _, now, _, _) => e.clock <= now
    case Closing(failure, response, _) => LocalCause(failure, response)
    case TakingOutput => e.writing.None? && e.s.outbound != []
    case FinishingOutput => e.writing.Some?
    case _ => true
  }

  ghost function Act(e: Endpoint, a: Action): Endpoint
    requires Enabled(e, a)
  {
    match a
    case Opening(owner, selection, admit, admitDrain) =>
      Track(e, OpenStream(e.s, owner, selection, admit, admitDrain).state)
    case Sending(owner, stream, bytes, admit) =>
      var r := Send(e.s, owner, stream, bytes, admit);
      var t := Track(e, r.state);
      if r.result.Ok? then t.(sent := t.sent[stream.id := e.SentBytes(stream.id) + bytes]) else t
    case Ending(owner, stream, admit) =>
      Track(e, EndStream(e.s, owner, stream, admit).state)
    case Cancelling(owner, stream, reason, admit) =>
      Track(e, CancelStream(e.s, owner, stream, reason, admit).state)
    case Pinging(token, timeout, now, admit) =>
      Track(e.(clock := now), SendPing(e.s, token, timeout, now, admit).state)
    case Ticking(now) =>
      Track(e.(clock := now), Tick(e.s, now))
    case DrainingFor(shutdown, admit) =>
      Track(e, Drain(e.s, shutdown, admit).state)
    case Closing(failure, response, admit) =>
      Track(e, Close(e.s, failure, response, admit))
    case Receiving(frame, registry, now, admit, admitError) =>
      Track(e.(clock := now), Receive(e.s, frame, registry, now, admit, admitError).state)
    case TakingOutput =>
      var (t, f) := PopOutbound(e.s);
      e.(s := t, writing := Some((f.value.kind, f.value.id)))
    case FinishingOutput =>
      var (kind, id) := e.writing.value;
      var t := Track(e, Sent(e.s, kind, id));
      t.(writing := None, written := if kind == Kind.End then e.written + {id} else e.written)
    case TakingEvent =>
      e.(s := PopEvent(e.s))
    case TakingStreamEvent(owner) =>
      e.(s := PopStreamEvent(e.s, owner))
  }
}
