/** Why a session changes: what each elementary change takes of the call that makes it. */
module LifeReasons {
  import opened Bytes
  import opened Codec
  import opened StreamNumbering
  import opened SessionTypes
  import opened SessionModel
  import opened SessionRun
  import opened LifeChanges

  /** DATA or END that the receiving direction of its stream cannot take. */
  predicate StateFault(s: State, f: Frame) {
    && f.id in s.streams
    && (|| (f.kind == Kind.Data && (!s.streams[f.id].remoteOpen || f.payload == [] || |f.payload| > MAX_PAYLOAD))
        || (f.kind == Kind.End && (!s.streams[f.id].remoteOpen || f.payload != [])))
  }

  predicate Overflow(s: State, f: Frame) {
    f.kind == Kind.Data && Buffered(s.events, f.id) + |f.payload| > s.limits.bufferedPerStream
  }

  /** The peer's own word about a stream. */
  predicate PeerEnds(f: Frame, id: u32, outcome: Outcome) {
    && f.id == id && (f.kind == Kind.Cancel || f.kind == Kind.Error)
    && DecodeError(f.payload).Ok? && outcome == PeerOutcome(f.kind, DecodeError(f.payload).value.code)
  }

  /** A bound below a local stream. */
  predicate PeerRefuses(s: State, f: Frame, id: u32, outcome: Outcome) {
    && f.kind == GoAway && f.id == 0 && DecodeGoAway(f.payload).Ok? && outcome == Failed(Failure(Peer, Refused))
    && s.ids.IsLocal(id) && id > DecodeGoAway(f.payload).value.0
  }

  /** Why one stream ends on a frame while its session goes on. */
  predicate FrameEnds(s: State, f: Frame, id: u32, outcome: Outcome) {
    || (outcome == Completed && f.kind == Kind.End && f.id == id)
    || (outcome == Failed(Failure(Local, FailureCode.ResourceLimit)) && f.id == id && Overflow(s, f))
    || (outcome == Failed(Failure(Local, FailureCode.StreamState)) && f.id == id && StateFault(s, f))
    || PeerEnds(f, id, outcome)
    || PeerRefuses(s, f, id, outcome)
  }

  /** What a frame that arrives in `s` may change. */
  ghost predicate FrameReason(s: State, f: Frame, registry: map<Protocol, Owner>, c: Change) {
    match c
    case Silent => true
    case Born(h, p) =>
      && f.kind == Kind.Open && DecodeOpen(f.payload) == Ok(p) && p in registry
      && h == Handle(s.connection, registry[p], f.id) && !s.ids.IsLocal(f.id)
    case Fed(id, bytes) => f.kind == Kind.Data && f.id == id && f.payload == bytes
    case Halved(id) => f.kind == Kind.End && f.id == id && f.payload == []
    case Died(id, outcome) => FrameEnds(s, f, id, outcome)
    case Answered(token, elapsed) =>
      && f.kind == Pong && f.id == 0 && DecodePing(f.payload) == Ok(token)
      && token in s.pings && s.now.Some? && s.pings[token].0 + elapsed == s.now.value
    case Shut(cause) =>
      && f.kind == Kind.Error && f.id == 0 && DecodeError(f.payload).Ok?
      && cause == Some(Failure(Peer, FailureOf(DecodeError(f.payload).value.code)))
    case _ => false
  }

  ghost predicate AllFrameReason(s: State, f: Frame, registry: map<Protocol, Owner>, cs: seq<Change>) {
    forall i :: 0 <= i < |cs| ==> FrameReason(s, f, registry, cs[i])
  }

  /** Time passes before a frame is looked at; a session that cannot take the frame closes on its own account. */
  ghost predicate ReceiveReason(s: State, f: Frame, registry: map<Protocol, Owner>, now: Instant, c: Change) {
    || c.Silent?
    || c == Lapsed(Expired(s, now))
    || FrameReason(Tick(s, now), f, registry, c)
    || c == Shut(Some(Failure(Local, FailureCode.ResourceLimit)))
    || c == Shut(Some(Failure(Local, ProtocolViolation)))
  }

  /** What a call may change. */
  ghost predicate Reason(e: Endpoint, a: Action, c: Change) {
    match a
    case Opening(owner, selection, _, _) =>
      c.Silent? || (c.Born? && selection == Some(c.protocol) && c.stream.owner == owner
                    && c.stream.connection == e.s.connection && e.s.ids.IsLocal(c.stream.id))
    case Cancelling(owner, stream, reason, admit) =>
      || c.Silent?
      || (c == Died(stream.id, CancelledBy(Local, reason)) && stream.owner == owner
          && stream.connection == e.s.connection)
      || (!admit && c == Shut(Some(Failure(Local, FailureCode.ResourceLimit))))
    case Pinging(token, timeout, now, _) => c == Probed(token, now, now + timeout)
    case Ticking(now) => c == Lapsed(Expired(e.s, now))
    case Closing(failure, _, _) => c == Shut(CloseCause(e.s, failure))
    case Receiving(f, registry, now, _, _) => ReceiveReason(e.s, f, registry, now, c)
    case FinishingOutput =>
      || c.Silent?
      || (e.writing.Some? && e.writing.value.0 == Kind.End
          && (c == Marked(e.writing.value.1) || c == Died(e.writing.value.1, Completed)))
    case _ => c.Silent?
  }

  ghost predicate AllReason(e: Endpoint, a: Action, cs: seq<Change>) {
    forall i :: 0 <= i < |cs| ==> Reason(e, a, cs[i])
  }
}
