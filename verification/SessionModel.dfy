/**
 One authenticated connection as a value, and every operation on it as a function.

 The serialized-byte budget is shared with other connections, so each attempt to reserve
 output takes its outcome as an input (`admit`). Time is supplied by the caller.
 */
module SessionModel {
  import opened Bytes
  import opened Codec
  import opened StreamNumbering
  import opened SessionTypes
  import opened Lines
  import opened Scheduler

  datatype State = State(
    connection: nat,
    limits: Limits,
    lastOutput: Option<u32>,
    acceptedRemote: u32,
    peerGoaway: Option<u32>,
    drainFailure: Option<Failure>,
    goawaySent: bool,
    goawayWritten: bool,
    pings: map<Token, (Instant, Instant)>,
    now: Option<Instant>,
    closed: bool,
    ids: Ids,
    streams: map<u32, StreamEntry>,
    events: seq<Event>,
    outbound: seq<Frame>)

  datatype Step<+T> = Step(state: State, result: Result<T, SessionError>)

  const MAX_PENDING_PINGS := 64

  function NewSession(connection: nat, role: Role, limits: Limits): State {
    State(connection, limits, None, 0, None, None, false, false, map[], None, false,
          NewIds(role), map[], [Authenticated], [])
  }

  function Least2(a: nat, b: nat): nat {
    if a < b then a else b
  }

  /** Saturating `4 * streams + 130` in a 64-bit word. */
  function EventLimit(l: Limits): nat {
    Least2(Least2(l.streams * 4, MAX_U64) + 130, MAX_U64)
  }

  function Enqueue(s: State, f: Frame): State {
    s.(outbound := s.outbound + [f])
  }

  function Queue(s: State, f: Frame, admit: bool): Step<()> {
    if admit then Step(Enqueue(s, f), Ok(())) else Step(s, Err(Capacity))
  }

  function Push(s: State, e: Event): State {
    s.(events := s.events + [e])
  }

  function ErrorFrame(id: u32, code: ErrorCode): Frame {
    Frame(Kind.Error, id, EncodeError(code))
  }

  function Refuse(s: State, id: u32, code: ErrorCode, admit: bool): Step<()> {
    Queue(s, ErrorFrame(id, code), admit)
  }

  function AddStream(s: State, h: Handle, protocol: Protocol): State {
    s.(acceptedRemote := if s.ids.IsLocal(h.id) then s.acceptedRemote else h.id,
       streams := s.streams[h.id := StreamEntry(h, true, true, false)],
       events := s.events + [StreamOpened(h, protocol)])
  }

  function RemoveStream(s: State, id: u32, outcome: Outcome): State {
    if id in s.streams then
      s.(streams := s.streams - {id}, events := s.events + [StreamClosed(s.streams[id].handle, outcome)])
    else s
  }

  ghost function Terminate(s: State, id: u32, outcome: Outcome): State {
    RemoveStream(s.(outbound := Surviving(s.outbound, id)), id, outcome)
  }

  ghost function TerminateAll(s: State, ids: seq<u32>, outcome: Outcome): State
    decreases |ids|
  {
    if ids == [] then s else TerminateAll(Terminate(s, ids[0], outcome), ids[1..], outcome)
  }

  function Complete(s: State, id: u32): State {
    if id in s.streams && !s.streams[id].remoteOpen && s.streams[id].endWritten then
      RemoveStream(s, id, Completed)
    else s
  }

  ghost function FailStream(s: State, id: u32, wire: ErrorCode, code: FailureCode, admit: bool): Step<()> {
    Refuse(Terminate(s, id, Failed(Failure(Local, code))), id, wire, admit)
  }

  function PingFailures(tokens: seq<Token>, f: Failure): seq<Event> {
    seq(|tokens|, i requires 0 <= i < |tokens| => PingFinished(tokens[i], Err(f)))
  }

  function StreamFailures(streams: map<u32, StreamEntry>, ids: seq<u32>, f: Failure): seq<Event>
    requires forall i :: 0 <= i < |ids| ==> ids[i] in streams
  {
    seq(|ids|, i requires 0 <= i < |ids| => StreamClosed(streams[ids[i]].handle, Failed(f)))
  }

  ghost function TokensInOrder(tokens: set<Token>): (r: seq<Token>)
    ensures forall t :: t in r <==> t in tokens
    ensures forall i, j :: 0 <= i < j < |r| ==> r[i] < r[j]
  {
    AscendingVisit(tokens, Ascending(tokens));
    var r := Ascending(tokens);
    assert forall i :: 0 <= i < |r| ==> r[i] in tokens;
    r
  }

  ghost function IdsInOrder(ids: set<u32>): (r: seq<u32>)
    ensures forall id :: id in r <==> id in ids
    ensures forall i, j :: 0 <= i < j < |r| ==> r[i] < r[j]
  {
    AscendingVisit(ids, Ascending(ids));
    var r := Ascending(ids);
    assert forall i :: 0 <= i < |r| ==> r[i] in ids;
    r
  }

  ghost function AllPingFailures(tokens: set<Token>, f: Failure): seq<Event> {
    PingFailures(TokensInOrder(tokens), f)
  }

  ghost function AllStreamFailures(streams: map<u32, StreamEntry>, f: Failure): seq<Event> {
    StreamFailures(streams, IdsInOrder(streams.Keys), f)
  }

  function CloseCause(s: State, failure: Option<Failure>): Option<Failure> {
    if failure.Some? then failure else s.drainFailure
  }

  function Unfinished(cause: Option<Failure>): Failure {
    if cause.Some? then cause.value else Failure(Local, ConnectionLost)
  }

  function CloseOutput(response: Option<ErrorCode>, admit: bool): seq<Frame> {
    if response.Some? && response.value != NoError && admit then [ErrorFrame(0, response.value)] else []
  }

  /** Outcomes owed at closure: pending probes, then active streams, then the connection itself. */
  ghost function Farewell(s: State, cause: Option<Failure>): seq<Event> {
    AllPingFailures(s.pings.Keys, Unfinished(cause)) + AllStreamFailures(s.streams, Unfinished(cause))
    + [ConnectionClosed(cause)]
  }

  ghost function Close(s: State, failure: Option<Failure>, response: Option<ErrorCode>, admit: bool): State {
    if s.closed then s
    else
      s.(closed := true,
         pings := map[],
         streams := map[],
         events := s.events + Farewell(s, CloseCause(s, failure)),
         outbound := CloseOutput(response, admit))
  }

  function Drain(s: State, reason: ShutdownReason, admit: bool): Step<()> {
    if s.closed then Step(s, Err(SessionClosed))
    else if s.goawaySent then Step(s, Ok(()))
    else
      var q := Queue(s, Frame(GoAway, 0, GoAwayPayload(s.acceptedRemote, ShutdownCode(reason))), admit);
      if q.result.Err? then q else Step(q.state.(goawaySent := true), Ok(()))
  }

  predicate ReadyToClose(s: State) {
    !s.closed && s.goawayWritten && s.streams == map[] && s.outbound == []
  }

  function Selectable(s: State): bool {
    |s.events| < EventLimit(s.limits) && |s.streams| < s.limits.streams
  }

  function OpenStream(s: State, owner: Owner, selection: Option<Protocol>, admit: bool,
                      admitDrain: bool): Step<Handle> {
    if s.closed then Step(s, Err(SessionClosed))
    else if s.goawaySent || s.peerGoaway.Some? then Step(s, Err(Draining))
    else if selection.None? then Step(s, Err(NotOwner))
    else if !ValidProtocol(selection.value) then Step(s, Err(Violation))
    else if !Selectable(s) || !admit then Step(s, Err(Capacity))
    else
      match Allocate(s.ids)
      case Err(e) =>
        var d := Drain(s, NoMoreIds, admitDrain);
        Step(d.state, Err(if d.result.Err? then d.result.error else IdViolation(e)))
      case Ok(pair) =>
        var h := Handle(s.connection, owner, pair.1);
        Step(Enqueue(AddStream(s.(ids := pair.0), h, selection.value),
                     Frame(Kind.Open, h.id, EncodeOpen(selection.value))),
             Ok(h))
  }

  function Authorize(s: State, owner: Owner, h: Handle): Result<(), SessionError> {
    if h.connection != s.connection then Err(WrongConnection)
    else if h.owner != owner then Err(WrongStreamOwner)
    else Ok(())
  }

  function Send(s: State, owner: Owner, h: Handle, bytes: seq<byte>, admit: bool): Step<()> {
    if s.closed then Step(s, Err(SessionClosed))
    else if Authorize(s, owner, h).Err? then Step(s, Authorize(s, owner, h))
    else if !(h.id in s.streams && s.streams[h.id].localOpen) then Step(s, Err(Violation))
    else if bytes == [] || |bytes| > MAX_PAYLOAD then Step(s, Err(InvalidData))
    else Queue(s, Frame(Kind.Data, h.id, bytes), admit)
  }

  function EndStream(s: State, owner: Owner, h: Handle, admit: bool): Step<()> {
    if s.closed then Step(s, Err(SessionClosed))
    else if Authorize(s, owner, h).Err? then Step(s, Authorize(s, owner, h))
    else if !(h.id in s.streams && s.streams[h.id].localOpen) then Step(s, Err(Violation))
    else if !admit then Step(s, Err(Capacity))
    else Step(Enqueue(s.(streams := s.streams[h.id := s.streams[h.id].(localOpen := false)]),
                      Frame(Kind.End, h.id, [])), Ok(()))
  }

  ghost function CancelStream(s: State, owner: Owner, h: Handle, reason: CancelReason, admit: bool): Step<()> {
    if s.closed then Step(s, Err(SessionClosed))
    else if Authorize(s, owner, h).Err? then Step(s, Authorize(s, owner, h))
    else if h.id !in s.streams then Step(s, Err(Violation))
    else
      var t := Terminate(s, h.id, CancelledBy(Local, reason));
      if admit then Step(Enqueue(t, Frame(Kind.Cancel, h.id, EncodeError(CancelCode(reason)))), Ok(()))
      else Step(Close(t, Some(Failure(Local, FailureCode.ResourceLimit)), None, false), Ok(()))
  }

  function Sent(s: State, kind: Kind, id: u32): State {
    if kind == GoAway then s.(goawayWritten := true)
    else if kind == Kind.End then
      Complete(if id in s.streams
               then s.(streams := s.streams[id := s.streams[id].(endWritten := !s.streams[id].localOpen)])
               else s, id)
    else s
  }

  function SendPing(s: State, token: Token, timeout: nat, now: Instant, admit: bool): Step<()> {
    if s.closed then Step(s, Err(SessionClosed))
    else if timeout == 0 || token in s.pings then Step(s, Err(Violation))
    else if |s.pings| >= MAX_PENDING_PINGS then Step(s, Err(Capacity))
    else if now + timeout > s.limits.lastInstant then Step(s, Err(Violation))
    else
      var q := Queue(s, Frame(Ping, 0, EncodePing(token)), admit);
      if q.result.Err? then q
      else Step(q.state.(pings := s.pings[token := (now, now + timeout)]), Ok(()))
  }

  function Expired(s: State, now: Instant): set<Token> {
    set t | t in s.pings && s.pings[t].1 <= now
  }

  ghost function Tick(s: State, now: Instant): State {
    s.(now := Some(now),
       pings := s.pings - Expired(s, now),
       events := s.events + AllPingFailures(Expired(s, now), Failure(Local, DeadlineExceeded)))
  }

  function ReceivePing(s: State, kind: Kind, payload: seq<byte>, admit: bool): Step<()> {
    match DecodePing(payload)
    case Err(_) => Step(s, Err(Violation))
    case Ok(token) =>
      if kind == Ping then Queue(s, Frame(Pong, 0, EncodePing(token)), admit)
      else if token !in s.pings then Step(s, Ok(()))
      else
        var t := s.(pings := s.pings - {token});
        var started := s.pings[token].0;
        if s.now.None? || s.now.value < started then Step(t, Err(Violation))
        else Step(Push(t, PingFinished(token, Ok(s.now.value - started))), Ok(()))
  }

  /** Active local streams above the peer's acceptance bound. */
  function RefusedBy(s: State, last: u32): set<u32> {
    set id | id in s.streams && s.ids.IsLocal(id) && id > last
  }

  predicate GoawayAcceptable(s: State, last: u32) {
    && (last == 0 || s.ids.IsLocal(last))
    && last <= s.ids.greatestLocal
    && (s.peerGoaway.Some? ==> last <= s.peerGoaway.value)
  }

  ghost function ReceiveGoaway(s: State, payload: seq<byte>, admit: bool): Step<()> {
    match DecodeGoAway(payload)
    case Err(_) => Step(s, Err(Violation))
    case Ok(pair) =>
      var last, code := pair.0, pair.1.code;
      if !GoawayAcceptable(s, last) then Step(s, Err(Violation))
      else
        var noted := s.(peerGoaway := Some(last),
                        drainFailure := if code != NoError then Some(Failure(Peer, FailureOf(code)))
                                        else s.drainFailure);
        Drain(TerminateAll(noted, IdsInOrder(RefusedBy(s, last)), Failed(Failure(Peer, Refused))), Normal, admit)
  }

  function PeerOutcome(kind: Kind, code: ErrorCode): Outcome {
    if kind == Kind.Cancel && code == ErrorCode.Cancelled then CancelledBy(Peer, Requested)
    else if kind == Kind.Cancel && code == ErrorCode.ResourceLimit then CancelledBy(Peer, OutOfResources)
    else if kind == Kind.Cancel && code == ErrorCode.InternalError then CancelledBy(Peer, Broken)
    else Failed(Failure(Peer, FailureOf(code)))
  }

  ghost function ReceiveTermination(s: State, f: Frame): Step<()> {
    match DecodeError(f.payload)
    case Err(_) => Step(s, Err(Violation))
    case Ok(d) => Step(Terminate(s, f.id, PeerOutcome(f.kind, d.code)), Ok(()))
  }

  ghost function ReceiveEnd(s: State, f: Frame, admit: bool): Step<()>
    requires f.id in s.streams
  {
    var st := s.streams[f.id];
    if f.payload != [] || !st.remoteOpen then
      FailStream(s, f.id, StreamStateError, FailureCode.StreamState, admit)
    else
      Step(Complete(Push(s.(streams := s.streams[f.id := st.(remoteOpen := false)]), RemoteEnd(st.handle)), f.id),
           Ok(()))
  }

  /** Payload bytes of one stream still queued for its consumer. */
  function Buffered(events: seq<Event>, id: u32): nat {
    if events == [] then 0
    else (if events[0].DataReceived? && events[0].stream.id == id then |events[0].bytes| else 0)
         + Buffered(events[1..], id)
  }

  ghost function ReceiveData(s: State, f: Frame, admit: bool): Step<()>
    requires f.id in s.streams
  {
    var st := s.streams[f.id];
    if !st.remoteOpen || f.payload == [] || |f.payload| > MAX_PAYLOAD then
      FailStream(s, f.id, StreamStateError, FailureCode.StreamState, admit)
    else if Buffered(s.events, f.id) + |f.payload| > s.limits.bufferedPerStream then
      FailStream(s, f.id, ErrorCode.ResourceLimit, FailureCode.ResourceLimit, admit)
    else Step(Push(s, DataReceived(st.handle, f.payload)), Ok(()))
  }

  function ReceiveOpen(s: State, f: Frame, registry: map<Protocol, Owner>, admit: bool): Step<()> {
    match Accept(s.ids, f.id)
    case Err(e) => Step(s, Err(IdViolation(e)))
    case Ok(ids) =>
      var t := s.(ids := ids);
      if s.goawaySent || s.peerGoaway.Some? then Refuse(t, f.id, RefusedStream, admit)
      else if |s.streams| >= s.limits.streams then Refuse(t, f.id, ErrorCode.ResourceLimit, admit)
      else match DecodeOpen(f.payload)
           case Err(_) => Refuse(t, f.id, ProtocolError, admit)
           case Ok(p) =>
             if p !in registry then Refuse(t, f.id, ErrorCode.UnsupportedProtocol, admit)
             else Step(AddStream(t, Handle(s.connection, registry[p], f.id), p), Ok(()))
  }

  ghost function ReceiveConnectionError(s: State, payload: seq<byte>): Step<()> {
    match DecodeError(payload)
    case Err(_) => Step(s, Err(Violation))
    case Ok(d) => Step(Close(s, Some(Failure(Peer, FailureOf(d.code))), None, false), Ok(()))
  }

  /** Dispatch of one verified frame against the stream table. */
  ghost function Dispatch(s: State, f: Frame, registry: map<Protocol, Owner>, admit: bool): Step<()> {
    if f.kind == GoAway && f.id == 0 then ReceiveGoaway(s, f.payload, admit)
    else if (f.kind == Ping || f.kind == Pong) && f.id == 0 then ReceivePing(s, f.kind, f.payload, admit)
    else if f.kind == Kind.Error && f.id == 0 then ReceiveConnectionError(s, f.payload)
    else if f.kind == Kind.Open then ReceiveOpen(s, f, registry, admit)
    else if f.id == 0 then Step(s, Err(Violation))
    else if !s.ids.WasCreated(f.id) then Step(s, Err(Violation))
    else if f.id !in s.streams then Step(s, Ok(()))
    else if f.kind == Kind.Cancel || f.kind == Kind.Error then ReceiveTermination(s, f)
    else if f.kind == Kind.End then ReceiveEnd(s, f, admit)
    else if f.kind == Kind.Data then ReceiveData(s, f, admit)
    else Step(s, Err(Violation))
  }

  function FailureFor(e: SessionError): Failure {
    Failure(Local, if e == Capacity then FailureCode.ResourceLimit else ProtocolViolation)
  }

  function ResponseFor(e: SessionError): ErrorCode {
    if e == Capacity then ErrorCode.ResourceLimit else ProtocolError
  }

  ghost function Receive(s: State, f: Frame, registry: map<Protocol, Owner>, now: Instant, admit: bool,
                         admitError: bool): Step<()> {
    if s.closed then Step(s, Err(SessionClosed))
    else
      var t := Tick(s, now);
      if |t.events| >= EventLimit(t.limits) then
        Step(Close(t, Some(Failure(Local, FailureCode.ResourceLimit)), None, false), Err(Capacity))
      else
        var r := Dispatch(t, f, registry, admit);
        if r.result.Ok? then r
        else Step(Close(r.state, Some(FailureFor(r.result.error)), Some(ResponseFor(r.result.error)), admitError),
                  r.result)
  }

  function PopEvent(s: State): State {
    if s.events == [] then s else s.(events := s.events[1..])
  }

  predicate VisibleTo(e: Event, connection: nat, owner: Owner) {
    ConcernsStream(e) && e.stream.connection == connection && e.stream.owner == owner
  }

  /** Position of the oldest event one consumer may take. */
  function FirstVisible(events: seq<Event>, connection: nat, owner: Owner): (r: Option<nat>)
    ensures match r
            case None => forall i :: 0 <= i < |events| ==> !VisibleTo(events[i], connection, owner)
            case Some(k) => k < |events| && VisibleTo(events[k], connection, owner)
                            && forall i :: 0 <= i < k ==> !VisibleTo(events[i], connection, owner)
  {
    if events == [] then None
    else if VisibleTo(events[0], connection, owner) then Some(0)
    else match FirstVisible(events[1..], connection, owner)
         case None => None
         case Some(k) => assert forall i :: 0 <= i < k ==> events[1..][i] == events[i + 1]; Some(k + 1)
  }

  function PopStreamEvent(s: State, owner: Owner): State {
    match FirstVisible(s.events, s.connection, owner)
    case None => s
    case Some(k) => s.(events := s.events[..k] + s.events[k + 1..])
  }

  /** The frame handed to the writer, and the session without it. */
  ghost function PopOutbound(s: State): (State, Option<Frame>) {
    if s.outbound == [] then (s, None)
    else
      var i := Choice(s.lastOutput, s.outbound);
      (s.(lastOutput := Some(s.outbound[i].id), outbound := Without(s.outbound, i)), Some(s.outbound[i]))
  }
}
