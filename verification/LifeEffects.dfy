/** Nothing is lost: what a call or a frame must bring about in a life, it does. */
module LifeEffects {
  import opened Bytes
  import opened Codec
  import opened StreamNumbering
  import opened SessionTypes
  import opened Lines
  import opened SessionModel
  import opened SessionRun
  import opened LifeChanges
  import opened LifeReasons
  import opened Lifecycle
  import opened LifePromises
  import opened LifeCompletion

  /** Results of the probes that are due. */
  ghost function Lapses(s: State, now: Instant): seq<Event> {
    AllPingFailures(Expired(s, now), Failure(Local, DeadlineExceeded))
  }

  /** The session is open and below its event limit, results due included. */
  ghost predicate Receptive(s: State, now: Instant) {
    !s.closed && |s.events| + |Expired(s, now)| < EventLimit(s.limits)
  }

  /** A stream reported as opened and not as closed. */
  ghost predicate Live(log: seq<Event>, id: u32) {
    OpenedBy(log, |log|, id) && !ClosedIn(log, id)
  }

  /** A live stream is in the table, under the handle it was opened with and as far as its events say. */
  lemma LiveInTable(life: seq<History>, k: nat, id: u32)
    requires Life(life) && k < |life| && Live(life[k].e.log, id)
    ensures var e := life[k].e;
            && id in e.s.streams && id != 0 && e.s.ids.WasCreated(id) && e.s.streams[id].handle.id == id
            && (e.s.streams[id].remoteOpen <==> !EndedBefore(e.log, |e.log|, id))
            && (id in e.written ==> e.s.streams[id].endWritten)
            && exists i :: 0 <= i < |e.log| && e.log[i].StreamOpened? && e.log[i].stream == e.s.streams[id].handle
  {
    hide Life, Conclusion, Backlog, Owed, PhaseOf, Story, ClosedIn;
    StreamsLiveInOrder(life, k, id);
    LifeMarked(life, k);
    LifeKept(life, k);
    var e := life[k].e;
    FitsOwn(e, id);
    PhaseTells(e.log, id);
    var i :| 0 <= i <= |e.log| && i < |e.log| && About(e.log[i], id) && e.log[i].StreamOpened?;
    assert e.log[i].stream == e.s.streams[id].handle;
  }

  lemma TickRoom(s: State, now: Instant)
    ensures Tick(s, now).events == s.events + Lapses(s, now)
    ensures |Lapses(s, now)| == |Expired(s, now)|
  {
    OneResult(Expired(s, now));
  }

  /** A frame taken without error: time first, then what the frame says. */
  lemma Arrived(e: Endpoint, a: Action, news: seq<Event>)
    requires a.Receiving? && Enabled(e, a) && Receptive(e.s, a.now)
    requires var r := Dispatch(Tick(e.s, a.now), a.frame, a.registry, a.admit);
             r.result.Ok? && r.state.events == Tick(e.s, a.now).events + news
    ensures Act(e, a).s == Dispatch(Tick(e.s, a.now), a.frame, a.registry, a.admit).state
    ensures Act(e, a).log == e.log + Lapses(e.s, a.now) + news
  {
    hide Dispatch, AllPingFailures, EventLimit;
    TickRoom(e.s, a.now);
    var t := Dispatch(Tick(e.s, a.now), a.frame, a.registry, a.admit).state;
    assert t.events[|e.s.events|..] == Lapses(e.s, a.now) + news;
    assert e.log + (Lapses(e.s, a.now) + news) == e.log + Lapses(e.s, a.now) + news;
  }

  lemma DataTaken(e: Endpoint, a: Action)
    requires a.Receiving? && Enabled(e, a) && Receptive(e.s, a.now)
    requires a.frame.kind == Kind.Data && 1 <= |a.frame.payload| <= MAX_PAYLOAD
    requires a.frame.id != 0 && a.frame.id in e.s.streams && e.s.ids.WasCreated(a.frame.id)
             && e.s.streams[a.frame.id].remoteOpen
    requires Buffered(e.s.events, a.frame.id) + |a.frame.payload| <= e.s.limits.bufferedPerStream
    ensures var f := a.frame;
            && !Act(e, a).s.closed
            && Act(e, a).log == e.log + Lapses(e.s, a.now) + [DataReceived(e.s.streams[f.id].handle, f.payload)]
            && Act(e, a).s.streams == e.s.streams && Act(e, a).s.outbound == e.s.outbound
  {
    hide Receptive, Buffered, AllPingFailures, Act, Enabled;
    var f := a.frame;
    TickBuffers(e.s, a.now, f.id);
    Arrived(e, a, [DataReceived(e.s.streams[f.id].handle, f.payload)]);
    assert !e.s.closed by { ReceptiveIsOpen(e.s, a.now); }
  }

  /** DATA for a stream open to it, within the consumer's allowance, is delivered. */
  lemma DataIsDelivered(life: seq<History>, k: nat, a: Action)
    requires Life(life) && k < |life| && a.Receiving? && Enabled(life[k].e, a) && Receptive(life[k].e.s, a.now)
    requires a.frame.kind == Kind.Data && 1 <= |a.frame.payload| <= MAX_PAYLOAD
    requires var e, id := life[k].e, a.frame.id;
             && Live(e.log, id) && !EndedBefore(e.log, |e.log|, id)
             && Buffered(e.s.events, id) + |a.frame.payload| <= e.s.limits.bufferedPerStream
    ensures var e, f := life[k].e, a.frame;
            && f.id in e.s.streams && !Act(e, a).s.closed
            && Act(e, a).log == e.log + Lapses(e.s, a.now) + [DataReceived(e.s.streams[f.id].handle, f.payload)]
            && Act(e, a).s.streams == e.s.streams && Act(e, a).s.outbound == e.s.outbound
  {
    hide Life, Receptive, Live, EndedBefore, Buffered, AllPingFailures, Act, Enabled;
    LiveInTable(life, k, a.frame.id);
    DataTaken(life[k].e, a);
  }

  lemma ReceptiveIsOpen(s: State, now: Instant)
    requires Receptive(s, now)
    ensures !s.closed
  {
  }

  lemma EndTaken(e: Endpoint, a: Action)
    requires a.Receiving? && Enabled(e, a) && Receptive(e.s, a.now)
    requires a.frame.kind == Kind.End && a.frame.payload == []
    requires a.frame.id != 0 && a.frame.id in e.s.streams && e.s.ids.WasCreated(a.frame.id)
             && e.s.streams[a.frame.id].remoteOpen
    ensures var h := e.s.streams[a.frame.id].handle;
            && !Act(e, a).s.closed
            && Act(e, a).log == e.log + Lapses(e.s, a.now)
                                + if e.s.streams[a.frame.id].endWritten then [RemoteEnd(h), StreamClosed(h, Completed)]
                                  else [RemoteEnd(h)]
  {
    hide Receptive, AllPingFailures, Act, Enabled;
    var h := e.s.streams[a.frame.id].handle;
    var news := if e.s.streams[a.frame.id].endWritten then [RemoteEnd(h), StreamClosed(h, Completed)]
                else [RemoteEnd(h)];
    Arrived(e, a, news);
    assert !e.s.closed by { ReceptiveIsOpen(e.s, a.now); }
  }

  /** END for a stream still open to it is reported, and completes the stream if the local END is out. */
  lemma EndIsReported(life: seq<History>, k: nat, a: Action)
    requires Life(life) && k < |life| && a.Receiving? && Enabled(life[k].e, a) && Receptive(life[k].e.s, a.now)
    requires a.frame.kind == Kind.End && a.frame.payload == []
    requires var e, id := life[k].e, a.frame.id; Live(e.log, id) && !EndedBefore(e.log, |e.log|, id)
    ensures var e, id := life[k].e, a.frame.id;
            && id in e.s.streams && !Act(e, a).s.closed
            && var h := e.s.streams[id].handle;
               && e.log + Lapses(e.s, a.now) + [RemoteEnd(h)] <= Act(e, a).log
               && (id in e.written ==>
                     Act(e, a).log == e.log + Lapses(e.s, a.now) + [RemoteEnd(h), StreamClosed(h, Completed)])
  {
    hide Life, Receptive, Live, EndedBefore, AllPingFailures, Act, Enabled;
    LiveInTable(life, k, a.frame.id);
    EndTaken(life[k].e, a);
  }

  /** The peer's CANCEL or ERROR ends exactly the stream it names, with the outcome it names. */
  lemma TerminationIsReported(life: seq<History>, k: nat, a: Action)
    requires Life(life) && k < |life| && a.Receiving? && Enabled(life[k].e, a) && Receptive(life[k].e.s, a.now)
    requires (a.frame.kind == Kind.Cancel || a.frame.kind == Kind.Error) && DecodeError(a.frame.payload).Ok?
    requires Live(life[k].e.log, a.frame.id)
    ensures var e, f := life[k].e, a.frame;
            && f.id in e.s.streams && !Act(e, a).s.closed
            && Act(e, a).log == e.log + Lapses(e.s, a.now)
                                + [StreamClosed(e.s.streams[f.id].handle,
                                                PeerOutcome(f.kind, DecodeError(f.payload).value.code))]
            && Act(e, a).s.streams == e.s.streams - {f.id}
            && Act(e, a).s.outbound == Surviving(e.s.outbound, f.id)
  {
    hide Life, Receptive, Live, AllPingFailures, Act, Enabled, DecodeError, Surviving, PeerOutcome;
    var e, f := life[k].e, a.frame;
    LiveInTable(life, k, f.id);
    Arrived(e, a, [StreamClosed(e.s.streams[f.id].handle, PeerOutcome(f.kind, DecodeError(f.payload).value.code))]);
    assert !e.s.closed by { ReceptiveIsOpen(e.s, a.now); }
  }

  /** OPEN with the next number, for a protocol somebody registered, opens the stream for that consumer. */
  lemma OpenIsReported(e: Endpoint, a: Action, p: Protocol)
    requires a.Receiving? && Enabled(e, a) && Receptive(e.s, a.now)
    requires a.frame.kind == Kind.Open && Accept(e.s.ids, a.frame.id).Ok?
    requires DecodeOpen(a.frame.payload) == Ok(p) && p in a.registry
    requires !e.s.goawaySent && e.s.peerGoaway.None? && |e.s.streams| < e.s.limits.streams
    ensures Act(e, a).log == e.log + Lapses(e.s, a.now)
                             + [StreamOpened(Handle(e.s.connection, a.registry[p], a.frame.id), p)]
    ensures !Act(e, a).s.closed && Act(e, a).s.outbound == e.s.outbound
  {
    hide AllPingFailures, Act, Enabled, DecodeOpen, Accept, EventLimit;
    Arrived(e, a, [StreamOpened(Handle(e.s.connection, a.registry[p], a.frame.id), p)]);
  }

  /** Why an OPEN with the right number is turned down, if it is. */
  function Refusal(s: State, f: Frame, registry: map<Protocol, Owner>): Option<ErrorCode> {
    if s.goawaySent || s.peerGoaway.Some? then Some(RefusedStream)
    else if |s.streams| >= s.limits.streams then Some(ErrorCode.ResourceLimit)
    else if DecodeOpen(f.payload).Err? then Some(ProtocolError)
    else if DecodeOpen(f.payload).value !in registry then Some(ErrorCode.UnsupportedProtocol)
    else None
  }

  /** A turned down OPEN uses up its number, opens nothing and is answered with its reason. */
  lemma RefusalNamesItsReason(e: Endpoint, a: Action)
    requires a.Receiving? && Enabled(e, a) && Receptive(e.s, a.now) && a.admit
    requires a.frame.kind == Kind.Open && Accept(e.s.ids, a.frame.id).Ok? && Refusal(e.s, a.frame, a.registry).Some?
    ensures var f := Act(e, a);
            && f.log == e.log + Lapses(e.s, a.now) && !f.s.closed && f.s.streams == e.s.streams
            && f.s.ids == Accept(e.s.ids, a.frame.id).value
            && f.s.outbound == e.s.outbound + [ErrorFrame(a.frame.id, Refusal(e.s, a.frame, a.registry).value)]
  {
    hide AllPingFailures, Act, Enabled, DecodeOpen, Accept, EventLimit, EncodeError;
    Arrived(e, a, []);
    assert e.log + Lapses(e.s, a.now) + [] == e.log + Lapses(e.s, a.now);
  }

  /** What a faulty DATA or END costs its stream, and no other: the two codes for it, if any. */
  function Fault(s: State, f: Frame): Option<(FailureCode, ErrorCode)> {
    if StateFault(s, f) then Some((FailureCode.StreamState, StreamStateError))
    else if f.id in s.streams && Overflow(s, f) then Some((FailureCode.ResourceLimit, ErrorCode.ResourceLimit))
    else None
  }

  lemma FaultEndsItsStream(e: Endpoint, a: Action)
    requires a.Receiving? && Enabled(e, a) && Receptive(e.s, a.now) && a.admit && Fault(e.s, a.frame).Some?
    requires a.frame.id != 0 && e.s.ids.WasCreated(a.frame.id)
    ensures var f, id, fault := Act(e, a), a.frame.id, Fault(e.s, a.frame).value;
            && f.log == e.log + Lapses(e.s, a.now)
                        + [StreamClosed(e.s.streams[id].handle, Failed(Failure(Local, fault.0)))]
            && !f.s.closed && f.s.streams == e.s.streams - {id}
            && f.s.outbound == Surviving(e.s.outbound, id) + [ErrorFrame(id, fault.1)]
  {
    hide AllPingFailures, Act, Enabled, EventLimit, EncodeError, Surviving, Buffered;
    TickBuffers(e.s, a.now, a.frame.id);
    Arrived(e, a, [StreamClosed(e.s.streams[a.frame.id].handle, Failed(Failure(Local, Fault(e.s, a.frame).value.0)))]);
  }

  /** Every PING is echoed with its own token as long as there is room for the answer. */
  lemma PingIsEchoed(e: Endpoint, a: Action)
    requires a.Receiving? && Enabled(e, a) && Receptive(e.s, a.now) && a.admit
    requires a.frame.kind == Ping && a.frame.id == 0 && DecodePing(a.frame.payload).Ok?
    ensures Act(e, a).log == e.log + Lapses(e.s, a.now) && !Act(e, a).s.closed
    ensures Act(e, a).s.outbound == e.s.outbound + [Frame(Pong, 0, EncodePing(DecodePing(a.frame.payload).value))]
  {
    hide AllPingFailures, Act, Enabled, DecodePing, EncodePing, EventLimit;
    Arrived(e, a, []);
    assert e.log + Lapses(e.s, a.now) + [] == e.log + Lapses(e.s, a.now);
  }

  /** PONG settles its pending probe, if not yet due, with the time since it was started. */
  lemma PongSettles(e: Endpoint, a: Action, token: Token)
    requires a.Receiving? && Enabled(e, a) && Receptive(e.s, a.now) && Timely(e)
    requires a.frame.kind == Pong && a.frame.id == 0 && DecodePing(a.frame.payload) == Ok(token)
    requires token in e.s.pings && e.s.pings[token].1 > a.now
    ensures Act(e, a).log == e.log + Lapses(e.s, a.now) + [PingFinished(token, Ok(a.now - e.s.pings[token].0))]
    ensures token !in Act(e, a).s.pings && !Act(e, a).s.closed
  {
    hide AllPingFailures, Act, DecodePing, EncodePing, EventLimit;
    Arrived(e, a, [PingFinished(token, Ok(a.now - e.s.pings[token].0))]);
  }

  /** Probes expire at their deadlines, all of them and no others. */
  lemma DeadlinesAreKept(e: Endpoint, now: Instant)
    requires e.clock <= now
    ensures var f := Act(e, Ticking(now));
            && f.log == e.log + Lapses(e.s, now)
            && (forall token :: token in f.s.pings <==> token in e.s.pings && e.s.pings[token].1 > now)
            && f.s.streams == e.s.streams && f.s.closed == e.s.closed
  {
    hide AllPingFailures;
    TickRoom(e.s, now);
  }

  /** Frames of a stream already closed are dropped without a trace. */
  lemma LateFramesAreDropped(e: Endpoint, a: Action)
    requires a.Receiving? && Enabled(e, a) && Receptive(e.s, a.now)
    requires a.frame.kind != Kind.Open && a.frame.id != 0
    requires e.s.ids.WasCreated(a.frame.id) && a.frame.id !in e.s.streams
    ensures Act(e, a).log == e.log + Lapses(e.s, a.now) && !Act(e, a).s.closed
    ensures Act(e, a).s.streams == e.s.streams && Act(e, a).s.outbound == e.s.outbound
  {
    hide AllPingFailures, Act, Enabled, EventLimit;
    Arrived(e, a, []);
    assert e.log + Lapses(e.s, a.now) + [] == e.log + Lapses(e.s, a.now);
  }

  // ---------------------------------------------------------------- bounds and violations

  lemma TerminatedOne(s: State, id: u32, outcome: Outcome)
    requires id in s.streams
    ensures var t := Terminate(s, id, outcome);
            t == s.(streams := s.streams - {id}, outbound := t.outbound,
                    events := s.events + [StreamClosed(s.streams[id].handle, outcome)])
  {
    hide Surviving;
  }

  /** Ending streams one after another takes exactly those out of the table, each with one report. */
  lemma {:induction false} TerminatedAll(s: State, ids: seq<u32>, outcome: Outcome, id: u32)
    requires forall i :: 0 <= i < |ids| ==> ids[i] in s.streams
    requires forall i, j :: 0 <= i < j < |ids| ==> ids[i] != ids[j]
    ensures var t := TerminateAll(s, ids, outcome);
            && t.streams == s.streams - (set i | 0 <= i < |ids| :: ids[i])
            && s.events <= t.events && t.closed == s.closed && t.goawaySent == s.goawaySent
            && t.peerGoaway == s.peerGoaway && t.drainFailure == s.drainFailure
            && (id in ids ==> StreamClosed(s.streams[id].handle, outcome) in t.events[|s.events|..])
    decreases |ids|
  {
    hide Terminate;
    if ids != [] {
      var u, rest := Terminate(s, ids[0], outcome), ids[1..];
      TerminatedOne(s, ids[0], outcome);
      assert forall i :: 0 <= i < |rest| ==> rest[i] == ids[i + 1];
      TerminatedAll(u, rest, outcome, id);
      assert (set i | 0 <= i < |ids| :: ids[i]) == {ids[0]} + set i | 0 <= i < |rest| :: rest[i];
      if id in ids {
        ReportedLater(s, u, TerminateAll(u, rest, outcome), StreamClosed(s.streams[id].handle, outcome));
      }
    }
  }

  lemma ReportedLater(s: State, u: State, t: State, event: Event)
    requires s.events <= u.events <= t.events && |u.events| == |s.events| + 1
    requires u.events[|s.events|] == event || event in t.events[|u.events|..]
    ensures event in t.events[|s.events|..]
  {
    if u.events[|s.events|] == event {
      assert t.events[|s.events|..][0] == event;
    } else {
      var j :| 0 <= j < |t.events[|u.events|..]| && t.events[|u.events|..][j] == event;
      assert t.events[|s.events|..][j + 1] == event;
    }
  }

  /** What a peer's GOAWAY makes the reason of a later closure without one. */
  function DrainFailure(s: State, code: ErrorCode): Option<Failure> {
    if code == NoError then s.drainFailure else Some(Failure(Peer, FailureOf(code)))
  }

  lemma BoundTaken(s: State, payload: seq<byte>, admit: bool, id: u32)
    requires !s.closed && (admit || s.goawaySent)
    requires DecodeGoAway(payload).Ok? && GoawayAcceptable(s, DecodeGoAway(payload).value.0)
    ensures var last, r := DecodeGoAway(payload).value.0, ReceiveGoaway(s, payload, admit);
            && r.result.Ok? && !r.state.closed && r.state.goawaySent && r.state.peerGoaway == Some(last)
            && r.state.drainFailure == DrainFailure(s, DecodeGoAway(payload).value.1.code)
            && r.state.streams == s.streams - RefusedBy(s, last) && s.events <= r.state.events
            && (id in RefusedBy(s, last) ==>
                  StreamClosed(s.streams[id].handle, Failed(Failure(Peer, Refused))) in r.state.events[|s.events|..])
  {
    hide DecodeGoAway, TerminateAll, GoAwayPayload, GoawayAcceptable, IdsInOrder;
    var last, code := DecodeGoAway(payload).value.0, DecodeGoAway(payload).value.1.code;
    var noted := s.(peerGoaway := Some(last),
                    drainFailure := if code != NoError then Some(Failure(Peer, FailureOf(code))) else s.drainFailure);
    var refused := RefusedBy(s, last);
    var ids := IdsInOrder(refused);
    assert forall i :: 0 <= i < |ids| ==> ids[i] in refused;
    TerminatedAll(noted, ids, Failed(Failure(Peer, Refused)), id);
    assert (set i | 0 <= i < |ids| :: ids[i]) == refused by {
      assert forall x :: x in refused ==> x in ids;
    }
  }

  /** An acceptable bound ends every local stream above it as refused, and no other, and makes the session drain. */
  lemma BoundIsObeyed(e: Endpoint, a: Action, id: u32)
    requires a.Receiving? && Enabled(e, a) && Receptive(e.s, a.now) && (a.admit || e.s.goawaySent)
    requires a.frame.kind == GoAway && a.frame.id == 0 && DecodeGoAway(a.frame.payload).Ok?
    requires GoawayAcceptable(e.s, DecodeGoAway(a.frame.payload).value.0)
    ensures var last, f := DecodeGoAway(a.frame.payload).value.0, Act(e, a);
            && !f.s.closed && f.s.goawaySent && f.s.peerGoaway == Some(last)
            && f.s.drainFailure == DrainFailure(e.s, DecodeGoAway(a.frame.payload).value.1.code)
            && f.s.streams == e.s.streams - RefusedBy(e.s, last)
            && (id in RefusedBy(e.s, last) ==>
                  StreamClosed(e.s.streams[id].handle, Failed(Failure(Peer, Refused))) in f.log[|e.log|..])
  {
    hide AllPingFailures, Act, Enabled, DecodeGoAway, EventLimit, ReceiveGoaway, GoawayAcceptable;
    var s := Tick(e.s, a.now);
    var last := DecodeGoAway(a.frame.payload).value.0;
    SameBound(e.s, s, last);
    BoundTaken(s, a.frame.payload, a.admit, id);
    var news := ReceiveGoaway(s, a.frame.payload, a.admit).state.events[|s.events|..];
    Arrived(e, a, news);
    if id in RefusedBy(s, last) {
      var j :| 0 <= j < |news| && news[j] == StreamClosed(e.s.streams[id].handle, Failed(Failure(Peer, Refused)));
      assert Act(e, a).log[|e.log| + |Lapses(e.s, a.now)| + j] == news[j];
    }
  }

  lemma SameBound(s: State, t: State, last: u32)
    requires t.ids == s.ids && t.peerGoaway == s.peerGoaway
    ensures GoawayAcceptable(s, last) == GoawayAcceptable(t, last)
  {
  }

  /** Frames no honest peer sends: malformed control frames, wrong numbers, kinds out of place. */
  predicate Violates(s: State, f: Frame) {
    if f.kind == GoAway && f.id == 0 then
      DecodeGoAway(f.payload).Err? || !GoawayAcceptable(s, DecodeGoAway(f.payload).value.0)
    else if (f.kind == Ping || f.kind == Pong) && f.id == 0 then DecodePing(f.payload).Err?
    else if f.kind == Kind.Error && f.id == 0 then DecodeError(f.payload).Err?
    else if f.kind == Kind.Open then Accept(s.ids, f.id).Err?
    else if f.id == 0 || !s.ids.WasCreated(f.id) then true
    else f.id in s.streams
         && (if f.kind == Kind.Cancel || f.kind == Kind.Error then DecodeError(f.payload).Err?
             else f.kind != Kind.End && f.kind != Kind.Data)
  }

  lemma {:induction false} TerminatedStaysOpen(s: State, ids: seq<u32>, outcome: Outcome)
    ensures var t := TerminateAll(s, ids, outcome); t.closed == s.closed && |s.events| <= |t.events|
    decreases |ids|
  {
    hide Surviving;
    if ids != [] {
      TerminatedStaysOpen(Terminate(s, ids[0], outcome), ids[1..], outcome);
    }
  }

  lemma GoawayError(s: State, payload: seq<byte>, admit: bool)
    requires !s.closed
    ensures var r := ReceiveGoaway(s, payload, admit).result;
            (r.Err? && r.error != Capacity) <==>
              DecodeGoAway(payload).Err? || !GoawayAcceptable(s, DecodeGoAway(payload).value.0)
  {
    hide DecodeGoAway, GoawayAcceptable, TerminateAll, GoAwayPayload, IdsInOrder;
    if DecodeGoAway(payload).Ok? {
      var last, code := DecodeGoAway(payload).value.0, DecodeGoAway(payload).value.1.code;
      var noted := s.(peerGoaway := Some(last),
                      drainFailure := if code != NoError then Some(Failure(Peer, FailureOf(code))) else s.drainFailure);
      TerminatedStaysOpen(noted, IdsInOrder(RefusedBy(s, last)), Failed(Failure(Peer, Refused)));
    }
  }

  /** Dispatch fails for another reason than capacity exactly on a violation. */
  lemma ViolationIsAnError(s: State, f: Frame, registry: map<Protocol, Owner>, admit: bool)
    requires !s.closed && s.now.Some? && forall t :: t in s.pings ==> s.pings[t].0 <= s.now.value
    ensures var r := Dispatch(s, f, registry, admit).result;
            (r.Err? && r.error != Capacity) <==> Violates(s, f)
  {
    hide ReceiveGoaway, DecodeGoAway, DecodePing, DecodeError, DecodeOpen, EncodeError, EncodePing, Terminate, Close,
      GoawayAcceptable, Buffered;
    GoawayError(s, f.payload, admit);
  }

  lemma GoawayStaysOpen(s: State, payload: seq<byte>, admit: bool)
    ensures var t := ReceiveGoaway(s, payload, admit).state; t.closed == s.closed && |s.events| <= |t.events|
  {
    hide DecodeGoAway, GoawayAcceptable, TerminateAll, GoAwayPayload, IdsInOrder;
    if DecodeGoAway(payload).Ok? {
      var last, code := DecodeGoAway(payload).value.0, DecodeGoAway(payload).value.1.code;
      var noted := s.(peerGoaway := Some(last),
                      drainFailure := if code != NoError then Some(Failure(Peer, FailureOf(code))) else s.drainFailure);
      TerminatedStaysOpen(noted, IdsInOrder(RefusedBy(s, last)), Failed(Failure(Peer, Refused)));
    }
  }

  lemma TerminateStaysOpen(s: State, id: u32, outcome: Outcome)
    ensures var t := Terminate(s, id, outcome); t.closed == s.closed && |s.events| <= |t.events|
  {
    hide Surviving;
  }

  lemma StreamFrameStaysOpen(s: State, f: Frame, admit: bool)
    requires f.id in s.streams
    ensures var t := ReceiveTermination(s, f).state; t.closed == s.closed && |s.events| <= |t.events|
    ensures var t := ReceiveEnd(s, f, admit).state; t.closed == s.closed && |s.events| <= |t.events|
    ensures var t := ReceiveData(s, f, admit).state; t.closed == s.closed && |s.events| <= |t.events|
  {
    hide DecodeError, EncodeError, Terminate, Buffered, PeerOutcome;
    forall outcome: Outcome
      ensures var t := Terminate(s, f.id, outcome); t.closed == s.closed && |s.events| <= |t.events|
    {
      TerminateStaysOpen(s, f.id, outcome);
    }
  }

  lemma PingStaysOpen(s: State, kind: Kind, payload: seq<byte>, admit: bool)
    ensures var t := ReceivePing(s, kind, payload, admit).state; t.closed == s.closed && |s.events| <= |t.events|
  {
    hide DecodePing, EncodePing;
  }

  lemma AddStaysOpen(s: State, h: Handle, p: Protocol)
    ensures var t := AddStream(s, h, p); t.closed == s.closed && |s.events| <= |t.events|
  {
    hide Ids.IsLocal;
  }

  lemma OpenStaysOpen(s: State, f: Frame, registry: map<Protocol, Owner>, admit: bool)
    ensures var t := ReceiveOpen(s, f, registry, admit).state; t.closed == s.closed && |s.events| <= |t.events|
  {
    hide EncodeError, DecodeOpen, Accept, AddStream;
    if Accept(s.ids, f.id).Ok? && DecodeOpen(f.payload).Ok? && DecodeOpen(f.payload).value in registry {
      var p := DecodeOpen(f.payload).value;
      AddStaysOpen(s.(ids := Accept(s.ids, f.id).value), Handle(s.connection, registry[p], f.id), p);
    }
  }

  /** Dispatch itself closes a session only on the peer's connection ERROR. */
  lemma DispatchStaysOpen(s: State, f: Frame, registry: map<Protocol, Owner>, admit: bool)
    requires !s.closed
    ensures var r := Dispatch(s, f, registry, admit);
            && |s.events| <= |r.state.events|
            && (r.state.closed ==>
                  && r.result.Ok? && f.kind == Kind.Error && f.id == 0 && DecodeError(f.payload).Ok?
                  && r.state ==
                     Close(s, Some(Failure(Peer, FailureOf(DecodeError(f.payload).value.code))), None, false))
  {
    hide ReceiveGoaway, ReceivePing, ReceiveOpen, ReceiveTermination, ReceiveEnd, ReceiveData, DecodeError, Close;
    GoawayStaysOpen(s, f.payload, admit);
    PingStaysOpen(s, f.kind, f.payload, admit);
    OpenStaysOpen(s, f, registry, admit);
    if f.id in s.streams {
      StreamFrameStaysOpen(s, f, admit);
    }
    if DecodeError(f.payload).Ok? {
      ClosedWith(s, Failure(Peer, FailureOf(DecodeError(f.payload).value.code)), None, false);
    }
  }

  lemma ClosedWith(s: State, failure: Failure, response: Option<ErrorCode>, admit: bool)
    requires !s.closed
    ensures var t := Close(s, Some(failure), response, admit);
            && t.closed && |t.events| > |s.events| && t.events[|t.events| - 1] == ConnectionClosed(Some(failure))
            && t.outbound == CloseOutput(response, admit)
  {
    hide AllPingFailures, AllStreamFailures, CloseOutput;
  }

  ghost predicate EndsWith(log: seq<Event>, event: Event) {
    log != [] && log[|log| - 1] == event
  }

  lemma TrackedEnd(e: Endpoint, t: State)
    requires |e.s.events| < |t.events|
    ensures EndsWith(Track(e, t).log, t.events[|t.events| - 1])
  {
  }

  lemma ViolatesLater(s: State, now: Instant, f: Frame)
    ensures Violates(Tick(s, now), f) == Violates(s, f)
  {
    hide DecodeGoAway, DecodePing, DecodeError, Accept, AllPingFailures;
  }

  /** How reception ends: in a violation exactly on one, in another closure, or in none. */
  lemma ReceiveVerdict(s: State, a: Action)
    requires a.Receiving? && Receptive(s, a.now) && forall t :: t in s.pings ==> s.pings[t].0 <= a.now
    ensures var t := Receive(s, a.frame, a.registry, a.now, a.admit, a.admitError).state;
            && (Violates(s, a.frame) ==> t.closed && (a.admitError ==> t.outbound == [ErrorFrame(0, ProtocolError)]))
            && (t.closed ==>
                  && |t.events| > |s.events| && t.events[|t.events| - 1].ConnectionClosed?
                  && (t.events[|t.events| - 1].failure == Some(Failure(Local, ProtocolViolation)) <==>
                        Violates(s, a.frame)))
  {
    hide Violates, Dispatch, Close, AllPingFailures, EventLimit, EncodeError;
    var t := Tick(s, a.now);
    TickRoom(s, a.now);
    ViolatesLater(s, a.now, a.frame);
    ViolationIsAnError(t, a.frame, a.registry, a.admit);
    DispatchStaysOpen(t, a.frame, a.registry, a.admit);
    var r := Dispatch(t, a.frame, a.registry, a.admit);
    if r.result.Err? {
      ClosedWith(r.state, FailureFor(r.result.error), Some(ResponseFor(r.result.error)), a.admitError);
    } else if r.state.closed {
      ClosedWith(t, Failure(Peer, FailureOf(DecodeError(a.frame.payload).value.code)), None, false);
    }
  }

  /** A session closes for a violation exactly when a frame is one, and says so to its consumers and its peer. */
  lemma ViolationsClose(e: Endpoint, a: Action)
    requires a.Receiving? && Enabled(e, a) && Receptive(e.s, a.now) && Timely(e)
    ensures var f := Act(e, a);
            && (Violates(e.s, a.frame) ==>
                  f.s.closed && EndsWith(f.log, ConnectionClosed(Some(Failure(Local, ProtocolViolation)))))
            && (Violates(e.s, a.frame) && a.admitError ==> f.s.outbound == [ErrorFrame(0, ProtocolError)])
            && (f.s.closed && EndsWith(f.log, ConnectionClosed(Some(Failure(Local, ProtocolViolation)))) ==>
                  Violates(e.s, a.frame))
  {
    hide Violates, Receive, Receptive, EncodeError;
    ReceiveVerdict(e.s, a);
    if Act(e, a).s.closed {
      TrackedEnd(e.(clock := a.now), Act(e, a).s);
    }
  }

  // ---------------------------------------------------------------- calls

  /** Nobody acts on a stream for somebody else, or on another connection's. */
  lemma ForeignersAreRefused(e: Endpoint, a: Action)
    requires a.Sending? || a.Ending? || a.Cancelling?
    requires a.stream.owner != a.owner || a.stream.connection != e.s.connection
    ensures Act(e, a) == e
  {
    hide Terminate, Close, EncodeError;
    assert Act(e, a).log == e.log;
  }

  lemma UnknownStreamsAreRefused(e: Endpoint, a: Action)
    requires (a.Sending? || a.Ending? || a.Cancelling?) && a.stream.id !in e.s.streams
    ensures Act(e, a) == e
  {
    hide Terminate, Close, EncodeError;
    assert Act(e, a).log == e.log;
  }

  /** Whoever changes anything with a handle the session gave out is the consumer it was given to. */
  lemma OnlyOwnersAct(life: seq<History>, k: nat, a: Action, i: nat)
    requires Life(life) && k < |life| && (a.Sending? || a.Ending? || a.Cancelling?) && Act(life[k].e, a) != life[k].e
    requires i < |life[k].e.log| && life[k].e.log[i].StreamOpened? && life[k].e.log[i].stream == a.stream
    ensures var e := life[k].e;
            && a.owner == e.log[i].stream.owner
            && a.stream.id in e.s.streams && e.s.streams[a.stream.id].handle == a.stream
  {
    hide Life, Act, Conclusion, Backlog, Owed, PhaseOf, Story;
    var e, id := life[k].e, a.stream.id;
    if a.owner != a.stream.owner {
      ForeignersAreRefused(e, a);
    }
    if id !in e.s.streams {
      UnknownStreamsAreRefused(e, a);
    }
    LifeKept(life, k);
    FitsOwn(e, id);
    PhaseTells(e.log, id);
    assert About(e.log[i], id);
  }

  /** An owner's bytes for a stream still open on this side are accepted and queued whole. */
  lemma BytesAreQueued(e: Endpoint, a: Action)
    requires a.Sending? && a.admit && !e.s.closed && a.stream.owner == a.owner && a.stream.connection == e.s.connection
    requires a.stream.id in e.s.streams && e.s.streams[a.stream.id].localOpen && 1 <= |a.bytes| <= MAX_PAYLOAD
    ensures var f, id := Act(e, a), a.stream.id;
            && f.SentBytes(id) == e.SentBytes(id) + a.bytes && f.log == e.log
            && f.s == e.s.(outbound := e.s.outbound + [Frame(Kind.Data, id, a.bytes)])
  {
  }

  /** An owner's END closes that side only. */
  lemma EndIsQueued(e: Endpoint, a: Action)
    requires a.Ending? && a.admit && !e.s.closed && a.stream.owner == a.owner && a.stream.connection == e.s.connection
    requires a.stream.id in e.s.streams && e.s.streams[a.stream.id].localOpen
    ensures var f, id := Act(e, a), a.stream.id;
            && f.log == e.log && f.s.outbound == e.s.outbound + [Frame(Kind.End, id, [])]
            && f.s.streams == e.s.streams[id := e.s.streams[id].(localOpen := false)]
  {
  }

  /** An owner's cancellation ends the stream at once, drops its queued production and tells the peer why. */
  lemma CancelTakesEffect(e: Endpoint, a: Action)
    requires a.Cancelling? && a.admit && !e.s.closed && a.stream.owner == a.owner
             && a.stream.connection == e.s.connection
    requires a.stream.id in e.s.streams
    ensures var f, id := Act(e, a), a.stream.id;
            && f.log == e.log + [StreamClosed(e.s.streams[id].handle, CancelledBy(Local, a.reason))]
            && f.s.streams == e.s.streams - {id} && !f.s.closed
            && f.s.outbound == Surviving(e.s.outbound, id) + [Frame(Kind.Cancel, id, EncodeError(CancelCode(a.reason)))]
  {
    hide Surviving, EncodeError;
  }

  /** A consumer's stream gets the next number, its own handle, and an OPEN that names the selected protocol. */
  lemma StreamIsOpened(e: Endpoint, a: Action)
    requires a.Opening? && a.admit && !e.s.closed && !e.s.goawaySent && e.s.peerGoaway.None?
    requires a.selection.Some? && ValidProtocol(a.selection.value) && Allocate(e.s.ids).Ok?
    requires |e.s.events| < EventLimit(e.s.limits) && |e.s.streams| < e.s.limits.streams
    ensures var f, id, p := Act(e, a), Allocate(e.s.ids).value.1, a.selection.value;
            && f.log == e.log + [StreamOpened(Handle(e.s.connection, a.owner, id), p)]
            && f.s.outbound == e.s.outbound + [Frame(Kind.Open, id, EncodeOpen(p))]
            && DecodeOpen(EncodeOpen(p)) == Ok(p)
            && id in f.s.streams
            && f.s.streams[id] == StreamEntry(Handle(e.s.connection, a.owner, id), true, true, false)
  {
    hide EventLimit, EncodeOpen, ValidProtocol, DecodeOpen;
    OpenExact(EncodeOpen(a.selection.value), a.selection.value);
  }

  /** A drained session has said so exactly once. */
  lemma DrainIsAnnounced(e: Endpoint, a: Action)
    requires a.DrainingFor? && a.admit && !e.s.closed
    ensures var f := Act(e, a);
            && f.s.goawaySent && f.log == e.log
            && var goaway := Frame(GoAway, 0, GoAwayPayload(e.s.acceptedRemote, ShutdownCode(a.shutdown)));
               f.s.outbound == if e.s.goawaySent then e.s.outbound else e.s.outbound + [goaway]
  {
    hide GoAwayPayload;
  }

  /** A drained session, its GOAWAY out, its queue empty and every stream it ever opened closed, is ready to close. */
  lemma DrainedIsReady(life: seq<History>, k: nat)
    requires Life(life) && k < |life|
    requires var e := life[k].e; !e.s.closed && e.s.goawayWritten && e.s.outbound == []
    requires forall id: u32 :: OpenedBy(life[k].e.log, |life[k].e.log|, id) ==> ClosedIn(life[k].e.log, id)
    ensures ReadyToClose(life[k].e.s)
  {
    hide Life, OpenedBy, ClosedIn, Conclusion, Backlog, Owed, PhaseOf, Story;
    var e := life[k].e;
    LifeKept(life, k);
    forall id | id in e.s.streams
      ensures false
    {
      FitsOwn(e, id);
      PhaseTells(e.log, id);
      StreamsLiveInOrder(life, k, id);
    }
    assert e.s.streams == map[];
  }

  /** Closing an open session is reported with its reason, or with the reason the peer drained for. */
  lemma ClosureNamesItsReason(e: Endpoint, a: Action)
    requires a.Closing? && Enabled(e, a) && !e.s.closed
    ensures var f := Act(e, a);
            && f.s.closed && f.s.streams == map[] && f.s.pings == map[]
            && EndsWith(f.log, ConnectionClosed(if a.failure.Some? then a.failure else e.s.drainFailure))
            && f.s.outbound == if a.response.Some? && a.response.value != NoError && a.admit
                               then [ErrorFrame(0, a.response.value)] else []
  {
    hide AllPingFailures, AllStreamFailures, EncodeError;
    var t := Close(e.s, a.failure, a.response, a.admit);
    assert t.events[|t.events| - 1] == ConnectionClosed(CloseCause(e.s, a.failure));
    TrackedEnd(e, t);
  }

  /** A cancellation reaches the peer's consumer as a cancellation by the peer for the same reason. */
  lemma CancellationCrosses(reason: CancelReason)
    ensures var payload := EncodeError(CancelCode(reason));
            && DecodeError(payload).Ok?
            && PeerOutcome(Kind.Cancel, DecodeError(payload).value.code) == CancelledBy(Peer, reason)
  {
    hide DecodeError;
  }
}
