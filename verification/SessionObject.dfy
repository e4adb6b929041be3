/** The session as its owner holds it: fields updated in place, each method proved against the model. */
module SessionObject {
  import opened Bytes
  import opened Codec
  import opened StreamNumbering
  import opened SessionTypes
  import opened Lines
  import opened Scheduler
  import opened SessionModel

  /** Visiting an ordered map: the part already seen followed by the part still to come. */
  ghost predicate Visiting(all: set<nat>, done: seq<nat>, rest: set<nat>) {
    done + Ascending(rest) == Ascending(all)
  }

  lemma VisitNext(all: set<nat>, done: seq<nat>, rest: set<nat>, x: nat)
    requires Visiting(all, done, rest) && x in rest && forall y :: y in rest ==> x <= y
    ensures Visiting(all, done + [x], rest - {x})
  {
    assert x == Least(rest);
    assert done + [x] + Ascending(rest - {x}) == done + Ascending(rest);
  }

  lemma VisitStart(all: set<nat>)
    ensures Visiting(all, [], all)
  {
    assert [] + Ascending(all) == Ascending(all);
  }

  lemma VisitDone(all: set<nat>, done: seq<nat>)
    requires Visiting(all, done, {})
    ensures done == Ascending(all)
  {
    assert done + [] == done;
  }

  lemma OneMoreFailure(all: map<u32, StreamEntry>, done: seq<u32>, id: u32, f: Failure)
    requires id in all && forall i :: 0 <= i < |done| ==> done[i] in all
    ensures forall i :: 0 <= i < |done + [id]| ==> (done + [id])[i] in all
    ensures StreamFailures(all, done + [id], f)
            == StreamFailures(all, done, f) + [StreamClosed(all[id].handle, Failed(f))]
  {
  }

  /** The keys of an ordered set, smallest first. */
  method InOrder(ids: set<u32>) returns (r: seq<u32>)
    ensures r == IdsInOrder(ids)
  {
    r := [];
    var rest := ids;
    VisitStart(ids);
    while rest != {}
      invariant Visiting(ids, r, rest) && rest <= ids
      decreases |rest|
    {
      ghost var least := Least(rest);
      var id: u32 :| id in rest && forall j :: j in rest ==> id <= j;
      VisitNext(ids, r, rest, id);
      r := r + [id];
      rest := rest - {id};
    }
    assert r + [] == r;
  }

  method Retained(queue: seq<Frame>, id: u32) returns (kept: seq<Frame>)
    ensures kept == Surviving(queue, id)
  {
    kept := [];
    for i := 0 to |queue|
      invariant kept == Surviving(queue[..i], id)
    {
      var f := queue[i];
      assert queue[..i + 1] == queue[..i] + [f];
      SurvivingConcat(queue[..i], [f], id);
      SurvivingOne(f, id);
      if f.id != id || f.kind == Kind.Open {
        kept := kept + [f];
      }
    }
    assert queue[..|queue|] == queue;
  }

  lemma SurvivingOne(f: Frame, id: u32)
    ensures Surviving([f], id) == if f.id != id || f.kind == Kind.Open then [f] else []
  {
    assert [f][1..] == [];
  }

  method BufferedBytes(events: seq<Event>, id: u32) returns (total: nat)
    ensures total == Buffered(events, id)
  {
    total := 0;
    for i := 0 to |events|
      invariant total + Buffered(events[i..], id) == Buffered(events, id)
    {
      assert events[i..][1..] == events[i + 1..];
      var e := events[i];
      if e.DataReceived? && e.stream.id == id {
        total := total + |e.bytes|;
      }
    }
  }

  method OldestVisible(events: seq<Event>, connection: nat, owner: Owner) returns (r: Option<nat>)
    ensures r == FirstVisible(events, connection, owner)
  {
    for i := 0 to |events|
      invariant forall j :: 0 <= j < i ==> !VisibleTo(events[j], connection, owner)
    {
      if VisibleTo(events[i], connection, owner) {
        return Some(i);
      }
    }
    return None;
  }

  class Session {
    const connection: nat
    const limits: Limits
    const ids: StreamIds
    var lastOutput: Option<u32>
    var acceptedRemote: u32
    var peerGoaway: Option<u32>
    var drainFailure: Option<Failure>
    var goawaySent: bool
    var goawayWritten: bool
    var pings: map<Token, (Instant, Instant)>
    var now: Option<Instant>
    var closed: bool
    var streams: map<u32, StreamEntry>
    var events: seq<Event>
    var outbound: seq<Frame>

    ghost predicate Valid()
      reads this, ids
    {
      ids.Valid()
    }

    ghost function View(): State
      reads this, ids
    {
      State(connection, limits, lastOutput, acceptedRemote, peerGoaway, drainFailure, goawaySent, goawayWritten,
            pings, now, closed, ids.View(), streams, events, outbound)
    }

    constructor (connection: nat, role: Role, limits: Limits)
      ensures Valid() && fresh(ids) && View() == NewSession(connection, role, limits)
    {
      this.connection, this.limits := connection, limits;
      ids := new StreamIds(role);
      lastOutput, acceptedRemote, peerGoaway, drainFailure := None, 0, None, None;
      goawaySent, goawayWritten, closed := false, false, false;
      pings, now, streams := map[], None, map[];
      events, outbound := [Authenticated], [];
    }

    method QueueFrame(f: Frame, admit: bool) returns (r: Result<(), SessionError>)
      modifies `outbound
      ensures View() == Queue(old(View()), f, admit).state && r == Queue(old(View()), f, admit).result
    {
      if !admit {
        return Err(Capacity);
      }
      outbound := outbound + [f];
      return Ok(());
    }

    method Add(h: Handle, protocol: Protocol)
      modifies `acceptedRemote, `streams, `events
      ensures View() == AddStream(old(View()), h, protocol)
    {
      var local := h.id != 0 && (h.id % 2 == 1) == ids.localOdd;
      if !local {
        acceptedRemote := h.id;
      }
      streams := streams[h.id := StreamEntry(h, true, true, false)];
      events := events + [StreamOpened(h, protocol)];
    }

    method RemoveEntry(id: u32, outcome: Outcome)
      modifies `streams, `events
      ensures View() == RemoveStream(old(View()), id, outcome)
    {
      if id in streams {
        events := events + [StreamClosed(streams[id].handle, outcome)];
        streams := streams - {id};
      }
    }

    method TerminateStream(id: u32, outcome: Outcome)
      modifies `streams, `events, `outbound
      ensures View() == Terminate(old(View()), id, outcome) && id !in streams
    {
      outbound := Retained(outbound, id);
      RemoveEntry(id, outcome);
    }

    method TerminateEach(doomed: seq<u32>, outcome: Outcome)
      modifies `streams, `events, `outbound
      ensures View() == TerminateAll(old(View()), doomed, outcome)
    {
      hide Terminate;
      for i := 0 to |doomed|
        invariant TerminateAll(View(), doomed[i..], outcome) == TerminateAll(old(View()), doomed, outcome)
      {
        assert doomed[i..][0] == doomed[i] && doomed[i..][1..] == doomed[i + 1..];
        TerminateStream(doomed[i], outcome);
      }
    }

    method CompleteStream(id: u32)
      modifies `streams, `events
      ensures View() == Complete(old(View()), id)
    {
      if id in streams && !streams[id].remoteOpen && streams[id].endWritten {
        RemoveEntry(id, Completed);
      }
    }

    method FailOne(id: u32, wire: ErrorCode, code: FailureCode, admit: bool) returns (r: Result<(), SessionError>)
      modifies `streams, `events, `outbound
      ensures View() == FailStream(old(View()), id, wire, code, admit).state
      ensures r == FailStream(old(View()), id, wire, code, admit).result
    {
      TerminateStream(id, Failed(Failure(Local, code)));
      r := QueueFrame(ErrorFrame(id, wire), admit);
    }

    /** Probes given up, in token order. */
    method FinishPings(tokens: set<Token>, f: Failure)
      requires tokens <= pings.Keys
      modifies `pings, `events
      ensures pings == old(pings) - tokens
      ensures events == old(events) + AllPingFailures(tokens, f)
    {
      var rest := tokens;
      ghost var done: seq<Token> := [];
      VisitStart(tokens);
      while rest != {}
        invariant Visiting(tokens, done, rest) && rest <= tokens
        invariant pings == old(pings) - (tokens - rest)
        invariant events == old(events) + PingFailures(done, f)
        decreases |rest|
      {
        ghost var least := Least(rest);
        var token: Token :| token in rest && forall t :: t in rest ==> token <= t;
        VisitNext(tokens, done, rest, token);
        assert PingFailures(done + [token], f) == PingFailures(done, f) + [PingFinished(token, Err(f))];
        pings := pings - {token};
        events := events + [PingFinished(token, Err(f))];
        done := done + [token];
        rest := rest - {token};
      }
      assert done == TokensInOrder(tokens);
    }

    /** Streams given up, in number order. */
    method FinishStreams(f: Failure)
      modifies `streams, `events
      ensures streams == map[]
      ensures events == old(events) + AllStreamFailures(old(streams), f)
    {
      hide Visiting, Least;
      ghost var all, done: seq<u32> := streams, [];
      VisitStart(all.Keys);
      while streams != map[]
        invariant Visiting(all.Keys, done, streams.Keys) && streams.Keys <= all.Keys
        invariant forall id :: id in streams ==> streams[id] == all[id]
        invariant forall i :: 0 <= i < |done| ==> done[i] in all
        invariant events == old(events) + StreamFailures(all, done, f)
        decreases |streams|
      {
        ghost var least := Least(streams.Keys);
        var id: u32 :| id in streams && forall j :: j in streams ==> id <= j;
        VisitNext(all.Keys, done, streams.Keys, id);
        OneMoreFailure(all, done, id, f);
        events := events + [StreamClosed(streams[id].handle, Failed(f))];
        ghost var rest := streams.Keys - {id};
        streams := streams - {id};
        assert streams.Keys == rest;
        done := done + [id];
      }
      VisitDone(all.Keys, done);
    }

    /** Everything still owed, and then the connection itself. */
    method FinishAll(cause: Option<Failure>)
      modifies `pings, `streams, `events
      ensures pings == map[] && streams == map[]
      ensures events == old(events) + AllPingFailures(old(pings).Keys, Unfinished(cause))
                        + AllStreamFailures(old(streams), Unfinished(cause)) + [ConnectionClosed(cause)]
    {
      hide AllPingFailures, AllStreamFailures;
      var unfinished := Unfinished(cause);
      FinishPings(pings.Keys, unfinished);
      assert pings == map[];
      FinishStreams(unfinished);
      events := events + [ConnectionClosed(cause)];
    }

    method CloseWith(failure: Option<Failure>, response: Option<ErrorCode>, admit: bool)
      modifies this
      ensures View() == Close(old(View()), failure, response, admit)
      ensures closed && (!old(closed) ==> streams == map[] && pings == map[])
    {
      hide AllPingFailures, AllStreamFailures, EncodeError;
      if closed {
        return;
      }
      closed := true;
      var cause := if failure.Some? then failure else drainFailure;
      outbound := [];
      FinishAll(cause);
      assert events == old(events) + Farewell(old(View()), cause);
      if response.Some? && response.value != NoError {
        var queued := QueueFrame(ErrorFrame(0, response.value), admit);
      }
    }

    method DrainFor(reason: ShutdownReason, admit: bool) returns (r: Result<(), SessionError>)
      modifies `outbound, `goawaySent
      ensures View() == Drain(old(View()), reason, admit).state && r == Drain(old(View()), reason, admit).result
    {
      if closed {
        return Err(SessionClosed);
      }
      if goawaySent {
        return Ok(());
      }
      r := QueueFrame(Frame(GoAway, 0, GoAwayPayload(acceptedRemote, ShutdownCode(reason))), admit);
      if r.Ok? {
        goawaySent := true;
      }
    }

    method IsReadyToClose() returns (r: bool)
      ensures r == ReadyToClose(View())
      ensures r <==> !closed && goawayWritten && streams == map[] && outbound == []
    {
      return !closed && goawayWritten && streams == map[] && outbound == [];
    }

    method OpenOne(owner: Owner, selection: Option<Protocol>, admit: bool, admitDrain: bool)
      returns (r: Result<Handle, SessionError>)
      requires Valid()
      modifies this, ids
      ensures Valid()
      ensures View() == OpenStream(old(View()), owner, selection, admit, admitDrain).state
      ensures r == OpenStream(old(View()), owner, selection, admit, admitDrain).result
      ensures r.Ok? ==>
                && Mine(owner, r.value) && selection.Some? && ValidProtocol(selection.value)
                && events == old(events) + [StreamOpened(r.value, selection.value)]
                && outbound == old(outbound) + [Frame(Kind.Open, r.value.id, EncodeOpen(selection.value))]
    {
      hide EncodeOpen, ValidProtocol, EventLimit, GoAwayPayload;
      if closed {
        return Err(SessionClosed);
      }
      if goawaySent || peerGoaway.Some? {
        return Err(Draining);
      }
      if selection.None? {
        return Err(NotOwner);
      }
      if !ValidProtocol(selection.value) {
        return Err(Violation);
      }
      if |events| >= EventLimit(limits) || |streams| >= limits.streams {
        return Err(Capacity);
      }
      if !admit {
        return Err(Capacity);
      }
      var given := ids.AllocateNext();
      if given.Err? {
        var drained := DrainFor(NoMoreIds, admitDrain);
        return Err(if drained.Err? then drained.error else IdViolation(given.error));
      }
      var h := Handle(connection, owner, given.value);
      Add(h, selection.value);
      outbound := outbound + [Frame(Kind.Open, h.id, EncodeOpen(selection.value))];
      return Ok(h);
    }

    /** The handle is this session's and belongs to the caller. */
    predicate Mine(owner: Owner, h: Handle) {
      h.connection == connection && h.owner == owner
    }

    method SendBytes(owner: Owner, h: Handle, bytes: seq<byte>, admit: bool) returns (r: Result<(), SessionError>)
      modifies `outbound
      ensures View() == Send(old(View()), owner, h, bytes, admit).state
              && r == Send(old(View()), owner, h, bytes, admit).result
      ensures r.Ok? <==> !closed && Mine(owner, h) && h.id in streams && streams[h.id].localOpen
                         && 1 <= |bytes| <= MAX_PAYLOAD && admit
      ensures outbound == if r.Ok? then old(outbound) + [Frame(Kind.Data, h.id, bytes)] else old(outbound)
    {
      if closed {
        return Err(SessionClosed);
      }
      if h.connection != connection {
        return Err(WrongConnection);
      }
      if h.owner != owner {
        return Err(WrongStreamOwner);
      }
      if h.id !in streams || !streams[h.id].localOpen {
        return Err(Violation);
      }
      if bytes == [] || |bytes| > MAX_PAYLOAD {
        return Err(InvalidData);
      }
      r := QueueFrame(Frame(Kind.Data, h.id, bytes), admit);
    }

    method EndOne(owner: Owner, h: Handle, admit: bool) returns (r: Result<(), SessionError>)
      modifies `outbound, `streams
      ensures View() == EndStream(old(View()), owner, h, admit).state
              && r == EndStream(old(View()), owner, h, admit).result
      ensures r.Ok? <==> !closed && Mine(owner, h) && old(h.id in streams && streams[h.id].localOpen) && admit
      ensures outbound == if r.Ok? then old(outbound) + [Frame(Kind.End, h.id, [])] else old(outbound)
      ensures r.Err? ==> streams == old(streams)
    {
      if closed {
        return Err(SessionClosed);
      }
      if h.connection != connection {
        return Err(WrongConnection);
      }
      if h.owner != owner {
        return Err(WrongStreamOwner);
      }
      if h.id !in streams || !streams[h.id].localOpen {
        return Err(Violation);
      }
      if !admit {
        return Err(Capacity);
      }
      streams := streams[h.id := streams[h.id].(localOpen := false)];
      outbound := outbound + [Frame(Kind.End, h.id, [])];
      return Ok(());
    }

    method Cancel(owner: Owner, h: Handle, reason: CancelReason, admit: bool) returns (r: Result<(), SessionError>)
      modifies this
      ensures View() == CancelStream(old(View()), owner, h, reason, admit).state
      ensures r == CancelStream(old(View()), owner, h, reason, admit).result
      ensures r.Ok? <==> old(!closed && h.id in streams) && Mine(owner, h)
      ensures r.Err? ==> View() == old(View())
      ensures r.Ok? ==> h.id !in streams && (closed <==> !admit)
    {
      hide Terminate, Close, EncodeError;
      if closed {
        return Err(SessionClosed);
      }
      if h.connection != connection {
        return Err(WrongConnection);
      }
      if h.owner != owner {
        return Err(WrongStreamOwner);
      }
      if h.id !in streams {
        return Err(Violation);
      }
      TerminateStream(h.id, CancelledBy(Local, reason));
      var queued := QueueFrame(Frame(Kind.Cancel, h.id, EncodeError(CancelCode(reason))), admit);
      if queued.Err? {
        CloseWith(Some(Failure(Local, FailureCode.ResourceLimit)), None, false);
      }
      return Ok(());
    }

    method MarkSent(kind: Kind, id: u32)
      modifies `goawayWritten, `streams, `events
      ensures View() == Sent(old(View()), kind, id)
      ensures goawayWritten == (old(goawayWritten) || kind == GoAway)
      ensures kind == Kind.End && old(id in streams && !streams[id].localOpen && !streams[id].remoteOpen) ==>
                id !in streams && events == old(events) + [StreamClosed(old(streams)[id].handle, Completed)]
    {
      if kind == GoAway {
        goawayWritten := true;
      }
      if kind == Kind.End {
        if id in streams {
          streams := streams[id := streams[id].(endWritten := !streams[id].localOpen)];
        }
        CompleteStream(id);
      }
    }

    method Probe(token: Token, timeout: nat, at: Instant, admit: bool) returns (r: Result<(), SessionError>)
      modifies `pings, `outbound
      ensures View() == SendPing(old(View()), token, timeout, at, admit).state
      ensures r == SendPing(old(View()), token, timeout, at, admit).result
      ensures r.Ok? <==> old(!closed && token !in pings && |pings| < MAX_PENDING_PINGS)
                         && 0 < timeout && at + timeout <= limits.lastInstant && admit
    {
      if closed {
        return Err(SessionClosed);
      }
      if timeout == 0 || token in pings {
        return Err(Violation);
      }
      if |pings| >= MAX_PENDING_PINGS {
        return Err(Capacity);
      }
      if at + timeout > limits.lastInstant {
        return Err(Violation);
      }
      r := QueueFrame(Frame(Ping, 0, EncodePing(token)), admit);
      if r.Ok? {
        pings := pings[token := (at, at + timeout)];
      }
    }

    method TickTo(at: Instant)
      modifies `now, `pings, `events
      ensures View() == Tick(old(View()), at)
      ensures forall token :: token in pings <==> token in old(pings) && old(pings)[token].1 > at
    {
      hide AllPingFailures;
      now := Some(at);
      var lapsed := set t | t in pings && pings[t].1 <= at;
      FinishPings(lapsed, Failure(Local, DeadlineExceeded));
    }

    method AnswerPing(kind: Kind, payload: seq<byte>, admit: bool) returns (r: Result<(), SessionError>)
      modifies `pings, `events, `outbound
      ensures View() == ReceivePing(old(View()), kind, payload, admit).state
      ensures r == ReceivePing(old(View()), kind, payload, admit).result
      ensures kind == Ping && DecodePing(payload).Ok? && admit ==>
                outbound == old(outbound) + [Frame(Pong, 0, EncodePing(DecodePing(payload).value))]
    {
      hide DecodePing, EncodePing;
      var token := DecodePing(payload);
      if token.Err? {
        return Err(Violation);
      }
      if kind == Ping {
        r := QueueFrame(Frame(Pong, 0, EncodePing(token.value)), admit);
      } else if token.value in pings {
        var started := pings[token.value].0;
        pings := pings - {token.value};
        if now.None? || now.value < started {
          return Err(Violation);
        }
        events := events + [PingFinished(token.value, Ok(now.value - started))];
        return Ok(());
      } else {
        return Ok(());
      }
    }

    method NoteBound(last: u32, code: ErrorCode)
      modifies `peerGoaway, `drainFailure
      ensures var s := old(View());
              View() == s.(peerGoaway := Some(last),
                           drainFailure := if code != NoError then Some(Failure(Peer, FailureOf(code)))
                                           else s.drainFailure)
    {
      peerGoaway := Some(last);
      if code != NoError {
        drainFailure := Some(Failure(Peer, FailureOf(code)));
      }
    }

    method IsAcceptableBound(last: u32) returns (r: bool)
      ensures r == GoawayAcceptable(View(), last)
    {
      var local := last != 0 && (last % 2 == 1) == ids.localOdd;
      return (last == 0 || local) && last <= ids.greatestLocal && (peerGoaway.None? || last <= peerGoaway.value);
    }

    method LocalAbove(last: u32) returns (above: set<u32>)
      ensures above == RefusedBy(View(), last)
    {
      above := set id | id in streams && (id != 0 && (id % 2 == 1) == ids.localOdd) && id > last;
    }

    method AcceptGoaway(payload: seq<byte>, admit: bool) returns (r: Result<(), SessionError>)
      modifies `peerGoaway, `drainFailure, `streams, `events, `outbound, `goawaySent
      ensures View() == ReceiveGoaway(old(View()), payload, admit).state
      ensures r == ReceiveGoaway(old(View()), payload, admit).result
    {
      hide DecodeGoAway, Drain, TerminateAll, IdsInOrder, GoawayAcceptable;
      var decoded := DecodeGoAway(payload);
      if decoded.Err? {
        return Err(Violation);
      }
      var last, code := decoded.value.0, decoded.value.1.code;
      var acceptable := IsAcceptableBound(last);
      if !acceptable {
        return Err(Violation);
      }
      NoteBound(last, code);
      var above := LocalAbove(last);
      var refused := InOrder(above);
      TerminateEach(refused, Failed(Failure(Peer, Refused)));
      r := DrainFor(Normal, admit);
    }

    method AcceptTermination(f: Frame) returns (r: Result<(), SessionError>)
      modifies `streams, `events, `outbound
      ensures View() == ReceiveTermination(old(View()), f).state && r == ReceiveTermination(old(View()), f).result
    {
      hide DecodeError, Terminate;
      var diagnostic := DecodeError(f.payload);
      if diagnostic.Err? {
        return Err(Violation);
      }
      TerminateStream(f.id, PeerOutcome(f.kind, diagnostic.value.code));
      return Ok(());
    }

    method AcceptEnd(f: Frame, admit: bool) returns (r: Result<(), SessionError>)
      requires f.id in streams
      modifies `streams, `events, `outbound
      ensures View() == ReceiveEnd(old(View()), f, admit).state && r == ReceiveEnd(old(View()), f, admit).result
    {
      hide FailStream;
      var entry := streams[f.id];
      if f.payload != [] || !entry.remoteOpen {
        r := FailOne(f.id, StreamStateError, FailureCode.StreamState, admit);
      } else {
        streams := streams[f.id := entry.(remoteOpen := false)];
        events := events + [RemoteEnd(entry.handle)];
        CompleteStream(f.id);
        return Ok(());
      }
    }

    method AcceptData(f: Frame, admit: bool) returns (r: Result<(), SessionError>)
      requires f.id in streams
      modifies `streams, `events, `outbound
      ensures View() == ReceiveData(old(View()), f, admit).state && r == ReceiveData(old(View()), f, admit).result
      ensures var entry := old(streams)[f.id];
              entry.remoteOpen && 1 <= |f.payload| <= MAX_PAYLOAD
              && Buffered(old(events), f.id) + |f.payload| <= limits.bufferedPerStream ==>
                r.Ok? && events == old(events) + [DataReceived(entry.handle, f.payload)] && streams == old(streams)
    {
      hide FailStream;
      var entry := streams[f.id];
      if !entry.remoteOpen || f.payload == [] || |f.payload| > MAX_PAYLOAD {
        r := FailOne(f.id, StreamStateError, FailureCode.StreamState, admit);
        return;
      }
      var queued := BufferedBytes(events, f.id);
      if queued + |f.payload| > limits.bufferedPerStream {
        r := FailOne(f.id, ErrorCode.ResourceLimit, FailureCode.ResourceLimit, admit);
        return;
      }
      events := events + [DataReceived(entry.handle, f.payload)];
      return Ok(());
    }

    /** The number is consumed before payload or registration are looked at. */
    method AcceptOpen(f: Frame, registry: map<Protocol, Owner>, admit: bool) returns (r: Result<(), SessionError>)
      requires Valid()
      modifies this, ids
      ensures Valid()
      ensures View() == ReceiveOpen(old(View()), f, registry, admit).state
      ensures r == ReceiveOpen(old(View()), f, registry, admit).result
      ensures events == old(events)
              || exists p: Protocol ::
                   && DecodeOpen(f.payload) == Ok(p) && p in registry
                   && events == old(events) + [StreamOpened(Handle(connection, registry[p], f.id), p)]
    {
      hide DecodeOpen, EncodeError, Accept, Ids.IsLocal;
      var accepted := ids.AcceptNext(f.id);
      if accepted.Err? {
        return Err(IdViolation(accepted.error));
      }
      var selection := DecodeOpen(f.payload);
      var refusal: Option<ErrorCode> := None;
      if goawaySent || peerGoaway.Some? {
        refusal := Some(RefusedStream);
      } else if |streams| >= limits.streams {
        refusal := Some(ErrorCode.ResourceLimit);
      } else if selection.Err? {
        refusal := Some(ProtocolError);
      } else if selection.value !in registry {
        refusal := Some(ErrorCode.UnsupportedProtocol);
      }
      if refusal.Some? {
        r := QueueFrame(ErrorFrame(f.id, refusal.value), admit);
      } else {
        Add(Handle(connection, registry[selection.value], f.id), selection.value);
        return Ok(());
      }
    }

    method AcceptConnectionError(payload: seq<byte>) returns (r: Result<(), SessionError>)
      modifies this
      ensures View() == ReceiveConnectionError(old(View()), payload).state
      ensures r == ReceiveConnectionError(old(View()), payload).result
    {
      hide DecodeError, Close;
      var error := DecodeError(payload);
      if error.Err? {
        return Err(Violation);
      }
      CloseWith(Some(Failure(Peer, FailureOf(error.value.code))), None, false);
      return Ok(());
    }

    method ReceiveParts(f: Frame, registry: map<Protocol, Owner>, admit: bool) returns (r: Result<(), SessionError>)
      requires Valid()
      modifies this, ids
      ensures Valid()
      ensures View() == Dispatch(old(View()), f, registry, admit).state
      ensures r == Dispatch(old(View()), f, registry, admit).result
    {
      hide ReceiveGoaway, ReceivePing, ReceiveConnectionError, ReceiveOpen, ReceiveTermination, ReceiveEnd, ReceiveData;
      assert ids.View() == View().ids && streams == View().streams;
      hide Session.View;
      if f.kind == GoAway && f.id == 0 {
        r := AcceptGoaway(f.payload, admit);
        return;
      }
      if (f.kind == Ping || f.kind == Pong) && f.id == 0 {
        r := AnswerPing(f.kind, f.payload, admit);
        return;
      }
      if f.kind == Kind.Error && f.id == 0 {
        r := AcceptConnectionError(f.payload);
        return;
      }
      if f.kind != Kind.Open && f.id != 0 {
        var local := (f.id % 2 == 1) == ids.localOdd;
        var created := f.id <= if local then ids.greatestLocal else ids.greatestRemote;
        if !created {
          return Err(Violation);
        }
        if f.id !in streams {
          return Ok(());
        }
      }
      if (f.kind == Kind.Cancel || f.kind == Kind.Error) && f.id != 0 {
        r := AcceptTermination(f);
        return;
      }
      if f.kind == Kind.End {
        if f.id == 0 || f.id !in streams {
          return Err(Violation);
        }
        r := AcceptEnd(f, admit);
        return;
      }
      if f.kind == Kind.Data {
        if f.id == 0 || f.id !in streams {
          return Err(Violation);
        }
        r := AcceptData(f, admit);
        return;
      }
      if f.kind != Kind.Open {
        return Err(Violation);
      }
      r := AcceptOpen(f, registry, admit);
    }

    method ReceiveFrame(f: Frame, registry: map<Protocol, Owner>, at: Instant, admit: bool, admitError: bool)
      returns (r: Result<(), SessionError>)
      requires Valid()
      modifies this, ids
      ensures Valid()
      ensures View() == Receive(old(View()), f, registry, at, admit, admitError).state
      ensures r == Receive(old(View()), f, registry, at, admit, admitError).result
    {
      hide Dispatch, Close, Tick;
      if closed {
        return Err(SessionClosed);
      }
      TickTo(at);
      assert limits == View().limits;
      if |events| >= EventLimit(limits) {
        CloseWith(Some(Failure(Local, FailureCode.ResourceLimit)), None, false);
        return Err(Capacity);
      }
      r := ReceiveParts(f, registry, admit);
      if r.Err? {
        CloseWith(Some(FailureFor(r.error)), Some(ResponseFor(r.error)), admitError);
      }
    }

    method TakeEvent() returns (r: Option<Event>)
      modifies `events
      ensures View() == PopEvent(old(View()))
      ensures r == if old(events) == [] then None else Some(old(events)[0])
    {
      if events == [] {
        return None;
      }
      r := Some(events[0]);
      events := events[1..];
    }

    /** One consumer's oldest event, leaving everybody else's where they are. */
    method TakeStreamEvent(owner: Owner) returns (r: Option<Event>)
      modifies `events
      ensures View() == PopStreamEvent(old(View()), owner)
      ensures match r
              case None => forall i :: 0 <= i < |old(events)| ==> !VisibleTo(old(events)[i], connection, owner)
              case Some(e) => VisibleTo(e, connection, owner)
    {
      var index := OldestVisible(events, connection, owner);
      if index.None? {
        return None;
      }
      r := Some(events[index.value]);
      events := events[..index.value] + events[index.value + 1..];
    }

    method TakeOutput() returns (r: Option<Frame>)
      modifies `outbound, `lastOutput
      ensures View() == PopOutbound(old(View())).0 && r == PopOutbound(old(View())).1
    {
      hide Choice;
      var index := SelectNext(lastOutput, outbound);
      if index.None? {
        return None;
      }
      assert index.value == Choice(lastOutput, outbound);
      r := Some(outbound[index.value]);
      lastOutput := Some(outbound[index.value].id);
      outbound := outbound[..index.value] + outbound[index.value + 1..];
    }

    /** Dropping a connection drains its queue to the end, however the rotation goes. */
    method DiscardOutput()
      modifies `outbound, `lastOutput
      ensures outbound == [] && View() == old(View()).(outbound := [], lastOutput := lastOutput)
    {
      var more := true;
      while more
        invariant View() == old(View()).(outbound := outbound, lastOutput := lastOutput)
        invariant !more ==> outbound == []
        decreases more, |outbound|
      {
        ghost var before := outbound;
        var taken := TakeOutput();
        more := taken.Some?;
        if more {
          assert |outbound| < |before|;
        }
      }
    }
  }
}
