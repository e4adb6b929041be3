/** What every run of one session promises its consumers, whatever frames the peer sends. */
module Lifecycle {
  import opened Bytes
  import opened Codec
  import opened StreamNumbering
  import opened SessionTypes
  import opened Lines
  import opened Scheduler
  import opened SessionModel
  import opened SessionRun
  import opened LifeChanges
  import opened LifeReasons

  /** `t` is `s` after the listed changes. */
  ghost predicate Path(s: State, t: State, cs: seq<Change>)
    decreases |cs|
  {
    if cs == [] then s == t
    else exists u: State :: Changes(s, u, cs[0]) && Path(u, t, cs[1..])
  }

  lemma PathOne(s: State, t: State, c: Change)
    requires Changes(s, t, c)
    ensures Path(s, t, [c])
  {
    hide Changes;
    assert Path(t, t, [c][1..]);
  }

  lemma {:induction false} PathJoin(s: State, t: State, u: State, cs: seq<Change>, ds: seq<Change>)
    requires Path(s, t, cs) && Path(t, u, ds)
    ensures Path(s, u, cs + ds)
    decreases |cs|
  {
    hide Changes;
    if cs == [] {
      assert cs + ds == ds;
    } else {
      var m: State :| Changes(s, m, cs[0]) && Path(m, t, cs[1..]);
      PathJoin(m, t, u, cs[1..], ds);
      assert (cs + ds)[0] == cs[0] && (cs + ds)[1..] == cs[1..] + ds;
    }
  }

  /** Changes an endpoint may make on its own account: written ENDs and probes already started. */
  ghost predicate Founded(e: Endpoint, cs: seq<Change>) {
    forall i :: 0 <= i < |cs| ==>
      (cs[i].Marked? ==> cs[i].id in e.written) && (cs[i].Probed? ==> cs[i].started <= e.clock)
  }

  /** Every promise about one endpoint, in one inductive statement. */
  ghost predicate Orderly(e: Endpoint) {
    Phases(e) && Conclusion(e) && Backlog(e.s) && Timely(e)
  }

  ghost function Probes(cs: seq<Change>, token: Token): nat {
    if cs == [] then 0 else (if cs[0].Probed? && cs[0].token == token then 1 else 0) + Probes(cs[1..], token)
  }

  lemma OrderlyAfter(e: Endpoint, t: State, c: Change)
    requires Orderly(e) && Changes(e.s, t, c) && Founded(e, [c])
    ensures Orderly(e.(s := t, log := e.log + News(e.s, c)))
  {
    hide Phases, Conclusion, Backlog, News, Possible, StreamsAfter;
    assert [c][0] == c;
    PhasesAfter(e, t, c);
    ConclusionAfter(e, t, c);
    BacklogAfter(e, t, c);
  }

  /** Whole paths keep the promises and settle the probe account. */
  lemma {:induction false} OrderlyPath(e: Endpoint, t: State, cs: seq<Change>, token: Token)
    requires Orderly(e) && Path(e.s, t, cs) && Founded(e, cs)
    ensures e.s.events <= t.events
    ensures Orderly(Track(e, t))
    ensures Owed(Track(e, t), token) == Owed(e, token) + Probes(cs, token)
    decreases |cs|
  {
    hide Orderly, Owed, Possible, News, StreamsAfter, PingsAfter, Numbering;
    if cs == [] {
      assert Track(e, t) == e;
    } else {
      var u: State :| Changes(e.s, u, cs[0]) && Path(u, t, cs[1..]);
      var news := News(e.s, cs[0]);
      var e1 := e.(s := u, log := e.log + news);
      assert Founded(e, [cs[0]]);
      OrderlyAfter(e, u, cs[0]);
      OwedAfter(e, u, cs[0], token);
      OrderlyPath(e1, t, cs[1..], token);
      assert e.log + news + t.events[|u.events|..] == e.log + t.events[|e.s.events|..];
      assert Track(e1, t) == Track(e, t);
    }
  }

  // ---------------------------------------------------------------- every call is a path

  lemma {:induction false} ValidThrough(s: State, t: State, cs: seq<Change>)
    requires s.ids.Valid() && Path(s, t, cs)
    ensures t.ids.Valid()
    decreases |cs|
  {
    hide Possible, News, StreamsAfter, PingsAfter;
    if cs != [] {
      var u: State :| Changes(s, u, cs[0]) && Path(u, t, cs[1..]);
      ValidThrough(u, t, cs[1..]);
    }
  }

  /** A call that touches neither streams, probes nor events. */
  lemma PathSilent(s: State, t: State)
    requires s.ids.Valid() && t.ids.Valid()
    requires t.limits == s.limits && t.lastOutput == s.lastOutput
    requires t.events == s.events && t.pings == s.pings && t.closed == s.closed
    requires SameStreams(t.streams, s.streams)
    requires forall id: u32 :: s.ids.WasCreated(id) ==> t.ids.WasCreated(id)
    requires Tidy(s, t)
    ensures Path(s, t, [Silent])
  {
    hide Tidy;
    PathOne(s, t, Silent);
  }

  lemma PathStill(s: State)
    requires s.ids.Valid()
    ensures Path(s, s, [Silent])
  {
    TidySame(s, s);
    PathSilent(s, s);
  }

  lemma PathClose(s: State, failure: Option<Failure>, response: Option<ErrorCode>, admit: bool)
    returns (cs: seq<Change>)
    requires s.ids.Valid()
    ensures Path(s, Close(s, failure, response, admit), cs)
    ensures forall i :: 0 <= i < |cs| ==> cs[i] == Shut(CloseCause(s, failure))
  {
    hide Farewell, EncodeError;
    var t := Close(s, failure, response, admit);
    if s.closed {
      cs := [];
    } else {
      assert !Has(t.outbound, GoAway) && !Has(t.outbound, Kind.Open) && |t.outbound| <= 1;
      cs := [Shut(CloseCause(s, failure))];
      PathOne(s, t, cs[0]);
    }
  }

  lemma PathTerminate(s: State, id: u32, outcome: Outcome) returns (c: Change)
    requires s.ids.Valid() && outcome != Completed
    ensures Changes(s, Terminate(s, id, outcome), c) && (c == Died(id, outcome) || c.Silent?)
  {
    hide Surviving, Tidy, Changes;
    var t := Terminate(s, id, outcome);
    TidyCut(s, t, id);
    if id in s.streams {
      c := Died(id, outcome);
      DiedHere(s, t, id, outcome);
    } else {
      c := Silent;
      SilentHere(s, t);
    }
  }

  lemma DiedHere(s: State, t: State, id: u32, outcome: Outcome)
    requires s.ids.Valid() && id in s.streams && outcome != Completed && Tidy(s, t)
    requires t == s.(streams := s.streams - {id}, outbound := t.outbound,
                     events := s.events + [StreamClosed(s.streams[id].handle, outcome)])
    ensures Changes(s, t, Died(id, outcome))
  {
    hide Tidy, EventLimit, Buffered, Numbering;
    SameNumbering(s, t, Died(id, outcome));
  }

  lemma SilentHere(s: State, t: State)
    requires s.ids.Valid() && Tidy(s, t) && t == s.(outbound := t.outbound)
    ensures Changes(s, t, Silent)
  {
    hide Tidy, EventLimit, Buffered, Numbering;
    SameNumbering(s, t, Silent);
  }

  lemma {:induction false} PathTerminateAll(s: State, ids: seq<u32>, outcome: Outcome) returns (cs: seq<Change>)
    requires s.ids.Valid() && outcome != Completed
    ensures Path(s, TerminateAll(s, ids, outcome), cs)
    ensures forall i :: 0 <= i < |cs| ==> cs[i].Silent? || (cs[i].Died? && cs[i].id in ids && cs[i].outcome == outcome)
    decreases |ids|
  {
    hide Changes, Terminate;
    if ids == [] {
      cs := [];
    } else {
      var t := Terminate(s, ids[0], outcome);
      var c := PathTerminate(s, ids[0], outcome);
      TerminateKeepsIds(s, ids[0], outcome);
      var rest := PathTerminateAll(t, ids[1..], outcome);
      PathOne(s, t, c);
      PathJoin(s, t, TerminateAll(t, ids[1..], outcome), [c], rest);
      cs := [c] + rest;
    }
  }

  lemma TerminateKeepsIds(s: State, id: u32, outcome: Outcome)
    ensures Terminate(s, id, outcome).ids == s.ids
  {
    hide Surviving;
  }

  lemma PathComplete(s: State, id: u32) returns (cs: seq<Change>)
    requires s.ids.Valid()
    ensures Path(s, Complete(s, id), cs)
    ensures forall i :: 0 <= i < |cs| ==> cs[i] == Died(id, Completed)
  {
    hide Tidy;
    TidyOne(s, Complete(s, id));
    if Complete(s, id) == s {
      cs := [];
    } else {
      cs := [Died(id, Completed)];
      PathOne(s, Complete(s, id), cs[0]);
    }
  }

  lemma PathTick(s: State, now: Instant)
    requires s.ids.Valid()
    ensures Path(s, Tick(s, now), [Lapsed(Expired(s, now))])
  {
    hide Path, Changes, Tick;
    LapsedHere(s, now);
    PathOne(s, Tick(s, now), Lapsed(Expired(s, now)));
  }

  lemma LapsedHere(s: State, now: Instant)
    requires s.ids.Valid()
    ensures Changes(s, Tick(s, now), Lapsed(Expired(s, now)))
  {
    hide AllPingFailures, Tidy, EventLimit, Buffered, Numbering;
    var t := Tick(s, now);
    TidySame(s, t);
    SameNumbering(s, t, Lapsed(Expired(s, now)));
  }

  ghost predicate NoProbe(cs: seq<Change>) {
    forall i :: 0 <= i < |cs| ==> !cs[i].Probed? && !cs[i].Marked?
  }

  lemma PathDrain(s: State, reason: ShutdownReason, admit: bool)
    requires s.ids.Valid()
    ensures Path(s, Drain(s, reason, admit).state, [Silent])
  {
    hide GoAwayPayload, Tidy;
    var t := Drain(s, reason, admit).state;
    if t == s {
      TidySame(s, t);
    } else {
      TidyQueued(s, t, t.outbound[|s.outbound|]);
    }
    PathSilent(s, t);
  }

  lemma PathOpenStream(s: State, owner: Owner, selection: Option<Protocol>, admit: bool, admitDrain: bool)
    returns (cs: seq<Change>)
    requires s.ids.Valid()
    ensures Path(s, OpenStream(s, owner, selection, admit, admitDrain).state, cs) && NoProbe(cs)
    ensures forall i :: 0 <= i < |cs| ==>
              || cs[i].Silent?
              || (cs[i].Born? && selection == Some(cs[i].protocol) && cs[i].stream.owner == owner
                  && cs[i].stream.connection == s.connection && s.ids.IsLocal(cs[i].stream.id))
  {
    hide EncodeOpen, ValidProtocol, EventLimit, Drain, Path, Tidy;
    var r := OpenStream(s, owner, selection, admit, admitDrain);
    if r.result.Ok? {
      TidyOne(s, r.state);
      cs := [Born(r.result.value, selection.value)];
      PathOne(s, r.state, cs[0]);
    } else {
      cs := [Silent];
      PathStill(s);
      PathDrain(s, NoMoreIds, admitDrain);
    }
  }

  lemma PathSend(s: State, owner: Owner, h: Handle, bytes: seq<byte>, admit: bool)
    requires s.ids.Valid()
    ensures Path(s, Send(s, owner, h, bytes, admit).state, [Silent])
  {
    hide Path, Tidy;
    var t := Send(s, owner, h, bytes, admit).state;
    if t == s {
      PathStill(s);
    } else {
      TidyQueued(s, t, Frame(Kind.Data, h.id, bytes));
      PathSilent(s, t);
    }
  }

  lemma PathEnd(s: State, owner: Owner, h: Handle, admit: bool)
    requires s.ids.Valid()
    ensures Path(s, EndStream(s, owner, h, admit).state, [Silent])
  {
    hide Path, Tidy;
    var t := EndStream(s, owner, h, admit).state;
    if t == s {
      PathStill(s);
    } else {
      TidyQueued(s, t, Frame(Kind.End, h.id, []));
      PathSilent(s, t);
    }
  }

  lemma PathCancel(s: State, owner: Owner, h: Handle, reason: CancelReason, admit: bool) returns (cs: seq<Change>)
    requires s.ids.Valid()
    ensures Path(s, CancelStream(s, owner, h, reason, admit).state, cs) && NoProbe(cs)
    ensures forall i :: 0 <= i < |cs| ==>
              || cs[i].Silent?
              || (cs[i] == Died(h.id, CancelledBy(Local, reason)) && h.owner == owner && h.connection == s.connection)
              || (!admit && cs[i] == Shut(Some(Failure(Local, FailureCode.ResourceLimit))))
  {
    hide Changes, Terminate, Close, EncodeError, Path, Tidy;
    var r := CancelStream(s, owner, h, reason, admit);
    if r.result.Err? {
      cs := [Silent];
      PathStill(s);
    } else {
      var outcome := CancelledBy(Local, reason);
      var t := Terminate(s, h.id, outcome);
      var c := PathTerminate(s, h.id, outcome);
      TerminateKeepsIds(s, h.id, outcome);
      PathOne(s, t, c);
      var rest;
      if admit {
        rest := [Silent];
        TidyOne(t, r.state);
        PathSilent(t, r.state);
      } else {
        rest := PathClose(t, Some(Failure(Local, FailureCode.ResourceLimit)), None, false);
      }
      PathJoin(s, t, r.state, [c], rest);
      cs := [c] + rest;
    }
  }

  lemma PathSent(s: State, kind: Kind, id: u32) returns (cs: seq<Change>)
    requires s.ids.Valid()
    ensures Path(s, Sent(s, kind, id), cs)
    ensures forall i :: 0 <= i < |cs| ==>
              cs[i].Silent? || (kind == Kind.End && (cs[i] == Marked(id) || cs[i] == Died(id, Completed)))
  {
    hide Changes, Complete;
    if kind == Kind.End && id in s.streams {
      var written := !s.streams[id].localOpen;
      var t := s.(streams := s.streams[id := s.streams[id].(endWritten := written)]);
      var first := PathMarked(s, id, t);
      var rest := PathComplete(t, id);
      PathJoin(s, t, Complete(t, id), first, rest);
      cs := first + rest;
    } else if kind == Kind.End {
      cs := PathComplete(s, id);
    } else {
      cs := [Silent];
      TidyOne(s, Sent(s, kind, id));
      PathSilent(s, Sent(s, kind, id));
    }
  }

  lemma PathMarked(s: State, id: u32, t: State) returns (cs: seq<Change>)
    requires s.ids.Valid() && id in s.streams
    requires t == s.(streams := s.streams[id := s.streams[id].(endWritten := !s.streams[id].localOpen)])
    ensures Path(s, t, cs)
    ensures forall i :: 0 <= i < |cs| ==> cs[i].Silent? || (cs[i].Marked? && cs[i].id == id)
  {
    hide Tidy;
    TidyOne(s, t);
    cs := [if s.streams[id].localOpen then Silent else Marked(id)];
    PathOne(s, t, cs[0]);
  }

  lemma PathPing(s: State, token: Token, timeout: nat, now: Instant, admit: bool) returns (cs: seq<Change>)
    requires s.ids.Valid()
    ensures Path(s, SendPing(s, token, timeout, now, admit).state, cs)
    ensures cs == if SendPing(s, token, timeout, now, admit).result.Ok? then [Probed(token, now, now + timeout)] else []
  {
    hide EncodePing, Path, Changes;
    var r := SendPing(s, token, timeout, now, admit);
    if r.result.Ok? {
      cs := [Probed(token, now, now + timeout)];
      ProbedHere(s, token, timeout, now, admit);
      PathOne(s, r.state, cs[0]);
    } else {
      cs := [];
      PathNone(s);
    }
  }

  lemma ProbedHere(s: State, token: Token, timeout: nat, now: Instant, admit: bool)
    requires s.ids.Valid() && SendPing(s, token, timeout, now, admit).result.Ok?
    ensures Changes(s, SendPing(s, token, timeout, now, admit).state, Probed(token, now, now + timeout))
  {
    hide EncodePing, Tidy, Numbering, EventLimit, Buffered, SameStreams;
    var t := SendPing(s, token, timeout, now, admit).state;
    SameStreamsItself(s.streams);
    TidyOne(s, t);
    SameNumbering(s, t, Probed(token, now, now + timeout));
  }

  lemma PathNone(s: State)
    ensures Path(s, s, [])
  {
  }

  /** With time running forward, an answer always finds its probe's start in the past. */
  lemma PathPong(s: State, kind: Kind, payload: seq<byte>, admit: bool) returns (cs: seq<Change>)
    requires s.ids.Valid() && s.now.Some? && forall t :: t in s.pings ==> s.pings[t].0 <= s.now.value
    ensures Path(s, ReceivePing(s, kind, payload, admit).state, cs) && NoProbe(cs)
    ensures forall i :: 0 <= i < |cs| ==>
              || cs[i].Silent?
              || (kind != Ping && cs[i].Answered? && DecodePing(payload) == Ok(cs[i].token) && cs[i].token in s.pings
                  && s.pings[cs[i].token].0 + cs[i].elapsed == s.now.value)
  {
    hide DecodePing, EncodePing, Path, Tidy, Changes;
    var r := ReceivePing(s, kind, payload, admit);
    if DecodePing(payload).Ok? && kind != Ping && DecodePing(payload).value in s.pings {
      var token := DecodePing(payload).value;
      cs := [Answered(token, s.now.value - s.pings[token].0)];
      AnsweredHere(s, token, s.now.value - s.pings[token].0);
      PathOne(s, r.state, cs[0]);
    } else {
      cs := [Silent];
      TidyOne(s, r.state);
      PathSilent(s, r.state);
    }
  }

  lemma AnsweredHere(s: State, token: Token, elapsed: nat)
    requires s.ids.Valid() && token in s.pings
    ensures Changes(s, Push(s.(pings := s.pings - {token}), PingFinished(token, Ok(elapsed))), Answered(token, elapsed))
  {
    hide Tidy;
    TidySame(s, Push(s.(pings := s.pings - {token}), PingFinished(token, Ok(elapsed))));
  }

  lemma PathGoaway(s: State, payload: seq<byte>, admit: bool) returns (cs: seq<Change>)
    requires s.ids.Valid()
    ensures Path(s, ReceiveGoaway(s, payload, admit).state, cs) && NoProbe(cs)
    ensures forall i :: 0 <= i < |cs| ==>
              || cs[i].Silent?
              || (cs[i].Died? && DecodeGoAway(payload).Ok? && s.ids.IsLocal(cs[i].id)
                  && cs[i].id > DecodeGoAway(payload).value.0 && cs[i].outcome == Failed(Failure(Peer, Refused)))
  {
    hide DecodeGoAway, GoawayAcceptable, Path, TerminateAll, Drain;
    var r := ReceiveGoaway(s, payload, admit);
    if DecodeGoAway(payload).Ok? && GoawayAcceptable(s, DecodeGoAway(payload).value.0) {
      var last, code := DecodeGoAway(payload).value.0, DecodeGoAway(payload).value.1.code;
      var noted := s.(peerGoaway := Some(last),
                      drainFailure := if code != NoError then Some(Failure(Peer, FailureOf(code))) else s.drainFailure);
      TidySame(s, noted);
      PathSilent(s, noted);
      var ids, outcome := IdsInOrder(RefusedBy(s, last)), Failed(Failure(Peer, Refused));
      var dying := PathTerminateAll(noted, ids, outcome);
      var t := TerminateAll(noted, ids, outcome);
      ValidThrough(noted, t, dying);
      PathDrain(t, Normal, admit);
      PathJoin(s, noted, t, [Silent], dying);
      PathJoin(s, t, r.state, [Silent] + dying, [Silent]);
      cs := [Silent] + dying + [Silent];
    } else {
      cs := [Silent];
      PathStill(s);
    }
  }

  lemma PathTermination(s: State, f: Frame) returns (cs: seq<Change>)
    requires s.ids.Valid()
    ensures Path(s, ReceiveTermination(s, f).state, cs) && NoProbe(cs)
    ensures forall i :: 0 <= i < |cs| ==>
              || cs[i].Silent?
              || (DecodeError(f.payload).Ok?
                  && cs[i] == Died(f.id, PeerOutcome(f.kind, DecodeError(f.payload).value.code)))
  {
    hide DecodeError, Path, Terminate, Changes;
    if DecodeError(f.payload).Ok? {
      var outcome := PeerOutcome(f.kind, DecodeError(f.payload).value.code);
      var c := PathTerminate(s, f.id, outcome);
      PathOne(s, Terminate(s, f.id, outcome), c);
      cs := [c];
    } else {
      cs := [Silent];
      PathStill(s);
    }
  }

  lemma PathFail(s: State, id: u32, wire: ErrorCode, code: FailureCode, admit: bool) returns (cs: seq<Change>)
    requires s.ids.Valid()
    ensures Path(s, FailStream(s, id, wire, code, admit).state, cs) && NoProbe(cs)
    ensures forall i :: 0 <= i < |cs| ==> cs[i].Silent? || cs[i] == Died(id, Failed(Failure(Local, code)))
  {
    hide EncodeError, Path, Terminate, Changes, Tidy;
    var outcome := Failed(Failure(Local, code));
    var t := Terminate(s, id, outcome);
    var c := PathTerminate(s, id, outcome);
    TerminateKeepsIds(s, id, outcome);
    PathOne(s, t, c);
    TidyOne(t, FailStream(s, id, wire, code, admit).state);
    PathSilent(t, FailStream(s, id, wire, code, admit).state);
    PathJoin(s, t, FailStream(s, id, wire, code, admit).state, [c], [Silent]);
    cs := [c] + [Silent];
  }

  lemma PathRemoteEnd(s: State, f: Frame, admit: bool) returns (cs: seq<Change>)
    requires s.ids.Valid() && f.id in s.streams && |s.events| < EventLimit(s.limits)
    ensures Path(s, ReceiveEnd(s, f, admit).state, cs) && NoProbe(cs)
    ensures f.kind == Kind.End ==> AllFrameReason(s, f, map[], cs)
  {
    hide Path, FailStream, Complete, EventLimit, Tidy;
    var st := s.streams[f.id];
    if f.payload != [] || !st.remoteOpen {
      cs := PathFail(s, f.id, StreamStateError, FailureCode.StreamState, admit);
    } else {
      var t := Push(s.(streams := s.streams[f.id := st.(remoteOpen := false)]), RemoteEnd(st.handle));
      TidySame(s, t);
      PathOne(s, t, Halved(f.id));
      var rest := PathComplete(t, f.id);
      PathJoin(s, t, Complete(t, f.id), [Halved(f.id)], rest);
      cs := [Halved(f.id)] + rest;
    }
  }

  lemma PathData(s: State, f: Frame, admit: bool) returns (cs: seq<Change>)
    requires s.ids.Valid() && f.id in s.streams && |s.events| < EventLimit(s.limits)
    ensures Path(s, ReceiveData(s, f, admit).state, cs) && NoProbe(cs)
    ensures f.kind == Kind.Data ==> AllFrameReason(s, f, map[], cs)
  {
    hide Path, FailStream, EventLimit, Tidy;
    var st := s.streams[f.id];
    if !st.remoteOpen || f.payload == [] || |f.payload| > MAX_PAYLOAD {
      cs := PathFail(s, f.id, StreamStateError, FailureCode.StreamState, admit);
    } else if Buffered(s.events, f.id) + |f.payload| > s.limits.bufferedPerStream {
      cs := PathFail(s, f.id, ErrorCode.ResourceLimit, FailureCode.ResourceLimit, admit);
    } else {
      cs := [Fed(f.id, f.payload)];
      var t := Push(s, DataReceived(st.handle, f.payload));
      TidySame(s, t);
      PathOne(s, t, cs[0]);
    }
  }

  lemma PathAccepted(s: State, f: Frame, registry: map<Protocol, Owner>, admit: bool) returns (cs: seq<Change>)
    requires s.ids.Valid() && !s.closed && |s.events| < EventLimit(s.limits)
    ensures Path(s, ReceiveOpen(s, f, registry, admit).state, cs) && NoProbe(cs)
    ensures f.kind == Kind.Open ==> AllFrameReason(s, f, registry, cs)
  {
    hide Path, DecodeOpen, EventLimit, Tidy, Refuse, Changes;
    var r := ReceiveOpen(s, f, registry, admit);
    if Accept(s.ids, f.id).Err? {
      cs := [Silent];
      PathStill(s);
    } else if s.goawaySent || s.peerGoaway.Some? || |s.streams| >= s.limits.streams
              || DecodeOpen(f.payload).Err? || DecodeOpen(f.payload).value !in registry {
      cs := [Silent];
      forall code: ErrorCode
        ensures Path(s, Refuse(s.(ids := Accept(s.ids, f.id).value), f.id, code, admit).state, [Silent])
      {
        PathRefuse(s, f.id, code, admit);
      }
    } else {
      var p := DecodeOpen(f.payload).value;
      var h := Handle(s.connection, registry[p], f.id);
      cs := [Born(h, p)];
      BornHere(s, h, p);
      PathOne(s, r.state, cs[0]);
    }
  }

  lemma PathRefuse(s: State, id: u32, code: ErrorCode, admit: bool)
    requires s.ids.Valid() && Accept(s.ids, id).Ok?
    ensures Path(s, Refuse(s.(ids := Accept(s.ids, id).value), id, code, admit).state, [Silent])
  {
    hide Path, EncodeError, Tidy;
    var t := Refuse(s.(ids := Accept(s.ids, id).value), id, code, admit).state;
    TidyOne(s, t);
    PathSilent(s, t);
  }

  lemma BornHere(s: State, h: Handle, p: Protocol)
    requires s.ids.Valid() && Accept(s.ids, h.id).Ok?
    requires !s.closed && |s.events| < EventLimit(s.limits) && |s.streams| < s.limits.streams
    ensures Changes(s, AddStream(s.(ids := Accept(s.ids, h.id).value), h, p), Born(h, p))
  {
    hide Tidy, EventLimit;
    TidySame(s, AddStream(s.(ids := Accept(s.ids, h.id).value), h, p));
  }

  lemma PathConnectionError(s: State, payload: seq<byte>) returns (cs: seq<Change>)
    requires s.ids.Valid()
    ensures Path(s, ReceiveConnectionError(s, payload).state, cs) && NoProbe(cs)
    ensures forall i :: 0 <= i < |cs| ==>
              || cs[i].Silent?
              || (DecodeError(payload).Ok?
                  && cs[i] == Shut(Some(Failure(Peer, FailureOf(DecodeError(payload).value.code)))))
  {
    hide Path, DecodeError, Close;
    if DecodeError(payload).Ok? {
      cs := PathClose(s, Some(Failure(Peer, FailureOf(DecodeError(payload).value.code))), None, false);
    } else {
      cs := [Silent];
      PathStill(s);
    }
  }

  lemma PathDispatch(s: State, f: Frame, registry: map<Protocol, Owner>, admit: bool) returns (cs: seq<Change>)
    requires s.ids.Valid() && !s.closed && |s.events| < EventLimit(s.limits)
    requires s.now.Some? && forall t :: t in s.pings ==> s.pings[t].0 <= s.now.value
    ensures Path(s, Dispatch(s, f, registry, admit).state, cs) && NoProbe(cs) && AllFrameReason(s, f, registry, cs)
  {
    hide Path, EventLimit, ReceiveGoaway, ReceivePing, ReceiveConnectionError, ReceiveOpen, ReceiveTermination,
      ReceiveEnd, ReceiveData;
    if f.kind == GoAway && f.id == 0 {
      cs := PathGoaway(s, f.payload, admit);
    } else if (f.kind == Ping || f.kind == Pong) && f.id == 0 {
      cs := PathPong(s, f.kind, f.payload, admit);
    } else if f.kind == Kind.Error && f.id == 0 {
      cs := PathConnectionError(s, f.payload);
    } else if f.kind == Kind.Open {
      cs := PathAccepted(s, f, registry, admit);
    } else if f.id != 0 && s.ids.WasCreated(f.id) && f.id in s.streams {
      if f.kind == Kind.Cancel || f.kind == Kind.Error {
        cs := PathTermination(s, f);
      } else if f.kind == Kind.End {
        cs := PathRemoteEnd(s, f, admit);
      } else if f.kind == Kind.Data {
        cs := PathData(s, f, admit);
      } else {
        cs := [Silent];
        PathStill(s);
      }
    } else {
      cs := [Silent];
      PathStill(s);
    }
  }

  lemma PathReceive(s: State, f: Frame, registry: map<Protocol, Owner>, now: Instant, admit: bool, admitError: bool)
    returns (cs: seq<Change>)
    requires s.ids.Valid() && forall t :: t in s.pings ==> s.pings[t].0 <= now
    ensures Path(s, Receive(s, f, registry, now, admit, admitError).state, cs) && NoProbe(cs)
    ensures forall i :: 0 <= i < |cs| ==> ReceiveReason(s, f, registry, now, cs[i])
  {
    hide Path, EventLimit, Dispatch, Close, AllPingFailures;
    var u := Receive(s, f, registry, now, admit, admitError).state;
    if s.closed {
      cs := [Silent];
      PathStill(s);
    } else {
      var t := Tick(s, now);
      PathTick(s, now);
      var first := [Lapsed(Expired(s, now))];
      if |t.events| >= EventLimit(t.limits) {
        var rest := PathClose(t, Some(Failure(Local, FailureCode.ResourceLimit)), None, false);
        PathJoin(s, t, u, first, rest);
        cs := first + rest;
      } else {
        var r := Dispatch(t, f, registry, admit);
        var rest := PathDispatch(t, f, registry, admit);
        PathJoin(s, t, r.state, first, rest);
        cs := first + rest;
        if r.result.Err? {
          ValidThrough(t, r.state, rest);
          var last := PathClose(r.state, Some(FailureFor(r.result.error)), Some(ResponseFor(r.result.error)),
                                admitError);
          PathJoin(s, r.state, u, cs, last);
          cs := cs + last;
        }
      }
    }
  }

  // ---------------------------------------------------------------- whole runs

  /** An endpoint with what an observer of its calls and of its wire also remembers. */
  datatype History = History(e: Endpoint, accepted: multiset<Token>, wire: seq<Frame>)

  ghost predicate Accepts(e: Endpoint, a: Action) {
    a.Pinging? && SendPing(e.s, a.token, a.timeout, a.now, a.admit).result.Ok?
  }

  ghost function Follow(h: History, a: Action): History
    requires Enabled(h.e, a)
  {
    History(Act(h.e, a),
            if Accepts(h.e, a) then h.accepted + multiset{a.token} else h.accepted,
            if a.TakingOutput? then h.wire + [PopOutbound(h.e.s).1.value] else h.wire)
  }

  ghost predicate Steps(h: History, k: History) {
    exists a: Action :: Enabled(h.e, a) && k == Follow(h, a)
  }

  /** A life: every call and every received frame is arbitrary; only time must not run backwards. */
  ghost predicate Life(life: seq<History>) {
    && life != []
    && (exists c: nat, role: Role, l: Limits :: life[0] == History(Start(c, role, l), multiset{}, []))
    && forall k :: 0 < k < |life| ==> Steps(life[k - 1], life[k])
  }

  ghost predicate Kept(h: History) {
    Orderly(h.e) && forall token: Token :: h.accepted[token] == Owed(h.e, token)
  }

  /** The changes one call makes; calls that only take from queues make none. */
  lemma PathAct(e: Endpoint, a: Action) returns (before: Endpoint, t: State, cs: seq<Change>)
    requires Orderly(e) && Enabled(e, a) && !a.TakingOutput? && !a.TakingEvent? && !a.TakingStreamEvent?
    ensures before == e.(clock := before.clock, written := before.written)
    ensures e.clock <= before.clock && e.written <= before.written
    ensures Path(e.s, t, cs) && Founded(before, cs)
    ensures Act(e, a).s == t && Act(e, a).log == Track(e, t).log
    ensures Act(e, a).clock == before.clock && Act(e, a).written == before.written
    ensures forall token :: Probes(cs, token) == if Accepts(e, a) && a.token == token then 1 else 0
    ensures AllReason(e, a, cs)
  {
    hide Path, Phases, Conclusion, Backlog, OpenStream, Send, EndStream, CancelStream, SendPing, Tick, Drain, Close,
      Receive, Sent;
    assert e.s.ids.Valid() by { ValidNow(e); }
    before := e;
    match a {
      case Opening(owner, selection, admit, admitDrain) =>
        cs := PathOpenStream(e.s, owner, selection, admit, admitDrain);
      case Sending(owner, stream, bytes, admit) => cs := [Silent]; PathSend(e.s, owner, stream, bytes, admit);
      case Ending(owner, stream, admit) => cs := [Silent]; PathEnd(e.s, owner, stream, admit);
      case Cancelling(owner, stream, reason, admit) => cs := PathCancel(e.s, owner, stream, reason, admit);
      case Pinging(token, timeout, now, admit) =>
        before := e.(clock := now);
        cs := PathPing(e.s, token, timeout, now, admit);
      case Ticking(now) =>
        before := e.(clock := now);
        cs := [Lapsed(Expired(e.s, now))];
        PathTick(e.s, now);
      case DrainingFor(shutdown, admit) => cs := [Silent]; PathDrain(e.s, shutdown, admit);
      case Closing(failure, response, admit) => cs := PathClose(e.s, failure, response, admit);
      case Receiving(frame, registry, now, admit, admitError) =>
        before := e.(clock := now);
        cs := PathReceive(e.s, frame, registry, now, admit, admitError);
      case FinishingOutput =>
        var (kind, id) := e.writing.value;
        before := e.(written := if kind == Kind.End then e.written + {id} else e.written);
        cs := PathSent(e.s, kind, id);
    }
    t := Act(e, a).s;
    ProbesCount(cs);
  }

  lemma ValidNow(e: Endpoint)
    requires Orderly(e)
    ensures e.s.ids.Valid()
  {
  }

  lemma {:induction false} ProbesCount(cs: seq<Change>)
    ensures (forall i :: 0 <= i < |cs| ==> !cs[i].Probed?) ==> forall token :: Probes(cs, token) == 0
    ensures |cs| == 1 && cs[0].Probed? ==> forall token :: Probes(cs, token) == if token == cs[0].token then 1 else 0
  {
    if cs != [] {
      ProbesCount(cs[1..]);
    }
  }

  /** Later time and more written ENDs only relax the promises. */
  lemma OrderlyLater(e: Endpoint, f: Endpoint)
    requires Orderly(e) && f == e.(clock := f.clock, written := f.written)
    requires e.clock <= f.clock && e.written <= f.written
    ensures Orderly(f)
  {
    hide PhaseOf, Backlog;
    forall id: u32
      ensures Fits(PhaseOf(f.log, id), f.s, id, f.written)
    {
      FitsOwn(e, id);
    }
  }

  /** The promises see neither the sent bytes nor the writer's slot. */
  lemma OrderlySame(e: Endpoint, f: Endpoint)
    requires Orderly(e) && f.s == e.s && f.log == e.log && f.clock == e.clock && f.written == e.written
    ensures Orderly(f)
  {
    hide PhaseOf, Backlog, Fits;
    assert forall id: u32 :: Fits(PhaseOf(f.log, id), f.s, id, f.written);
  }

  lemma {:induction false} RemovedLoad(events: seq<Event>, k: nat, id: u32)
    requires k < |events|
    ensures Load(events[..k] + events[k + 1..]) <= Load(events)
    ensures Buffered(events[..k] + events[k + 1..], id) <= Buffered(events, id)
  {
    hide Load, Buffered;
    var a, b, c := events[..k], [events[k]], events[k + 1..];
    assert events == a + b + c;
    LoadConcat(a, b);
    LoadConcat(a + b, c);
    LoadConcat(a, c);
    BufferedConcat(a, b, id);
    BufferedConcat(a + b, c, id);
    BufferedConcat(a, c, id);
  }

  /** Taking an event or a frame off a queue loses no promise. */
  lemma OrderlyTaken(e: Endpoint, f: Endpoint, k: nat)
    requires Orderly(e)
    requires f.log == e.log && f.clock == e.clock && f.written == e.written
    requires f.s == e.s.(events := f.s.events, outbound := f.s.outbound, lastOutput := f.s.lastOutput)
    requires f.s.events == e.s.events || (k < |e.s.events| && f.s.events == e.s.events[..k] + e.s.events[k + 1..])
    ensures Orderly(f)
  {
    hide PhaseOf, Load, Buffered, EventLimit;
    forall id: u32
      ensures Fits(PhaseOf(f.log, id), f.s, id, f.written)
    {
      FitsOwn(e, id);
    }
    if f.s.events != e.s.events {
      RemovedLoad(e.s.events, k, 0);
      forall id: u32
        ensures Buffered(f.s.events, id) <= f.s.limits.bufferedPerStream
      {
        RemovedLoad(e.s.events, k, id);
      }
    }
  }

  lemma TakenKept(e: Endpoint, a: Action)
    requires Orderly(e) && Enabled(e, a) && (a.TakingOutput? || a.TakingEvent? || a.TakingStreamEvent?)
    ensures Orderly(Act(e, a)) && forall token: Token :: Owed(Act(e, a), token) == Owed(e, token)
  {
    hide Orderly;
    var f := Act(e, a);
    var k := if a.TakingStreamEvent? && FirstVisible(e.s.events, e.s.connection, a.owner).Some?
             then FirstVisible(e.s.events, e.s.connection, a.owner).value else 0;
    if a.TakingEvent? && e.s.events != [] {
      assert f.s.events == e.s.events[..0] + e.s.events[1..];
    }
    OrderlyTaken(e, f, k);
  }

  lemma StepKept(h: History, a: Action)
    requires Kept(h) && Enabled(h.e, a)
    ensures Kept(Follow(h, a))
  {
    hide Orderly, Act, Owed, Accepts, Path, Founded, PopOutbound;
    var e, f := h.e, Act(h.e, a);
    if a.TakingOutput? || a.TakingEvent? || a.TakingStreamEvent? {
      TakenKept(e, a);
      assert !Accepts(e, a) by { NotAPing(e, a); }
    } else {
      var before, t, cs := PathAct(e, a);
      OrderlyLater(e, before);
      OrderlyPath(before, t, cs, 0);
      OrderlySame(Track(before, t), f);
      forall token: Token
        ensures Follow(h, a).accepted[token] == Owed(f, token)
      {
        OrderlyPath(before, t, cs, token);
        OwedSame(e, before, token);
        OwedSame(Track(before, t), f, token);
        assert Accepts(e, a) ==> a.Pinging? by { AcceptsIsPing(e, a); }
      }
    }
  }

  lemma AcceptsIsPing(e: Endpoint, a: Action)
    ensures Accepts(e, a) ==> a.Pinging?
  {
  }

  lemma NotAPing(e: Endpoint, a: Action)
    requires !a.Pinging?
    ensures !Accepts(e, a)
  {
  }

  lemma OwedSame(e: Endpoint, f: Endpoint, token: Token)
    requires f.s == e.s && f.log == e.log
    ensures Owed(f, token) == Owed(e, token)
  {
  }

  lemma {:induction false} LifeKept(life: seq<History>, k: nat)
    requires Life(life) && k < |life|
    ensures Kept(life[k])
  {
    hide Kept, Steps;
    if k == 0 {
      StartKept(life[0]);
    } else {
      LifeKept(life, k - 1);
      assert Steps(life[k - 1], life[k]);
      NextKept(life[k - 1], life[k]);
    }
  }

  lemma NextKept(h: History, k: History)
    requires Kept(h) && Steps(h, k)
    ensures Kept(k)
  {
    hide Kept, Follow, Enabled;
    var a: Action :| Enabled(h.e, a) && k == Follow(h, a);
    StepKept(h, a);
  }

  lemma StartKept(h: History)
    requires exists c: nat, role: Role, l: Limits :: h == History(Start(c, role, l), multiset{}, [])
    ensures Kept(h)
  {
    var e := h.e;
    assert e.log == [Authenticated] && e.s.events == [Authenticated];
    assert e.log[..0] == [] && e.s.events[1..] == [];
    forall id: u32
      ensures Fits(PhaseOf(e.log, id), e.s, id, e.written) && Buffered(e.s.events, id) == 0
    {
      assert PhaseOf(e.log[..0], id) == Unborn;
    }
    forall token: Token
      ensures Owed(e, token) == 0
    {
      assert Results(e.log[..0], token) == 0;
    }
    assert Load(e.s.events) == 1;
  }

  lemma {:induction false} PathStaysClosed(s: State, t: State, cs: seq<Change>)
    requires Path(s, t, cs) && s.closed
    ensures t.closed
    decreases |cs|
  {
    hide Possible, News, StreamsAfter, PingsAfter, Numbering, SameStreams, Tidy;
    if cs != [] {
      var u: State :| Changes(s, u, cs[0]) && Path(u, t, cs[1..]);
      PathStaysClosed(u, t, cs[1..]);
    }
  }

  /** A closed session never opens again. */
  lemma StaysClosed(h: History, a: Action)
    requires Kept(h) && Enabled(h.e, a) && h.e.s.closed
    ensures Act(h.e, a).s.closed
  {
    hide Orderly, Path, Founded, Owed, Accepts, FirstVisible;
    if !a.TakingOutput? && !a.TakingEvent? && !a.TakingStreamEvent? {
      var before, t, cs := PathAct(h.e, a);
      PathStaysClosed(h.e.s, t, cs);
    }
  }

  // ---------------------------------------------------------------- the wire

  /** OPEN never follows GOAWAY, neither on the wire, nor in the queue, nor from one to the other. */
  ghost predicate WireOrder(h: History) {
    && Barrier(h.wire) && Barrier(h.e.s.outbound)
    && (Has(h.wire, GoAway) ==> !Has(h.e.s.outbound, Kind.Open))
    && (Has(h.wire, GoAway) || Has(h.e.s.outbound, GoAway) ==> h.e.s.goawaySent)
  }

  lemma {:induction false} PathTidy(s: State, t: State, cs: seq<Change>)
    requires Path(s, t, cs)
    ensures Tidy(s, t)
    decreases |cs|
  {
    hide Possible, News, StreamsAfter, PingsAfter, Numbering, SameStreams;
    if cs == [] {
      TidySame(s, t);
    } else {
      var u: State :| Changes(s, u, cs[0]) && Path(u, t, cs[1..]);
      PathTidy(u, t, cs[1..]);
    }
  }

  lemma WireOnwards(h: History, k: History)
    requires WireOrder(h) && Tidy(h.e.s, k.e.s) && k.wire == h.wire
    ensures WireOrder(k)
  {
    hide Barrier, Has;
  }

  /** The scheduler's barriers carry the order from the queue to the wire. */
  lemma WirePops(h: History, k: History, i: nat)
    requires WireOrder(h) && Eligible(h.e.s.outbound, i)
    requires k.wire == h.wire + [h.e.s.outbound[i]] && k.e.s.outbound == Without(h.e.s.outbound, i)
    requires k.e.s.goawaySent == h.e.s.goawaySent
    ensures WireOrder(k)
  {
    var q, f, rest := h.e.s.outbound, h.e.s.outbound[i], Without(h.e.s.outbound, i);
    assert forall j :: 0 <= j < |rest| ==> rest[j] == (if j < i then q[j] else q[j + 1]);
    BarrierPush(h.wire, f);
    if Has(rest, Kind.Open) {
      var j :| 0 <= j < |rest| && rest[j].kind == Kind.Open;
      assert q[if j < i then j else j + 1].kind == Kind.Open;
    }
    if Has(rest, GoAway) {
      var j :| 0 <= j < |rest| && rest[j].kind == GoAway;
      assert q[if j < i then j else j + 1].kind == GoAway;
    }
  }

  lemma BarrierPush(q: seq<Frame>, f: Frame)
    requires Barrier(q) && (Has(q, GoAway) ==> f.kind != Kind.Open)
    ensures Barrier(q + [f])
    ensures Has(q + [f], GoAway) <==> Has(q, GoAway) || f.kind == GoAway
  {
    var r := q + [f];
    assert r[|q|] == f;
    forall i, j | 0 <= i < j < |r| && r[i].kind == GoAway
      ensures r[j].kind != Kind.Open
    {
      assert q[i].kind == GoAway;
    }
    if i :| 0 <= i < |q| && q[i].kind == GoAway {
      assert r[i].kind == GoAway;
    }
  }

  lemma StepWire(h: History, a: Action)
    requires Kept(h) && WireOrder(h) && Enabled(h.e, a)
    ensures WireOrder(Follow(h, a))
  {
    hide Orderly, Path, Founded, Accepts, Barrier, Has, Owed, Eligible;
    var k := Follow(h, a);
    if a.TakingOutput? {
      WirePops(h, k, Choice(h.e.s.lastOutput, h.e.s.outbound));
    } else if a.TakingEvent? || a.TakingStreamEvent? {
      TidySame(h.e.s, k.e.s);
      WireOnwards(h, k);
    } else {
      var before, t, cs := PathAct(h.e, a);
      PathTidy(h.e.s, t, cs);
      WireOnwards(h, k);
    }
  }

  lemma {:induction false} LifeWire(life: seq<History>, k: nat)
    requires Life(life) && k < |life|
    ensures WireOrder(life[k])
  {
    hide Steps, WireOrder;
    if k == 0 {
      WireStart(life[0]);
    } else {
      LifeKept(life, k - 1);
      LifeWire(life, k - 1);
      assert Steps(life[k - 1], life[k]);
      WireNext(life[k - 1], life[k]);
    }
  }

  lemma WireStart(h: History)
    requires exists c: nat, role: Role, l: Limits :: h == History(Start(c, role, l), multiset{}, [])
    ensures WireOrder(h)
  {
  }

  lemma WireNext(h: History, k: History)
    requires Kept(h) && WireOrder(h) && Steps(h, k)
    ensures WireOrder(k)
  {
    hide Kept, WireOrder, Follow, Enabled;
    var a: Action :| Enabled(h.e, a) && k == Follow(h, a);
    StepWire(h, a);
  }
}
