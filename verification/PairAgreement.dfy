/** A stream reported as refused by the peer was never, and will never be, opened there. */
module PairAgreement {
  import opened Bytes
  import opened Codec
  import opened StreamNumbering
  import opened SessionTypes
  import opened Lines
  import opened Scheduler
  import opened SessionModel
  import opened SessionRun
  import opened ChannelMoves
  import opened PairInvariant
  import opened PairMoves
  import opened PairSteps
  import opened PairReceive
  import opened Pair

  predicate IsRefusal(e: Event) {
    e.StreamClosed? && e.outcome == Failed(Failure(Peer, Refused))
  }

  ghost predicate Opened(log: seq<Event>, id: u32) {
    exists i :: 0 <= i < |log| && log[i].StreamOpened? && log[i].stream.id == id
  }

  ghost predicate ReportedRefused(log: seq<Event>, id: u32) {
    exists i :: 0 <= i < |log| && IsRefusal(log[i]) && log[i].stream.id == id
  }

  predicate RefusingFrame(f: Frame) {
    && f.kind == Kind.Error && f.id != 0
    && DecodeError(f.payload).Ok? && DecodeError(f.payload).value.code == RefusedStream
  }

  /** The endpoint has not opened the peer's stream `id` and can no longer do so. */
  ghost predicate NeverOpens(e: Endpoint, id: u32) {
    && id != 0 && !e.s.ids.IsLocal(id)
    && !Opened(e.log, id)
    && (e.s.ids.WasCreated(id) || e.s.goawaySent)
  }

  /** Streams opened here were created here, remote ones within the acceptance bound. */
  ghost predicate Bounded(e: Endpoint) {
    && (forall id: u32 :: Opened(e.log, id) ==>
          e.s.ids.WasCreated(id) && (e.s.ids.IsLocal(id) || id <= e.s.acceptedRemote))
    && (e.s.drainFailure.Some? ==> e.s.drainFailure.value.code != Refused)
  }

  /** `p` may report refusals, `q` issues them; `flight` runs from `q` to `p`. */
  ghost predicate Agreement(p: Endpoint, q: Endpoint, flight: seq<Frame>) {
    && (forall id: u32 :: ReportedRefused(p.log, id) ==> NeverOpens(q, id))
    && (forall f :: f in flight && RefusingFrame(f) ==> NeverOpens(q, f.id))
  }

  /** A role never changes, and once GOAWAY is queued the bound it announced is final. */
  ghost predicate Settled(s: State, t: State) {
    && t.ids.localOdd == s.ids.localOdd
    && (s.goawaySent ==> t.goawaySent && t.acceptedRemote == s.acceptedRemote)
  }

  /** Events that neither open a stream nor report a refusal. */
  ghost predicate Harmless(events: seq<Event>) {
    forall i :: 0 <= i < |events| ==> !events[i].StreamOpened? && !IsRefusal(events[i])
  }

  lemma OpenedConcat(log: seq<Event>, events: seq<Event>, id: u32)
    ensures Opened(log + events, id) <==> Opened(log, id) || Opened(events, id)
    ensures ReportedRefused(log + events, id) <==> ReportedRefused(log, id) || ReportedRefused(events, id)
  {
    var all := log + events;
    assert forall i :: 0 <= i < |log| ==> all[i] == log[i];
    assert forall i :: 0 <= i < |events| ==> all[|log| + i] == events[i];
    assert forall i :: |log| <= i < |all| ==> all[i] == events[i - |log|];
  }

  lemma HarmlessLog(log: seq<Event>, events: seq<Event>, id: u32)
    requires Harmless(events)
    ensures Opened(log + events, id) == Opened(log, id)
    ensures ReportedRefused(log + events, id) == ReportedRefused(log, id)
  {
    OpenedConcat(log, events, id);
  }

  /** A session change that opens nothing, reports no refusal and queues no refusal. */
  ghost predicate Discreet(s: State, t: State) {
    && s.events <= t.events && Harmless(t.events[|s.events|..])
    && t.ids.localOdd == s.ids.localOdd
    && t.acceptedRemote == s.acceptedRemote
    && (s.goawaySent ==> t.goawaySent)
    && (forall id: u32 :: s.ids.WasCreated(id) ==> t.ids.WasCreated(id))
    && t.drainFailure == s.drainFailure
    && (forall f :: f in t.outbound && RefusingFrame(f) ==> f in s.outbound)
  }

  lemma DiscreetTwice(s: State, t: State, u: State)
    requires Discreet(s, t) && Discreet(t, u)
    ensures Discreet(s, u)
  {
    hide RefusingFrame, IsRefusal;
    var x, y, z := t.events[|s.events|..], u.events[|t.events|..], u.events[|s.events|..];
    assert z == x + y;
  }

  /** Events appended to a queue, seen as the tail the queue grew by. */
  lemma DiscreetBy(s: State, t: State, pushed: seq<Event>)
    requires t.events == s.events + pushed && Harmless(pushed)
    requires t.ids == s.ids && t.acceptedRemote == s.acceptedRemote && (s.goawaySent ==> t.goawaySent)
    requires t.drainFailure == s.drainFailure
    requires forall f :: f in t.outbound && RefusingFrame(f) ==> f in s.outbound
    ensures Discreet(s, t)
  {
    assert t.events[|s.events|..] == pushed;
  }

  lemma DiscreetTerminate(s: State, id: u32, outcome: Outcome)
    requires outcome != Failed(Failure(Peer, Refused))
    ensures Discreet(s, Terminate(s, id, outcome))
  {
    hide RefusingFrame;
    SurvivingMembers(s.outbound, id);
    var t := Terminate(s, id, outcome);
    DiscreetBy(s, t, if id in s.streams then [StreamClosed(s.streams[id].handle, outcome)] else []);
  }

  lemma DiscreetEnqueue(s: State, f: Frame)
    requires !RefusingFrame(f)
    ensures Discreet(s, Enqueue(s, f))
  {
    hide RefusingFrame;
    DiscreetBy(s, Enqueue(s, f), []);
  }

  predicate OwnFault(cause: Option<Failure>) {
    cause.Some? ==> cause.value != Failure(Peer, Refused)
  }

  lemma FarewellIsHarmless(s: State, cause: Option<Failure>)
    requires OwnFault(cause)
    ensures Harmless(Farewell(s, cause))
  {
  }

  lemma DiscreetClose(s: State, failure: Option<Failure>, response: Option<ErrorCode>, admit: bool)
    requires OwnFault(failure) && OwnFault(s.drainFailure)
    ensures Discreet(s, Close(s, failure, response, admit))
  {
    hide DecodeError, Farewell, Harmless;
    if s.closed {
      DiscreetSelf(s);
    } else {
      FarewellIsHarmless(s, CloseCause(s, failure));
      DiscreetBy(s, Close(s, failure, response, admit), Farewell(s, CloseCause(s, failure)));
    }
  }

  lemma DiscreetTick(s: State, now: Instant)
    ensures Discreet(s, Tick(s, now))
  {
    hide RefusingFrame;
    DiscreetBy(s, Tick(s, now), AllPingFailures(Expired(s, now), Failure(Local, DeadlineExceeded)));
  }

  lemma DiscreetDrain(s: State, reason: ShutdownReason, admit: bool)
    ensures Discreet(s, Drain(s, reason, admit).state)
  {
    DiscreetBy(s, Drain(s, reason, admit).state, []);
  }

  lemma DiscreetPing(s: State, token: Token, timeout: nat, now: Instant, admit: bool)
    ensures Discreet(s, SendPing(s, token, timeout, now, admit).state)
  {
    hide EncodePing, DecodeError, IsRefusal;
    DiscreetBy(s, SendPing(s, token, timeout, now, admit).state, []);
  }

  lemma DiscreetSend(s: State, owner: Owner, h: Handle, bytes: seq<byte>, admit: bool)
    ensures Discreet(s, Send(s, owner, h, bytes, admit).state)
  {
    DiscreetBy(s, Send(s, owner, h, bytes, admit).state, []);
  }

  lemma DiscreetEnd(s: State, owner: Owner, h: Handle, admit: bool)
    ensures Discreet(s, EndStream(s, owner, h, admit).state)
  {
    DiscreetBy(s, EndStream(s, owner, h, admit).state, []);
  }

  lemma DiscreetCancel(s: State, owner: Owner, h: Handle, reason: CancelReason, admit: bool)
    requires OwnFault(s.drainFailure)
    ensures Discreet(s, CancelStream(s, owner, h, reason, admit).state)
  {
    hide DecodeError, Discreet;
    var r := CancelStream(s, owner, h, reason, admit);
    DiscreetSelf(s);
    if r.state != s {
      var t := Terminate(s, h.id, CancelledBy(Local, reason));
      DiscreetTerminate(s, h.id, CancelledBy(Local, reason));
      if admit {
        DiscreetEnqueue(t, Frame(Kind.Cancel, h.id, EncodeError(CancelCode(reason))));
      } else {
        DiscreetClose(t, Some(Failure(Local, FailureCode.ResourceLimit)), None, false);
      }
      DiscreetTwice(s, t, r.state);
    }
  }

  lemma DiscreetSelf(s: State)
    ensures Discreet(s, s)
  {
    DiscreetBy(s, s, []);
  }

  lemma DiscreetSent(s: State, kind: Kind, id: u32)
    ensures Discreet(s, Sent(s, kind, id))
  {
    hide RefusingFrame;
    var t := Sent(s, kind, id);
    if t.events == s.events {
      DiscreetBy(s, t, []);
    } else {
      DiscreetBy(s, t, [StreamClosed(s.streams[id].handle, Completed)]);
    }
  }

  // ---------------------------------------------------------------- agreement over one call

  /** Everything agreement says about a pair, seen from the acting end. */
  ghost predicate Agreed(p: Endpoint, q: Endpoint, outgoing: seq<Frame>, incoming: seq<Frame>) {
    && Bounded(p) && Bounded(q)
    && Agreement(p, q, Flight(incoming, q))
    && Agreement(q, p, Flight(outgoing, p))
  }

  lemma AgreedSwap(p: Endpoint, q: Endpoint, outgoing: seq<Frame>, incoming: seq<Frame>)
    requires Agreed(p, q, outgoing, incoming)
    ensures Agreed(q, p, incoming, outgoing)
  {
  }

  lemma DiscreetLog(p: Endpoint, p2: Endpoint, id: u32)
    requires Discreet(p.s, p2.s) && p2.log == Track(p, p2.s).log
    ensures Opened(p2.log, id) == Opened(p.log, id)
    ensures ReportedRefused(p2.log, id) == ReportedRefused(p.log, id)
    ensures NeverOpens(p, id) ==> NeverOpens(p2, id)
  {
    HarmlessLog(p.log, p2.s.events[|p.s.events|..], id);
  }

  lemma AgreedDiscreet(p: Endpoint, p2: Endpoint, q: Endpoint, outgoing: seq<Frame>, incoming: seq<Frame>)
    requires Agreed(p, q, outgoing, incoming)
    requires Discreet(p.s, p2.s) && p2.log == Track(p, p2.s).log
    ensures Agreed(p2, q, outgoing, incoming) && Settled(p.s, p2.s)
  {
    hide RefusingFrame, NeverOpens;
    forall id: u32
      ensures Opened(p2.log, id) == Opened(p.log, id) && ReportedRefused(p2.log, id) == ReportedRefused(p.log, id)
      ensures NeverOpens(p, id) ==> NeverOpens(p2, id)
    {
      DiscreetLog(p, p2, id);
    }
    assert forall f :: f in Flight(outgoing, p2) && RefusingFrame(f) ==> f in Flight(outgoing, p);
  }

  /** Taking frames off a link only removes refusals. */
  lemma AgreedShorter(p: Endpoint, q: Endpoint, outgoing: seq<Frame>, incoming: seq<Frame>)
    requires Agreed(p, q, outgoing, incoming) && incoming != []
    ensures Agreed(p, q, outgoing, incoming[1..])
  {
    hide RefusingFrame, NeverOpens, Opened, ReportedRefused;
    FlightTail(incoming, q);
    var flight := Flight(incoming, q);
    assert forall f :: f in flight[1..] ==> f in flight;
  }

  /** Moving a frame from the queue to the link keeps the set of frames in flight. */
  lemma AgreedPopped(p: Endpoint, p2: Endpoint, q: Endpoint, outgoing: seq<Frame>, incoming: seq<Frame>, i: nat)
    requires Agreed(p, q, outgoing, incoming) && i < |p.s.outbound|
    requires p2.s == p.s.(outbound := Without(p.s.outbound, i), lastOutput := p2.s.lastOutput) && p2.log == p.log
    ensures Agreed(p2, q, outgoing + [p.s.outbound[i]], incoming) && Settled(p.s, p2.s)
  {
    hide RefusingFrame, Opened, ReportedRefused;
    var before, after := Flight(outgoing, p), Flight(outgoing + [p.s.outbound[i]], p2);
    assert forall f :: f in after ==> f in before;
    assert forall id: u32 :: NeverOpens(p, id) ==> NeverOpens(p2, id);
  }

  // ---------------------------------------------------------------- calls that open or report

  /** Nothing is opened, and every refusal reported is one the peer `q` stands by. */
  ghost predicate Reporting(s: State, t: State, q: Endpoint) {
    && s.events <= t.events
    && (forall i :: |s.events| <= i < |t.events| ==>
          !t.events[i].StreamOpened? && (IsRefusal(t.events[i]) ==> NeverOpens(q, t.events[i].stream.id)))
    && t.ids == s.ids
    && t.acceptedRemote == s.acceptedRemote
    && (s.goawaySent ==> t.goawaySent)
    && (t.drainFailure.Some? ==> t.drainFailure.value.code != Refused)
    && (forall f :: f in t.outbound && RefusingFrame(f) ==> f in s.outbound)
  }

  lemma ReportingLog(p: Endpoint, p2: Endpoint, q: Endpoint, id: u32)
    requires Reporting(p.s, p2.s, q) && p2.log == Track(p, p2.s).log
    ensures Opened(p2.log, id) == Opened(p.log, id)
    ensures ReportedRefused(p2.log, id) ==> ReportedRefused(p.log, id) || NeverOpens(q, id)
    ensures NeverOpens(p, id) ==> NeverOpens(p2, id)
  {
    hide RefusingFrame;
    var pushed := p2.s.events[|p.s.events|..];
    OpenedConcat(p.log, pushed, id);
    assert forall i :: 0 <= i < |pushed| ==> pushed[i] == p2.s.events[|p.s.events| + i];
  }

  lemma AgreedReporting(p: Endpoint, p2: Endpoint, q: Endpoint, outgoing: seq<Frame>, incoming: seq<Frame>)
    requires Agreed(p, q, outgoing, incoming)
    requires Reporting(p.s, p2.s, q) && p2.log == Track(p, p2.s).log
    ensures Agreed(p2, q, outgoing, incoming) && Settled(p.s, p2.s)
  {
    hide RefusingFrame, NeverOpens, IsRefusal;
    forall id: u32
      ensures Opened(p2.log, id) == Opened(p.log, id)
      ensures ReportedRefused(p2.log, id) ==> ReportedRefused(p.log, id) || NeverOpens(q, id)
      ensures NeverOpens(p, id) ==> NeverOpens(p2, id)
    {
      ReportingLog(p, p2, q, id);
    }
    assert forall f :: f in Flight(outgoing, p2) && RefusingFrame(f) ==> f in Flight(outgoing, p);
  }

  /** Terminating a list of streams reports exactly that outcome, for those streams. */
  lemma {:induction false} TerminateAllReports(s: State, ids: seq<u32>, outcome: Outcome)
    requires forall id :: id in s.streams ==> s.streams[id].handle.id == id
    ensures var t := TerminateAll(s, ids, outcome);
            && s.events <= t.events
            && (forall i :: |s.events| <= i < |t.events| ==> t.events[i].StreamClosed? && t.events[i].stream.id in ids)
            && t.ids == s.ids && t.acceptedRemote == s.acceptedRemote && t.goawaySent == s.goawaySent
            && t.drainFailure == s.drainFailure
            && (forall f :: f in t.outbound ==> f in s.outbound)
    decreases |ids|
  {
    if ids != [] {
      var t := Terminate(s, ids[0], outcome);
      TerminateAllReports(t, ids[1..], outcome);
      SurvivingMembers(s.outbound, ids[0]);
      var u := TerminateAll(t, ids[1..], outcome);
      assert forall i :: |s.events| <= i < |t.events| ==> u.events[i] == t.events[i];
    }
  }

  /** Local streams above the bound of a GOAWAY in flight are out of the peer's reach. */
  lemma AboveTheBound(p: Endpoint, q: Endpoint, outgoing: seq<Frame>, incoming: seq<Frame>, id: u32)
    requires Joined(p, q, outgoing, incoming) && Bounded(q)
    requires incoming != [] && incoming[0].kind == GoAway && incoming[0].id == 0
    requires DecodeGoAway(incoming[0].payload).Ok?
    requires id in RefusedBy(p.s, DecodeGoAway(incoming[0].payload).value.0)
    ensures NeverOpens(q, id)
  {
    hide Channel, Opened;
    FlightTail(incoming, q);
    HeadFacts(q, p, Flight(incoming, q));
  }

  lemma GoawayReports(p: Endpoint, q: Endpoint, outgoing: seq<Frame>, incoming: seq<Frame>, admit: bool)
    requires Joined(p, q, outgoing, incoming) && Bounded(q) && Bounded(p)
    requires incoming != [] && incoming[0].kind == GoAway && incoming[0].id == 0
    ensures Reporting(p.s, ReceiveGoaway(p.s, incoming[0].payload, admit).state, q)
  {
    hide Direction, GoawayAcceptable, DecodeGoAway, NeverOpens, Opened;
    var payload := incoming[0].payload;
    GoawayIsAcceptable(p, q, outgoing, incoming);
    GoawayCodeIsOrdinary(p, q, outgoing, incoming);
    var last, code := DecodeGoAway(payload).value.0, DecodeGoAway(payload).value.1.code;
    var noted := p.s.(peerGoaway := Some(last),
                      drainFailure := if code != NoError then Some(Failure(Peer, FailureOf(code)))
                                      else p.s.drainFailure);
    var ids, outcome := IdsInOrder(RefusedBy(p.s, last)), Failed(Failure(Peer, Refused));
    TerminateAllReports(noted, ids, outcome);
    var t := TerminateAll(noted, ids, outcome);
    DrainFacts(t, Normal, admit);
    forall i | |p.s.events| <= i < |t.events|
      ensures NeverOpens(q, t.events[i].stream.id)
    {
      AboveTheBound(p, q, outgoing, incoming, t.events[i].stream.id);
    }
  }

  lemma DrainFacts(s: State, reason: ShutdownReason, admit: bool)
    ensures var t := Drain(s, reason, admit).state;
            t.events == s.events && t.ids == s.ids && t.acceptedRemote == s.acceptedRemote
            && (s.goawaySent ==> t.goawaySent) && t.drainFailure == s.drainFailure
            && forall f :: f in t.outbound && RefusingFrame(f) ==> f in s.outbound
  {
  }

  lemma GoawayCodeIsOrdinary(p: Endpoint, q: Endpoint, outgoing: seq<Frame>, incoming: seq<Frame>)
    requires Joined(p, q, outgoing, incoming)
    requires incoming != [] && incoming[0].kind == GoAway && incoming[0].id == 0
    ensures DecodeGoAway(incoming[0].payload).Ok?
            && FailureOf(DecodeGoAway(incoming[0].payload).value.1.code) != Refused
  {
    hide Direction;
    FlightTail(incoming, q);
    HeadFacts(q, p, Flight(incoming, q));
  }

  /** A refusal at the head of the link means what it says. */
  lemma RefusalAtHead(p: Endpoint, q: Endpoint, outgoing: seq<Frame>, incoming: seq<Frame>)
    requires Joined(p, q, outgoing, incoming) && Agreed(p, q, outgoing, incoming)
    requires incoming != [] && incoming[0].id != 0
             && (incoming[0].kind == Kind.Cancel || incoming[0].kind == Kind.Error)
    ensures DecodeError(incoming[0].payload).Ok?
    ensures var f := incoming[0];
            PeerOutcome(f.kind, DecodeError(f.payload).value.code) == Failed(Failure(Peer, Refused)) ==>
              NeverOpens(q, f.id)
  {
    hide Direction, DecodeError, NeverOpens, Opened;
    var f := incoming[0];
    FlightTail(incoming, q);
    HeadFacts(q, p, Flight(incoming, q));
    if PeerOutcome(f.kind, DecodeError(f.payload).value.code) == Failed(Failure(Peer, Refused)) {
      assert RefusingFrame(f) && f in Flight(incoming, q);
    }
  }

  /** A peer's CANCEL or ERROR reports a refusal only if it carries one. */
  lemma TerminationReports(p: Endpoint, q: Endpoint, outgoing: seq<Frame>, incoming: seq<Frame>)
    requires Joined(p, q, outgoing, incoming) && Agreed(p, q, outgoing, incoming)
    requires incoming != [] && incoming[0].id != 0
             && (incoming[0].kind == Kind.Cancel || incoming[0].kind == Kind.Error)
    ensures Reporting(p.s, ReceiveTermination(p.s, incoming[0]).state, q)
  {
    hide Direction, DecodeError, NeverOpens, PeerOutcome, Agreement;
    assert Sound(p);
    RefusalAtHead(p, q, outgoing, incoming);
    SurvivingMembers(p.s.outbound, incoming[0].id);
  }

  /** Opening a stream, either side: only its own number becomes opened. */
  lemma AgreedOpening(p: Endpoint, p2: Endpoint, q: Endpoint, outgoing: seq<Frame>, incoming: seq<Frame>, h: Handle,
                      protocol: Protocol)
    requires Agreed(p, q, outgoing, incoming) && Sound(p)
    requires h.id != 0 && !p.s.ids.WasCreated(h.id) && p2.s.ids.localOdd == p.s.ids.localOdd
    requires forall id: u32 :: p2.s.ids.WasCreated(id) <==> p.s.ids.WasCreated(id) || id == h.id
    requires p2.s.goawaySent == p.s.goawaySent && p2.s.drainFailure == p.s.drainFailure
    requires if p.s.ids.IsLocal(h.id) then p2.s.acceptedRemote == p.s.acceptedRemote
             else !p.s.goawaySent && p2.s.acceptedRemote == h.id && p.s.acceptedRemote <= h.id
    requires p2.log == p.log + [StreamOpened(h, protocol)]
    requires forall f :: f in p2.s.outbound && RefusingFrame(f) ==> f in p.s.outbound
    ensures Agreed(p2, q, outgoing, incoming) && Settled(p.s, p2.s)
  {
    hide RefusingFrame, IsRefusal;
    var e := StreamOpened(h, protocol);
    forall id: u32
      ensures Opened(p2.log, id) <==> Opened(p.log, id) || id == h.id
      ensures ReportedRefused(p2.log, id) == ReportedRefused(p.log, id)
    {
      OpenedConcat(p.log, [e], id);
      OneOpened(e, id);
    }
    assert forall id: u32 :: NeverOpens(p, id) ==> NeverOpens(p2, id);
    assert forall f :: f in Flight(outgoing, p2) && RefusingFrame(f) ==> f in Flight(outgoing, p);
  }

  lemma OneOpened(e: Event, id: u32)
    requires e.StreamOpened?
    ensures Opened([e], id) <==> id == e.stream.id
    ensures !ReportedRefused([e], id)
  {
    if id == e.stream.id {
      assert [e][0] == e;
    }
  }

  // ---------------------------------------------------------------- receiving

  lemma DiscreetRefuse(s: State, id: u32, code: ErrorCode, admit: bool)
    requires Accept(s.ids, id).Ok? && s.ids.Valid() && code != RefusedStream && code != NoError
    ensures Discreet(s, Refuse(s.(ids := Accept(s.ids, id).value), id, code, admit).state)
  {
    hide DecodeError;
    var t := Refuse(s.(ids := Accept(s.ids, id).value), id, code, admit).state;
    assert t.events[|s.events|..] == [];
  }

  /** The one call that queues a refusal: its number is consumed and was never opened. */
  lemma AgreedRefusing(p: Endpoint, p2: Endpoint, q: Endpoint, outgoing: seq<Frame>, incoming: seq<Frame>, id: u32,
                       admit: bool)
    requires Agreed(p, q, outgoing, incoming) && Sound(p)
    requires Accept(p.s.ids, id).Ok?
    requires p2 == p.(s := Refuse(p.s.(ids := Accept(p.s.ids, id).value), id, RefusedStream, admit).state)
    ensures Agreed(p2, q, outgoing, incoming) && Settled(p.s, p2.s)
  {
    hide DecodeError;
    assert !Opened(p.log, id);
    assert NeverOpens(p2, id);
    assert forall j: u32 :: NeverOpens(p, j) ==> NeverOpens(p2, j);
    forall f | f in Flight(outgoing, p2) && RefusingFrame(f)
      ensures NeverOpens(p2, f.id)
    {
      assert f in Flight(outgoing, p) || f.id == id;
    }
  }

  lemma AgreedOpen(p: Endpoint, q: Endpoint, outgoing: seq<Frame>, incoming: seq<Frame>, registry: map<Protocol, Owner>,
                   admit: bool)
    requires Joined(p, q, outgoing, incoming) && Agreed(p, q, outgoing, incoming) && !p.s.closed
    requires incoming != [] && incoming[0].kind == Open
    ensures Agreed(Track(p, ReceiveOpen(p.s, incoming[0], registry, admit).state), q, outgoing, incoming)
    ensures Settled(p.s, ReceiveOpen(p.s, incoming[0], registry, admit).state)
  {
    hide Direction, Agreed, DecodeOpen, DecodeError, Opened, Discreet;
    var f := incoming[0];
    OpenIsExpected(p, q, outgoing, incoming);
    var r := ReceiveOpen(p.s, f, registry, admit);
    var p2 := Track(p, r.state);
    if p.s.goawaySent || p.s.peerGoaway.Some? {
      assert p2 == p.(s := r.state);
      AgreedRefusing(p, p2, q, outgoing, incoming, f.id, admit);
    } else if |p.s.streams| >= p.s.limits.streams {
      DiscreetRefuse(p.s, f.id, ErrorCode.ResourceLimit, admit);
      AgreedDiscreet(p, p2, q, outgoing, incoming);
    } else {
      var protocol := DecodeOpen(f.payload).value;
      if protocol !in registry {
        DiscreetRefuse(p.s, f.id, ErrorCode.UnsupportedProtocol, admit);
        AgreedDiscreet(p, p2, q, outgoing, incoming);
      } else {
        var h := Handle(p.s.connection, registry[protocol], f.id);
        assert Pushed(p.s, r.state) == [StreamOpened(h, protocol)];
        AgreedOpening(p, p2, q, outgoing, incoming, h, protocol);
      }
    }
  }

  lemma DiscreetFailStream(s: State, id: u32, wire: ErrorCode, code: FailureCode, admit: bool)
    requires wire != RefusedStream && wire != NoError
    ensures Discreet(s, FailStream(s, id, wire, code, admit).state)
  {
    hide Discreet, DecodeError, Surviving;
    var t := Terminate(s, id, Failed(Failure(Local, code)));
    DiscreetTerminate(s, id, Failed(Failure(Local, code)));
    if admit {
      DiscreetEnqueue(t, ErrorFrame(id, wire));
      DiscreetTwice(s, t, Enqueue(t, ErrorFrame(id, wire)));
    }
  }

  lemma DiscreetData(s: State, f: Frame, admit: bool)
    requires f.id in s.streams
    ensures Discreet(s, ReceiveData(s, f, admit).state)
  {
    hide Discreet, RefusingFrame, FailStream;
    DiscreetFailStream(s, f.id, StreamStateError, FailureCode.StreamState, admit);
    DiscreetFailStream(s, f.id, ErrorCode.ResourceLimit, FailureCode.ResourceLimit, admit);
    var t := Push(s, DataReceived(s.streams[f.id].handle, f.payload));
    DiscreetBy(s, t, [DataReceived(s.streams[f.id].handle, f.payload)]);
  }

  lemma DiscreetRemoteEnd(s: State, f: Frame, admit: bool)
    requires f.id in s.streams
    ensures Discreet(s, ReceiveEnd(s, f, admit).state)
  {
    hide Discreet, RefusingFrame, FailStream;
    DiscreetFailStream(s, f.id, StreamStateError, FailureCode.StreamState, admit);
    var st := s.streams[f.id];
    var t := Push(s.(streams := s.streams[f.id := st.(remoteOpen := false)]), RemoteEnd(st.handle));
    DiscreetBy(s, t, [RemoteEnd(st.handle)]);
    DiscreetComplete(t, f.id);
    DiscreetTwice(s, t, Complete(t, f.id));
  }

  lemma DiscreetComplete(s: State, id: u32)
    ensures Discreet(s, Complete(s, id))
  {
    hide RefusingFrame;
    var t := Complete(s, id);
    DiscreetBy(s, t, if t == s then [] else [StreamClosed(s.streams[id].handle, Completed)]);
  }

  lemma DiscreetProbe(s: State, kind: Kind, payload: seq<byte>, admit: bool)
    ensures Discreet(s, ReceivePing(s, kind, payload, admit).state)
  {
    hide DecodePing, Discreet, DecodeError;
    var t := ReceivePing(s, kind, payload, admit).state;
    if DecodePing(payload).Ok? && kind != Ping && t.events != s.events {
      var token := DecodePing(payload).value;
      DiscreetBy(s, t, [PingFinished(token, Ok(s.now.value - s.pings[token].0))]);
    } else {
      DiscreetBy(s, t, []);
    }
  }

  lemma DiscreetConnectionError(p: Endpoint, q: Endpoint, outgoing: seq<Frame>, incoming: seq<Frame>)
    requires Joined(p, q, outgoing, incoming) && Bounded(p)
    requires incoming != [] && incoming[0].kind == Kind.Error && incoming[0].id == 0
    ensures Discreet(p.s, ReceiveConnectionError(p.s, incoming[0].payload).state)
  {
    hide Direction, DecodeError, Discreet, Close;
    FlightTail(incoming, q);
    HeadFacts(q, p, Flight(incoming, q));
    DiscreetClose(p.s, Some(Failure(Peer, FailureOf(DecodeError(incoming[0].payload).value.code))), None, false);
  }

  lemma AgreedDispatch(p: Endpoint, q: Endpoint, outgoing: seq<Frame>, incoming: seq<Frame>,
                       registry: map<Protocol, Owner>, admit: bool)
    requires Joined(p, q, outgoing, incoming) && Agreed(p, q, outgoing, incoming) && !p.s.closed
    requires incoming != []
    ensures Agreed(Track(p, Dispatch(p.s, incoming[0], registry, admit).state), q, outgoing, incoming)
    ensures Settled(p.s, Dispatch(p.s, incoming[0], registry, admit).state)
  {
    hide Direction, Agreement, ReceiveGoaway, ReceivePing, ReceiveConnectionError, ReceiveOpen, ReceiveTermination,
      ReceiveEnd, ReceiveData, Discreet, Reporting;
    var f := incoming[0];
    var p2 := Track(p, Dispatch(p.s, f, registry, admit).state);
    FlightTail(incoming, q);
    HeadFacts(q, p, Flight(incoming, q));
    if f.kind == Open {
      AgreedOpen(p, q, outgoing, incoming, registry, admit);
    } else if f.id == 0 && f.kind == GoAway {
      GoawayReports(p, q, outgoing, incoming, admit);
      AgreedReporting(p, p2, q, outgoing, incoming);
    } else if f.id != 0 && f.id in p.s.streams && (f.kind == Kind.Cancel || f.kind == Kind.Error) {
      StreamIsKnown(p, q, outgoing, incoming);
      TerminationReports(p, q, outgoing, incoming);
      AgreedReporting(p, p2, q, outgoing, incoming);
    } else {
      DiscreetSelf(p.s);
      if f.id == 0 {
        DiscreetProbe(p.s, f.kind, f.payload, admit);
        if f.kind == Kind.Error {
          DiscreetConnectionError(p, q, outgoing, incoming);
        }
      } else if f.id in p.s.streams {
        DiscreetData(p.s, f, admit);
        DiscreetRemoteEnd(p.s, f, admit);
      }
      AgreedDiscreet(p, p2, q, outgoing, incoming);
    }
  }

  lemma AgreedReceive(p: Endpoint, q: Endpoint, outgoing: seq<Frame>, incoming: seq<Frame>,
                      registry: map<Protocol, Owner>, now: Instant, admit: bool, admitError: bool)
    requires Joined(p, q, outgoing, incoming) && Agreed(p, q, outgoing, incoming)
    requires !p.s.closed && p.clock <= now && incoming != []
    ensures Agreed(Track(p.(clock := now), Receive(p.s, incoming[0], registry, now, admit, admitError).state), q,
                   outgoing, incoming[1..])
    ensures Settled(p.s, Receive(p.s, incoming[0], registry, now, admit, admitError).state)
  {
    hide Direction, Agreement, Dispatch, Close, Tick, Discreet;
    var e, t := p.(clock := now), Tick(p.s, now);
    var p1 := Track(e, t);
    StepTick(p, q, outgoing, incoming, now);
    TickFacts(p.s, now);
    DiscreetTick(p.s, now);
    AgreedDiscreet(p, p1, q, outgoing, incoming);
    if |t.events| >= EventLimit(t.limits) {
      var cause := Some(Failure(Local, FailureCode.ResourceLimit));
      var u := Close(t, cause, None, false);
      DiscreetClose(t, cause, None, false);
      AgreedDiscreet(p1, Track(p1, u), q, outgoing, incoming);
      CloseFacts(t, cause, None, false);
      TrackTwice(e, t, u);
      AgreedShorter(Track(e, u), q, outgoing, incoming);
    } else {
      DeliverDispatch(p1, q, outgoing, incoming, registry, admit);
      AgreedDispatch(p1, q, outgoing, incoming, registry, admit);
      var r := Dispatch(t, incoming[0], registry, admit);
      TrackTwice(e, t, r.state);
      var p2 := Track(e, r.state);
      if r.result.Err? {
        var cause, response := Some(FailureFor(r.result.error)), Some(ResponseFor(r.result.error));
        var u := Close(r.state, cause, response, admitError);
        DiscreetClose(r.state, cause, response, admitError);
        AgreedDiscreet(p2, Track(p2, u), q, outgoing, incoming);
        CloseFacts(r.state, cause, response, admitError);
        TrackTwice(e, r.state, u);
        AgreedShorter(Track(e, u), q, outgoing, incoming);
      } else {
        AgreedShorter(p2, q, outgoing, incoming);
      }
    }
  }

  // ---------------------------------------------------------------- whole runs

  lemma AgreedOpenStream(p: Endpoint, q: Endpoint, outgoing: seq<Frame>, incoming: seq<Frame>,
                         owner: Owner, selection: Option<Protocol>, admit: bool, admitDrain: bool)
    requires Joined(p, q, outgoing, incoming) && Agreed(p, q, outgoing, incoming)
    ensures Agreed(Track(p, OpenStream(p.s, owner, selection, admit, admitDrain).state), q, outgoing, incoming)
    ensures Settled(p.s, OpenStream(p.s, owner, selection, admit, admitDrain).state)
  {
    hide Direction, Agreed, DecodeError, Opened, Discreet, EncodeOpen;
    var r := OpenStream(p.s, owner, selection, admit, admitDrain);
    var p2 := Track(p, r.state);
    if r.result.Ok? {
      assert Pushed(p.s, r.state) == [StreamOpened(r.result.value, selection.value)];
      AgreedOpening(p, p2, q, outgoing, incoming, r.result.value, selection.value);
    } else {
      DiscreetSelf(p.s);
      DiscreetDrain(p.s, NoMoreIds, admitDrain);
      AgreedDiscreet(p, p2, q, outgoing, incoming);
    }
  }

  lemma AgreedMove(p: Endpoint, q: Endpoint, outgoing: seq<Frame>, incoming: seq<Frame>, a: Action,
                   p2: Endpoint, outgoing2: seq<Frame>, incoming2: seq<Frame>)
    requires Joined(p, q, outgoing, incoming) && Agreed(p, q, outgoing, incoming)
    requires Moves(p, outgoing, incoming, a, p2, outgoing2, incoming2)
    ensures Agreed(p2, q, outgoing2, incoming2) && Settled(p.s, p2.s)
  {
    hide Joined, Agreement, Close, Receive, Tick, OpenStream, Send, EndStream, CancelStream, SendPing, Drain, Sent,
      Discreet;
    match a {
      case Opening(owner, selection, admit, admitDrain) =>
        AgreedOpenStream(p, q, outgoing, incoming, owner, selection, admit, admitDrain);
      case Receiving(_, registry, now, admit, admitError) =>
        AgreedReceive(p, q, outgoing, incoming, registry, now, admit, admitError);
      case TakingOutput =>
        AgreedPopped(p, p2, q, outgoing, incoming, Choice(p.s.lastOutput, p.s.outbound));
      case TakingEvent => AgreedUntracked(p, p2, q, outgoing, incoming);
      case TakingStreamEvent(_) => AgreedUntracked(p, p2, q, outgoing, incoming);
      case _ =>
        DiscreetCall(p, a);
        AgreedDiscreet(p, p2, q, outgoing, incoming);
    }
  }

  lemma AgreedUntracked(p: Endpoint, p2: Endpoint, q: Endpoint, outgoing: seq<Frame>, incoming: seq<Frame>)
    requires Agreed(p, q, outgoing, incoming)
    requires p2.s == p.s.(events := p2.s.events) && p2.log == p.log
    ensures Agreed(p2, q, outgoing, incoming) && Settled(p.s, p2.s)
  {
    hide RefusingFrame, Opened, ReportedRefused;
    assert forall id: u32 :: NeverOpens(p, id) ==> NeverOpens(p2, id);
  }

  /** Consumers' and the clock's calls are all discreet. */
  lemma DiscreetCall(p: Endpoint, a: Action)
    requires Bounded(p) && Enabled(p, a)
    requires !a.Opening? && !a.Receiving? && !a.TakingOutput? && !a.TakingEvent? && !a.TakingStreamEvent?
    ensures Discreet(p.s, Act(p, a).s)
  {
    hide Discreet, Opened, Close, Tick, Send, EndStream, CancelStream, SendPing, Drain, Sent;
    match a {
      case Sending(owner, stream, bytes, admit) => DiscreetSend(p.s, owner, stream, bytes, admit);
      case Ending(owner, stream, admit) => DiscreetEnd(p.s, owner, stream, admit);
      case Cancelling(owner, stream, reason, admit) => DiscreetCancel(p.s, owner, stream, reason, admit);
      case Pinging(token, timeout, now, admit) => DiscreetPing(p.s, token, timeout, now, admit);
      case Ticking(now) => DiscreetTick(p.s, now);
      case DrainingFor(shutdown, admit) => DiscreetDrain(p.s, shutdown, admit);
      case Closing(failure, response, admit) => DiscreetClose(p.s, failure, response, admit);
      case FinishingOutput => DiscreetSent(p.s, p.writing.value.0, p.writing.value.1);
    }
  }

  ghost predicate WorldAgrees(w: World) {
    Agreed(w.a, w.b, w.ab, w.ba)
  }

  lemma NextAgrees(w: World, v: World)
    requires Invariant(w) && WorldAgrees(w) && Next(w, v)
    ensures WorldAgrees(v) && Settled(w.a.s, v.a.s) && Settled(w.b.s, v.b.s)
  {
    hide Joined, Moves, Agreed;
    var a: Action :|
      || (Moves(w.a, w.ab, w.ba, a, v.a, v.ab, v.ba) && v.b == w.b)
      || (Moves(w.b, w.ba, w.ab, a, v.b, v.ba, v.ab) && v.a == w.a);
    if Moves(w.a, w.ab, w.ba, a, v.a, v.ab, v.ba) && v.b == w.b {
      AgreedMove(w.a, w.b, w.ab, w.ba, a, v.a, v.ab, v.ba);
    } else {
      JoinedSwap(w.a, w.b, w.ab, w.ba);
      AgreedSwap(w.a, w.b, w.ab, w.ba);
      AgreedMove(w.b, w.a, w.ba, w.ab, a, v.b, v.ba, v.ab);
      AgreedSwap(v.b, v.a, v.ba, v.ab);
    }
  }

  lemma {:induction false} RunAgrees(run: seq<World>, k: nat)
    requires Run(run) && k < |run|
    ensures WorldAgrees(run[k])
  {
    hide Invariant, Next;
    if k == 0 {
      assert run[0].a.log == [Authenticated] && run[0].b.log == [Authenticated];
    } else {
      RunHolds(run, k - 1);
      RunAgrees(run, k - 1);
      NextAgrees(run[k - 1], run[k]);
    }
  }

  lemma LogGrows(e: Endpoint, a: Action)
    requires Enabled(e, a)
    ensures e.log <= Act(e, a).log
  {
    hide Close, Receive, Tick, OpenStream, Send, EndStream, CancelStream, SendPing, Drain, Sent, PopOutbound;
  }

  lemma {:induction false} LogsGrow(run: seq<World>, i: nat, j: nat)
    requires Run(run) && i <= j < |run|
    ensures run[i].a.log <= run[j].a.log && run[i].b.log <= run[j].b.log
  {
    hide Act, Initial;
    if i < j {
      LogsGrow(run, i, j - 1);
      var w, v := run[j - 1], run[j];
      assert Next(w, v);
      var a: Action :|
        || (Moves(w.a, w.ab, w.ba, a, v.a, v.ab, v.ba) && v.b == w.b)
        || (Moves(w.b, w.ba, w.ab, a, v.b, v.ba, v.ab) && v.a == w.a);
      if Moves(w.a, w.ab, w.ba, a, v.a, v.ab, v.ba) && v.b == w.b {
        LogGrows(w.a, a);
      } else {
        LogGrows(w.b, a);
      }
    }
  }

  lemma OpenedStays(before: seq<Event>, after: seq<Event>, id: u32)
    requires before <= after
    ensures Opened(before, id) ==> Opened(after, id)
    ensures ReportedRefused(before, id) ==> ReportedRefused(after, id)
  {
    assert forall i :: 0 <= i < |before| ==> before[i] == after[i];
  }

  /**
   GOAWAY agreement: if either end ever reports a stream as refused by its peer, the peer opens that
   stream at no point of the run, before or after.
   */
  lemma RefusedMeansNeverOpened(run: seq<World>, i: nat, j: nat, id: u32)
    requires Run(run) && i < |run| && j < |run|
    ensures ReportedRefused(run[i].a.log, id) ==> !Opened(run[j].b.log, id)
    ensures ReportedRefused(run[i].b.log, id) ==> !Opened(run[j].a.log, id)
  {
    hide Run, Opened, ReportedRefused;
    var m := if i < j then j else i;
    RunAgrees(run, m);
    LogsGrow(run, i, m);
    LogsGrow(run, j, m);
    OpenedStays(run[i].a.log, run[m].a.log, id);
    OpenedStays(run[i].b.log, run[m].b.log, id);
    OpenedStays(run[j].a.log, run[m].a.log, id);
    OpenedStays(run[j].b.log, run[m].b.log, id);
  }

  // ---------------------------------------------------------------- the announced bound

  lemma {:induction false} RunSettled(run: seq<World>, i: nat, j: nat)
    requires Run(run) && i <= j < |run|
    ensures Settled(run[i].a.s, run[j].a.s) && Settled(run[i].b.s, run[j].b.s)
  {
    hide Invariant, WorldAgrees, Next, Initial;
    if i < j {
      RunSettled(run, i, j - 1);
      RunHolds(run, j - 1);
      RunAgrees(run, j - 1);
      NextAgrees(run[j - 1], run[j]);
    }
  }

  /** A GOAWAY naming the bound `last` is queued or on the wire. */
  ghost predicate Announces(flight: seq<Frame>, last: u32) {
    exists f :: f in flight && f.kind == GoAway && f.id == 0 && DecodeGoAway(f.payload).Ok?
                && DecodeGoAway(f.payload).value.0 == last
  }

  lemma AnnouncedIsAccepted(p: Endpoint, q: Endpoint, flight: seq<Frame>, last: u32)
    requires Direction(p, q, flight) && Announces(flight, last)
    ensures p.s.goawaySent && last == p.s.acceptedRemote
  {
    hide Channel, Numbers, DecodeGoAway;
    var f :| f in flight && f.kind == GoAway && f.id == 0 && DecodeGoAway(f.payload).Ok?
             && DecodeGoAway(f.payload).value.0 == last;
    LineMembers(flight, 0);
    assert f in Line(flight, 0);
    var i :| 0 <= i < |Line(flight, 0)| && Line(flight, 0)[i] == f;
    assert ControlFrame(p.s, f);
  }

  /** At no point of a run does an end open a peer's stream above the bound it announces at any point. */
  lemma NothingOpensAboveTheBound(run: seq<World>, i: nat, j: nat, last: u32, id: u32)
    requires Run(run) && i < |run| && j < |run|
    ensures Announces(Flight(run[i].ab, run[i].a), last) && Opened(run[j].a.log, id) && !run[j].a.s.ids.IsLocal(id)
            ==> id <= last
    ensures Announces(Flight(run[i].ba, run[i].b), last) && Opened(run[j].b.log, id) && !run[j].b.s.ids.IsLocal(id)
            ==> id <= last
  {
    hide Run, Announces, Opened, Direction;
    var m := if i < j then j else i;
    RunHolds(run, i);
    RunSettled(run, i, m);
    RunSettled(run, j, m);
    LogsGrow(run, j, m);
    RunAgrees(run, m);
    OpenedStays(run[j].a.log, run[m].a.log, id);
    OpenedStays(run[j].b.log, run[m].b.log, id);
    var w := run[i];
    if Announces(Flight(w.ab, w.a), last) {
      AnnouncedIsAccepted(w.a, w.b, Flight(w.ab, w.a), last);
    }
    if Announces(Flight(w.ba, w.b), last) {
      AnnouncedIsAccepted(w.b, w.a, Flight(w.ba, w.b), last);
    }
  }
}
