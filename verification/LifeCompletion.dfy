/** Streams complete: a remote end and a written local END close a stream, in whichever order they come. */
module LifeCompletion {
  import opened Bytes
  import opened Codec
  import opened StreamNumbering
  import opened SessionTypes
  import opened Lines
  import opened Scheduler
  import opened SessionModel
  import opened SessionRun
  import opened LifeChanges
  import opened Lifecycle
  import opened LifePromises

  /** The local direction of this stream is closed for good. */
  ghost predicate Settled(s: State, id: u32) {
    s.ids.WasCreated(id) && (id in s.streams ==> !s.streams[id].localOpen)
  }

  /** No table entry is done in both directions. */
  ghost predicate Unfinished(s: State) {
    forall id :: id in s.streams ==> s.streams[id].remoteOpen || !s.streams[id].endWritten
  }

  /**
   ENDs belong to closed local directions wherever they are, written ones are marked in the table,
   and nothing in the table is done in both directions.
   */
  ghost predicate Marks(s: State, writing: Option<(Kind, u32)>, written: set<u32>) {
    && s.ids.Valid() && Unfinished(s)
    && (forall f :: f in s.outbound && f.kind == Kind.End ==> Settled(s, f.id))
    && (writing.Some? && writing.value.0 == Kind.End ==> Settled(s, writing.value.1))
    && (forall id :: id in written ==> Settled(s, id) && (id in s.streams ==> s.streams[id].endWritten))
  }

  /** Streams may come and go; none changes, and no END is queued. */
  ghost predicate Calm(s: State, t: State) {
    && t.ids.Valid()
    && (forall id: u32 :: s.ids.WasCreated(id) ==> t.ids.WasCreated(id))
    && (forall id :: id in t.streams ==>
          || (id in s.streams && t.streams[id] == s.streams[id])
          || (!s.ids.WasCreated(id) && t.streams[id].remoteOpen))
    && (forall f :: f in t.outbound && f.kind == Kind.End ==> f in s.outbound)
  }

  lemma CalmKeeps(s: State, t: State, writing: Option<(Kind, u32)>, written: set<u32>)
    requires Marks(s, writing, written) && Calm(s, t)
    ensures Marks(t, writing, written)
  {
  }

  lemma CalmTwice(s: State, t: State, u: State)
    requires Calm(s, t) && Calm(t, u)
    ensures Calm(s, u)
  {
  }

  /** Nothing happens to streams or numbers, and what is queued is no END. */
  lemma CalmQueue(s: State, t: State)
    requires s.ids.Valid() && t.ids == s.ids && t.streams == s.streams
    requires t.outbound == s.outbound || t.outbound == []
             || (t.outbound != [] && t.outbound[..|t.outbound| - 1] == s.outbound
                 && t.outbound[|t.outbound| - 1].kind != Kind.End)
             || (|t.outbound| == 1 && t.outbound[0].kind != Kind.End)
    ensures Calm(s, t)
  {
    if t.outbound != [] && t.outbound[..|t.outbound| - 1] == s.outbound {
      assert t.outbound == s.outbound + [t.outbound[|t.outbound| - 1]];
    }
  }

  lemma CalmTerminate(s: State, id: u32, outcome: Outcome)
    requires s.ids.Valid()
    ensures Calm(s, Terminate(s, id, outcome))
  {
    hide Surviving;
    SurvivingMembers(s.outbound, id);
  }

  lemma {:induction false} CalmTerminateAll(s: State, ids: seq<u32>, outcome: Outcome)
    requires s.ids.Valid()
    ensures Calm(s, TerminateAll(s, ids, outcome))
    decreases |ids|
  {
    hide Calm, Terminate;
    if ids == [] {
      CalmQueue(s, s);
    } else {
      var t := Terminate(s, ids[0], outcome);
      CalmTerminate(s, ids[0], outcome);
      TerminateKeepsIds(s, ids[0], outcome);
      CalmTerminateAll(t, ids[1..], outcome);
      CalmTwice(s, t, TerminateAll(t, ids[1..], outcome));
    }
  }

  lemma CalmClose(s: State, failure: Option<Failure>, response: Option<ErrorCode>, admit: bool)
    requires s.ids.Valid()
    ensures Calm(s, Close(s, failure, response, admit))
  {
    hide Farewell, EncodeError;
  }

  lemma CalmDrain(s: State, reason: ShutdownReason, admit: bool)
    requires s.ids.Valid()
    ensures Calm(s, Drain(s, reason, admit).state)
  {
    hide GoAwayPayload, Calm;
    CalmQueue(s, Drain(s, reason, admit).state);
  }

  lemma CalmOpenStream(s: State, owner: Owner, selection: Option<Protocol>, admit: bool, admitDrain: bool)
    requires s.ids.Valid()
    ensures Calm(s, OpenStream(s, owner, selection, admit, admitDrain).state)
  {
    hide EncodeOpen, ValidProtocol, EventLimit, Drain;
    CalmDrain(s, NoMoreIds, admitDrain);
  }

  lemma CalmCancel(s: State, owner: Owner, h: Handle, reason: CancelReason, admit: bool)
    requires s.ids.Valid()
    ensures Calm(s, CancelStream(s, owner, h, reason, admit).state)
  {
    hide Terminate, Close, EncodeError, Calm;
    var r := CancelStream(s, owner, h, reason, admit);
    if r.result.Err? {
      CalmQueue(s, s);
    } else {
      var outcome := CancelledBy(Local, reason);
      var t := Terminate(s, h.id, outcome);
      CalmTerminate(s, h.id, outcome);
      TerminateKeepsIds(s, h.id, outcome);
      if admit {
        CalmQueue(t, r.state);
      } else {
        CalmClose(t, Some(Failure(Local, FailureCode.ResourceLimit)), None, false);
      }
      CalmTwice(s, t, r.state);
    }
  }

  lemma CalmFail(s: State, id: u32, wire: ErrorCode, code: FailureCode, admit: bool)
    requires s.ids.Valid()
    ensures Calm(s, FailStream(s, id, wire, code, admit).state)
  {
    hide Terminate, EncodeError, Calm;
    var outcome := Failed(Failure(Local, code));
    var t := Terminate(s, id, outcome);
    CalmTerminate(s, id, outcome);
    TerminateKeepsIds(s, id, outcome);
    CalmQueue(t, FailStream(s, id, wire, code, admit).state);
    CalmTwice(s, t, FailStream(s, id, wire, code, admit).state);
  }

  lemma CalmGoaway(s: State, payload: seq<byte>, admit: bool)
    requires s.ids.Valid()
    ensures Calm(s, ReceiveGoaway(s, payload, admit).state)
  {
    hide DecodeGoAway, GoawayAcceptable, TerminateAll, Drain, Calm;
    CalmQueue(s, s);
    if DecodeGoAway(payload).Ok? {
      var last, code := DecodeGoAway(payload).value.0, DecodeGoAway(payload).value.1.code;
      var noted := s.(peerGoaway := Some(last),
                      drainFailure := if code != NoError then Some(Failure(Peer, FailureOf(code))) else s.drainFailure);
      var ids, outcome := IdsInOrder(RefusedBy(s, last)), Failed(Failure(Peer, Refused));
      var t := TerminateAll(noted, ids, outcome);
      CalmQueue(s, noted);
      CalmTerminateAll(noted, ids, outcome);
      assert t.ids.Valid() by { CalmIds(noted, t); }
      CalmDrain(t, Normal, admit);
      CalmTwice(s, noted, t);
      CalmTwice(s, t, Drain(t, Normal, admit).state);
    }
  }

  lemma CalmIds(s: State, t: State)
    requires Calm(s, t)
    ensures t.ids.Valid()
  {
  }

  lemma CalmAccepted(s: State, id: u32)
    requires s.ids.Valid() && Accept(s.ids, id).Ok?
    ensures Calm(s, s.(ids := Accept(s.ids, id).value))
  {
  }

  lemma CalmAdded(s: State, h: Handle, p: Protocol)
    requires s.ids.Valid() && Accept(s.ids, h.id).Ok?
    ensures Calm(s, AddStream(s.(ids := Accept(s.ids, h.id).value), h, p))
  {
  }

  lemma CalmRefuse(s: State, id: u32, code: ErrorCode, admit: bool)
    requires s.ids.Valid()
    ensures Calm(s, Refuse(s, id, code, admit).state)
  {
    hide Calm, EncodeError;
    CalmQueue(s, Refuse(s, id, code, admit).state);
  }

  lemma CalmOpen(s: State, f: Frame, registry: map<Protocol, Owner>, admit: bool)
    requires s.ids.Valid()
    ensures Calm(s, ReceiveOpen(s, f, registry, admit).state)
  {
    hide DecodeOpen, Calm, AddStream, Refuse, Accept;
    if Accept(s.ids, f.id).Err? {
      CalmQueue(s, s);
    } else {
      var t := s.(ids := Accept(s.ids, f.id).value);
      CalmAccepted(s, f.id);
      assert t.ids.Valid() by { CalmIds(s, t); }
      forall code: ErrorCode
        ensures Calm(s, Refuse(t, f.id, code, admit).state)
      {
        CalmRefuse(t, f.id, code, admit);
        CalmTwice(s, t, Refuse(t, f.id, code, admit).state);
      }
      if DecodeOpen(f.payload).Ok? && DecodeOpen(f.payload).value in registry {
        var p := DecodeOpen(f.payload).value;
        CalmAdded(s, Handle(s.connection, registry[p], f.id), p);
      }
    }
  }

  lemma CalmPing(s: State, kind: Kind, payload: seq<byte>, admit: bool)
    requires s.ids.Valid()
    ensures Calm(s, ReceivePing(s, kind, payload, admit).state)
  {
    hide DecodePing, EncodePing, Calm;
    CalmQueue(s, ReceivePing(s, kind, payload, admit).state);
  }

  lemma CalmData(s: State, f: Frame, admit: bool)
    requires s.ids.Valid() && f.id in s.streams
    ensures Calm(s, ReceiveData(s, f, admit).state)
  {
    hide FailStream, Buffered, Calm;
    CalmFail(s, f.id, StreamStateError, FailureCode.StreamState, admit);
    CalmFail(s, f.id, ErrorCode.ResourceLimit, FailureCode.ResourceLimit, admit);
    CalmQueue(s, Push(s, DataReceived(s.streams[f.id].handle, f.payload)));
  }

  /** A remote end leaves nothing finished in the table. */
  lemma MarksEnd(s: State, f: Frame, admit: bool, writing: Option<(Kind, u32)>, written: set<u32>)
    requires Marks(s, writing, written) && f.id in s.streams
    ensures Marks(ReceiveEnd(s, f, admit).state, writing, written)
  {
    hide FailStream;
    var st := s.streams[f.id];
    if f.payload != [] || !st.remoteOpen {
      CalmFail(s, f.id, StreamStateError, FailureCode.StreamState, admit);
      CalmKeeps(s, ReceiveEnd(s, f, admit).state, writing, written);
    } else {
      assert ReceiveEnd(s, f, admit).state.outbound == s.outbound;
    }
  }

  lemma MarksDispatch(s: State, f: Frame, registry: map<Protocol, Owner>, admit: bool,
                      writing: Option<(Kind, u32)>, written: set<u32>)
    requires Marks(s, writing, written)
    ensures Marks(Dispatch(s, f, registry, admit).state, writing, written)
  {
    hide Marks, Calm, ReceiveGoaway, ReceivePing, ReceiveOpen, ReceiveEnd, ReceiveData, DecodeError, Close, Terminate;
    assert s.ids.Valid() by { MarksIds(s, writing, written); }
    var t := Dispatch(s, f, registry, admit).state;
    if f.kind == Kind.End && f.id != 0 && s.ids.WasCreated(f.id) && f.id in s.streams {
      MarksEnd(s, f, admit, writing, written);
    } else {
      CalmQueue(s, s);
      CalmGoaway(s, f.payload, admit);
      CalmPing(s, f.kind, f.payload, admit);
      CalmOpen(s, f, registry, admit);
      if DecodeError(f.payload).Ok? {
        var code := DecodeError(f.payload).value.code;
        CalmClose(s, Some(Failure(Peer, FailureOf(code))), None, false);
        CalmTerminate(s, f.id, PeerOutcome(f.kind, code));
      }
      if f.id in s.streams {
        CalmData(s, f, admit);
      }
      CalmKeeps(s, t, writing, written);
    }
  }

  lemma MarksIds(s: State, writing: Option<(Kind, u32)>, written: set<u32>)
    requires Marks(s, writing, written)
    ensures s.ids.Valid()
  {
  }

  lemma MarksReceive(s: State, f: Frame, registry: map<Protocol, Owner>, now: Instant, admit: bool, admitError: bool,
                     writing: Option<(Kind, u32)>, written: set<u32>)
    requires Marks(s, writing, written)
    ensures Marks(Receive(s, f, registry, now, admit, admitError).state, writing, written)
  {
    hide Marks, Calm, Dispatch, Close, AllPingFailures, EventLimit;
    MarksIds(s, writing, written);
    var t := Tick(s, now);
    CalmQueue(s, t);
    CalmKeeps(s, t, writing, written);
    CalmClose(t, Some(Failure(Local, FailureCode.ResourceLimit)), None, false);
    CalmKeeps(t, Close(t, Some(Failure(Local, FailureCode.ResourceLimit)), None, false), writing, written);
    var r := Dispatch(t, f, registry, admit);
    MarksDispatch(t, f, registry, admit, writing, written);
    if r.result.Err? {
      MarksIds(r.state, writing, written);
      var failure, response := Some(FailureFor(r.result.error)), Some(ResponseFor(r.result.error));
      CalmClose(r.state, failure, response, admitError);
      CalmKeeps(r.state, Close(r.state, failure, response, admitError), writing, written);
    }
  }

  lemma MarksEnding(s: State, owner: Owner, h: Handle, admit: bool, writing: Option<(Kind, u32)>, written: set<u32>)
    requires Marks(s, writing, written) && forall id :: id in s.streams ==> s.ids.WasCreated(id)
    ensures Marks(EndStream(s, owner, h, admit).state, writing, written)
  {
    var t := EndStream(s, owner, h, admit).state;
    if t != s {
      assert t.outbound == s.outbound + [Frame(Kind.End, h.id, [])];
    }
  }

  lemma MarksSame(s: State, t: State, writing: Option<(Kind, u32)>, written: set<u32>)
    requires Marks(s, writing, written) && t.ids == s.ids && t.streams == s.streams && t.outbound == s.outbound
    ensures Marks(t, writing, written) && Marks(t, None, written)
  {
  }

  /** The END of a stream that is still there is out. */
  lemma MarksWritten(s: State, id: u32, written: set<u32>)
    requires Marks(s, Some((Kind.End, id)), written) && id in s.streams
    ensures Marks(Sent(s, Kind.End, id), None, written + {id})
  {
    assert !s.streams[id].localOpen;
    assert Sent(s, Kind.End, id).outbound == s.outbound && Sent(s, Kind.End, id).ids == s.ids;
  }

  /** A written END marks its stream, and completes it if the remote end came first. */
  lemma MarksSent(s: State, kind: Kind, id: u32, written: set<u32>)
    requires Marks(s, Some((kind, id)), written)
    ensures Marks(Sent(s, kind, id), None, if kind == Kind.End then written + {id} else written)
  {
    if kind == Kind.End && id in s.streams {
      MarksWritten(s, id, written);
    } else if kind != Kind.End {
      MarksSame(s, Sent(s, kind, id), Some((kind, id)), written);
    }
  }

  lemma MarksTaken(s: State, writing: Option<(Kind, u32)>, written: set<u32>)
    requires Marks(s, writing, written) && s.outbound != []
    ensures var (t, f) := PopOutbound(s); Marks(t, Some((f.value.kind, f.value.id)), written)
  {
    var i := Choice(s.lastOutput, s.outbound);
    assert forall g :: g in Without(s.outbound, i) ==> g in s.outbound;
    assert s.outbound[i] in s.outbound;
  }

  lemma CalmSend(s: State, owner: Owner, h: Handle, bytes: seq<byte>, admit: bool)
    requires s.ids.Valid()
    ensures Calm(s, Send(s, owner, h, bytes, admit).state)
  {
    hide Calm;
    CalmQueue(s, Send(s, owner, h, bytes, admit).state);
  }

  lemma CalmProbe(s: State, token: Token, timeout: nat, now: Instant, admit: bool)
    requires s.ids.Valid()
    ensures Calm(s, SendPing(s, token, timeout, now, admit).state)
  {
    hide Calm, EncodePing;
    CalmQueue(s, SendPing(s, token, timeout, now, admit).state);
  }

  lemma CalmTick(s: State, now: Instant)
    requires s.ids.Valid()
    ensures Calm(s, Tick(s, now))
  {
    hide Calm, AllPingFailures;
    CalmQueue(s, Tick(s, now));
  }

  lemma CalmPop(s: State, owner: Owner)
    requires s.ids.Valid()
    ensures Calm(s, PopEvent(s)) && Calm(s, PopStreamEvent(s, owner))
  {
    hide Calm, FirstVisible;
    CalmQueue(s, PopEvent(s));
    CalmQueue(s, PopStreamEvent(s, owner));
  }

  lemma CreatedAll(e: Endpoint)
    requires Orderly(e)
    ensures forall id :: id in e.s.streams ==> e.s.ids.WasCreated(id)
  {
    hide PhaseOf, Conclusion, Backlog;
    forall id | id in e.s.streams
      ensures e.s.ids.WasCreated(id)
    {
      FitsOwn(e, id);
    }
  }

  ghost predicate Marked(e: Endpoint) {
    Marks(e.s, e.writing, e.written)
  }

  lemma ActMarked(e: Endpoint, a: Action)
    requires Orderly(e) && Marked(e) && Enabled(e, a)
    ensures Marked(Act(e, a))
  {
    hide Marks, Calm, Orderly, OpenStream, Send, EndStream, CancelStream, SendPing, Tick, Drain, Close, Receive, Sent,
      PopOutbound, PopEvent, PopStreamEvent;
    var s := e.s;
    MarksIds(s, e.writing, e.written);
    match a {
      case Opening(owner, selection, admit, admitDrain) => CalmOpenStream(s, owner, selection, admit, admitDrain);
      case Sending(owner, stream, bytes, admit) => CalmSend(s, owner, stream, bytes, admit);
      case Ending(owner, stream, admit) =>
        assert forall id :: id in s.streams ==> s.ids.WasCreated(id) by { CreatedAll(e); }
        MarksEnding(s, owner, stream, admit, e.writing, e.written);
      case Cancelling(owner, stream, reason, admit) => CalmCancel(s, owner, stream, reason, admit);
      case Pinging(token, timeout, now, admit) => CalmProbe(s, token, timeout, now, admit);
      case Ticking(now) => CalmTick(s, now);
      case DrainingFor(shutdown, admit) => CalmDrain(s, shutdown, admit);
      case Closing(failure, response, admit) => CalmClose(s, failure, response, admit);
      case Receiving(f, registry, now, admit, admitError) =>
        MarksReceive(s, f, registry, now, admit, admitError, e.writing, e.written);
      case TakingOutput => MarksTaken(s, e.writing, e.written);
      case FinishingOutput => MarksSent(s, e.writing.value.0, e.writing.value.1, e.written);
      case TakingEvent => CalmPop(s, 0);
      case TakingStreamEvent(owner) => CalmPop(s, owner);
    }
    if !a.Ending? && !a.Receiving? && !a.TakingOutput? && !a.FinishingOutput? {
      CalmKeeps(s, Act(e, a).s, e.writing, e.written);
    }
  }

  lemma {:induction false} LifeMarked(life: seq<History>, k: nat)
    requires Life(life) && k < |life|
    ensures Marked(life[k].e)
  {
    hide Steps, Kept, Marks;
    if k == 0 {
      StartMarked(life[0]);
    } else {
      LifeKept(life, k - 1);
      LifeMarked(life, k - 1);
      assert Steps(life[k - 1], life[k]);
      NextMarked(life[k - 1], life[k]);
    }
  }

  lemma StartMarked(h: History)
    requires exists c: nat, role: Role, l: Limits :: h == History(Start(c, role, l), multiset{}, [])
    ensures Marked(h.e)
  {
  }

  lemma NextMarked(h: History, k: History)
    requires Kept(h) && Marked(h.e) && Steps(h, k)
    ensures Marked(k.e)
  {
    hide Orderly, Owed, Marked, Enabled, Act, Accepts, PopOutbound;
    var a: Action :| Enabled(h.e, a) && k == Follow(h, a);
    ActMarked(h.e, a);
  }

  /**
   Completion: at every point of every life, a stream whose remote end was reported and whose END is
   fully written has been closed; the table keeps no stream that is done in both directions.
   */
  lemma StreamsComplete(life: seq<History>, k: nat, id: u32)
    requires Life(life) && k < |life|
    ensures var e := life[k].e;
            && (EndedBefore(e.log, |e.log|, id) && id in e.written ==> ClosedIn(e.log, id))
            && Unfinished(e.s)
  {
    hide Life, Conclusion, Backlog, Owed, PhaseOf, Story, OpenedBy, ClosedIn;
    LifeMarked(life, k);
    LifeKept(life, k);
    StreamsLiveInOrder(life, k, id);
    var e := life[k].e;
    FitsOwn(e, id);
    PhaseTells(e.log, id);
    if EndedBefore(e.log, |e.log|, id) && id in e.written {
      assert !PhaseOf(e.log, id).Unborn? && !PhaseOf(e.log, id).Alive?;
    }
  }
}
