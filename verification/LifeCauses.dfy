/** Nothing comes from nothing: every event of a life has its cause in the call that emitted it. */
module LifeCauses {
  import opened Bytes
  import opened Codec
  import opened StreamNumbering
  import opened SessionTypes
  import opened SessionModel
  import opened SessionRun
  import opened LifeChanges
  import opened LifeReasons
  import opened Lifecycle

  /** Why a session as a whole may close. */
  ghost predicate ClosedBy(e: Endpoint, a: Action, cause: Option<Failure>) {
    || (a.Closing? && cause == CloseCause(e.s, a.failure))
    || (a.Cancelling? && !a.admit && cause == Some(Failure(Local, FailureCode.ResourceLimit)))
    || (a.Receiving? && a.frame.kind == Kind.Error && a.frame.id == 0 && DecodeError(a.frame.payload).Ok?
        && cause == Some(Failure(Peer, FailureOf(DecodeError(a.frame.payload).value.code))))
    || (a.Receiving? && cause == Some(Failure(Local, FailureCode.ResourceLimit)))
    || (a.Receiving? && cause == Some(Failure(Local, ProtocolViolation)))
  }

  /** The failure shared by everything a closing session leaves unfinished. */
  ghost predicate LeftBy(e: Endpoint, a: Action, f: Failure) {
    exists cause: Option<Failure> :: ClosedBy(e, a, cause) && f == Unfinished(cause)
  }

  /** Who a new stream belongs to and which protocol it speaks. */
  ghost predicate StartedBy(e: Endpoint, a: Action, h: Handle, p: Protocol) {
    && h.connection == e.s.connection
    && (|| (a.Opening? && e.s.ids.IsLocal(h.id) && a.owner == h.owner && a.selection == Some(p))
        || (a.Receiving? && !e.s.ids.IsLocal(h.id) && a.frame.kind == Kind.Open && a.frame.id == h.id
            && DecodeOpen(a.frame.payload) == Ok(p) && p in a.registry && a.registry[p] == h.owner))
  }

  /** Why a stream ends while its session goes on. */
  ghost predicate EndedBy(e: Endpoint, a: Action, id: u32, outcome: Outcome) {
    || (a.Cancelling? && a.stream.id == id && outcome == CancelledBy(Local, a.reason)
        && a.owner == a.stream.owner && a.stream.connection == e.s.connection)
    || (a.FinishingOutput? && outcome == Completed && e.writing == Some((Kind.End, id)))
    || (a.Receiving? && FrameEnds(e.s, a.frame, id, outcome))
  }

  /** The cause of one event in the call that emitted it; `closes` says that the session closed in that call. */
  ghost predicate Caused(e: Endpoint, a: Action, closes: bool, event: Event) {
    match event
    case Authenticated => false
    case StreamOpened(h, p) => StartedBy(e, a, h, p)
    case DataReceived(h, bytes) =>
      a.Receiving? && a.frame.kind == Kind.Data && a.frame.id == h.id && a.frame.payload == bytes
    case RemoteEnd(h) => a.Receiving? && a.frame.kind == Kind.End && a.frame.id == h.id && a.frame.payload == []
    case StreamClosed(h, outcome) =>
      || EndedBy(e, a, h.id, outcome)
      || (closes && outcome.Failed? && LeftBy(e, a, outcome.failure))
    case PingFinished(token, Ok(elapsed)) =>
      && a.Receiving? && a.frame.kind == Pong && DecodePing(a.frame.payload) == Ok(token)
      && token in e.s.pings && e.s.pings[token].0 + elapsed == a.now
    case PingFinished(token, Err(f)) =>
      || ((a.Ticking? || a.Receiving?) && token in e.s.pings && e.s.pings[token].1 <= a.now
          && f == Failure(Local, DeadlineExceeded))
      || (closes && LeftBy(e, a, f))
    case ConnectionClosed(cause) => closes && ClosedBy(e, a, cause)
  }

  /** What a closing session says for each thing it leaves behind. */
  predicate Farewells(event: Event, cause: Option<Failure>) {
    || (event.PingFinished? && event.elapsed == Err(Unfinished(cause)))
    || (event.StreamClosed? && event.outcome == Failed(Unfinished(cause)))
    || event == ConnectionClosed(cause)
  }

  lemma FarewellSays(s: State, cause: Option<Failure>)
    ensures forall i :: 0 <= i < |Farewell(s, cause)| ==> Farewells(Farewell(s, cause)[i], cause)
  {
    hide AllPingFailures, AllStreamFailures;
    FarewellParts(s, cause);
  }

  lemma FarewellCaused(e: Endpoint, a: Action, event: Event, cause: Option<Failure>)
    requires ClosedBy(e, a, cause) && Farewells(event, cause)
    ensures Caused(e, a, true, event)
  {
    hide ClosedBy, EndedBy;
    assert LeftBy(e, a, Unfinished(cause));
  }

  lemma ShutCaused(e: Endpoint, a: Action, s: State, cause: Option<Failure>)
    requires ClosedBy(e, a, cause)
    ensures forall i :: 0 <= i < |Farewell(s, cause)| ==> Caused(e, a, true, Farewell(s, cause)[i])
  {
    hide ClosedBy, Caused, Farewell, Farewells;
    FarewellSays(s, cause);
    forall i | 0 <= i < |Farewell(s, cause)|
      ensures Caused(e, a, true, Farewell(s, cause)[i])
    {
      FarewellCaused(e, a, Farewell(s, cause)[i], cause);
    }
  }

  lemma LapsedCaused(e: Endpoint, a: Action, closes: bool)
    requires a.Ticking? || a.Receiving?
    ensures var news := AllPingFailures(Expired(e.s, a.now), Failure(Local, DeadlineExceeded));
            forall i :: 0 <= i < |news| ==> Caused(e, a, closes, news[i])
  {
    hide LeftBy;
    var tokens := TokensInOrder(Expired(e.s, a.now));
    assert forall i :: 0 <= i < |tokens| ==> tokens[i] in tokens;
  }

  /** A frame's change has the frame as its cause. */
  lemma FrameCaused(e: Endpoint, a: Action, u: Endpoint, c: Change, closes: bool)
    requires a.Receiving? && FrameReason(Tick(e.s, a.now), a.frame, a.registry, c) && !c.Shut? && !c.Silent?
    requires Phases(u) && Possible(u.s, c)
    ensures forall i :: 0 <= i < |News(u.s, c)| ==> Caused(e, a, closes, News(u.s, c)[i])
  {
    hide Buffered, EventLimit, LeftBy, PhaseOf, AllPingFailures, DecodeOpen, DecodePing, DecodeError, DecodeGoAway;
    TickBuffers(e.s, a.now, a.frame.id);
    if c.Fed? || c.Halved? || c.Died? {
      FitsHandle(u, c.id);
    }
  }

  lemma ClosedByReason(e: Endpoint, a: Action, c: Change)
    requires Reason(e, a, c) && c.Shut?
    ensures ClosedBy(e, a, c.cause)
  {
    hide Tick, DecodeError;
  }

  lemma NewsCaused(e: Endpoint, a: Action, u: Endpoint, c: Change, closes: bool)
    requires Phases(u) && Possible(u.s, c) && Reason(e, a, c) && (c.Shut? ==> closes)
    ensures forall i :: 0 <= i < |News(u.s, c)| ==> Caused(e, a, closes, News(u.s, c)[i])
  {
    hide Phases, EventLimit, Buffered, LeftBy, ClosedBy, FrameReason, Farewell, AllPingFailures, Tick, FrameEnds;
    if c.Shut? {
      ClosedByReason(e, a, c);
      ShutCaused(e, a, u.s, c.cause);
    } else if c.Lapsed? && (a.Ticking? || a.Receiving?) {
      if c == Lapsed(Expired(e.s, a.now)) {
        LapsedCaused(e, a, closes);
      } else {
        LapsedByFrame(e, a, c);
      }
    } else if a.Receiving? && !c.Silent? {
      FrameCaused(e, a, u, c, closes);
    } else if c.Died? {
      FitsHandle(u, c.id);
    }
  }

  lemma LapsedByFrame(e: Endpoint, a: Action, c: Change)
    requires a.Receiving? && Reason(e, a, c) && c.Lapsed?
    ensures c == Lapsed(Expired(e.s, a.now))
  {
    hide Tick;
  }

  /** Every event of a path of changes has its cause in the call behind the path. */
  lemma {:induction false} PathCaused(e: Endpoint, a: Action, u: Endpoint, t: State, cs: seq<Change>, closes: bool)
    requires Orderly(u) && Path(u.s, t, cs) && Founded(u, cs) && AllReason(e, a, cs)
    requires t.closed && !u.s.closed ==> closes
    ensures u.s.events <= t.events
    ensures forall i :: |u.s.events| <= i < |t.events| ==> Caused(e, a, closes, t.events[i])
    decreases |cs|
  {
    hide Orderly, Caused, Reason, Possible, News, StreamsAfter, PingsAfter, Numbering, SameStreams, Tidy;
    if cs != [] {
      var v: State :| Changes(u.s, v, cs[0]) && Path(v, t, cs[1..]);
      var news := News(u.s, cs[0]);
      assert Founded(u, [cs[0]]);
      OrderlyAfter(u, v, cs[0]);
      ShutCloses(u.s, v, cs[0]);
      if v.closed {
        PathStaysClosed(v, t, cs[1..]);
      }
      PathCaused(e, a, u.(s := v, log := u.log + news), t, cs[1..], closes);
      assert Phases(u) by { PhasesHold(u); }
      NewsCaused(e, a, u, cs[0], closes);
      assert forall i :: |u.s.events| <= i < |v.events| ==> t.events[i] == news[i - |u.s.events|];
    }
  }

  lemma PhasesHold(u: Endpoint)
    requires Orderly(u)
    ensures Phases(u)
  {
  }

  lemma ShutCloses(s: State, t: State, c: Change)
    requires Changes(s, t, c)
    ensures c.Shut? ==> !s.closed && t.closed
    ensures s.closed ==> t.closed
  {
    hide Tidy, News, StreamsAfter, PingsAfter, SameStreams, Numbering, EventLimit, Buffered;
  }

  ghost predicate Closes(e: Endpoint, f: Endpoint) {
    !e.s.closed && f.s.closed
  }

  /** This call made the step, and the event has its cause in it. */
  ghost predicate Explains(h: History, k: History, a: Action, event: Event) {
    Enabled(h.e, a) && k == Follow(h, a) && Caused(h.e, a, Closes(h.e, k.e), event)
  }

  lemma ActCaused(e: Endpoint, a: Action)
    requires Orderly(e) && Enabled(e, a)
    ensures e.log <= Act(e, a).log
    ensures forall i :: |e.log| <= i < |Act(e, a).log| ==> Caused(e, a, Closes(e, Act(e, a)), Act(e, a).log[i])
  {
    hide Orderly, Caused, Reason, AllReason, Path, Founded, FirstVisible, OpenStream, Send, EndStream, CancelStream,
      SendPing, Tick, Drain, Close, Receive, Sent, PopOutbound, PopEvent, PopStreamEvent;
    if !a.TakingOutput? && !a.TakingEvent? && !a.TakingStreamEvent? {
      var before, t, cs := PathAct(e, a);
      OrderlyLater(e, before);
      PathCaused(e, a, before, t, cs, Closes(e, Act(e, a)));
      assert forall i :: |e.log| <= i < |Act(e, a).log| ==> Act(e, a).log[i] == t.events[|e.s.events| + i - |e.log|];
    }
  }

  /**
   Every event of every life has its cause in the call that emitted it: data, ends and probe answers
   in the very frame that carried them, a stream's owner and protocol in the caller's selection or the
   registry's entry for the peer's, failures in a fault, a limit or the peer's word.
   */
  lemma EveryEventHasItsCause(life: seq<History>, k: nat, i: nat) returns (a: Action)
    requires Life(life) && 0 < k < |life| && |life[k - 1].e.log| <= i < |life[k].e.log|
    ensures Explains(life[k - 1], life[k], a, life[k].e.log[i])
  {
    hide Enabled, Act, Caused, Orderly, Accepts, PopOutbound, Owed;
    LifeKept(life, k - 1);
    var h := life[k - 1];
    assert Steps(h, life[k]);
    a :| Enabled(h.e, a) && life[k] == Follow(h, a);
    ActCaused(h.e, a);
  }
}
