/** The promises of a session, read off its whole life. */
module LifePromises {
  import opened Bytes
  import opened Codec
  import opened StreamNumbering
  import opened SessionTypes
  import opened Scheduler
  import opened SessionModel
  import opened SessionRun
  import opened LifeChanges
  import opened Lifecycle

  predicate About(e: Event, id: u32) {
    ConcernsStream(e) && e.stream.id == id
  }

  ghost predicate OpenedBy(log: seq<Event>, j: nat, id: u32) {
    exists i :: 0 <= i <= j && i < |log| && About(log[i], id) && log[i].StreamOpened?
  }

  ghost predicate EndedBefore(log: seq<Event>, j: nat, id: u32) {
    exists i :: 0 <= i < j && i < |log| && About(log[i], id) && log[i].RemoteEnd?
  }

  ghost predicate ClosedIn(log: seq<Event>, id: u32) {
    exists i :: 0 <= i < |log| && About(log[i], id) && log[i].StreamClosed?
  }

  /**
   The story of one stream, by positions in the log: opened first and once, data until the remote
   end, at most one remote end, closed last and once, completed only after the remote end, and all
   of it under one handle.
   */
  ghost predicate Story(log: seq<Event>, id: u32) {
    && (forall i, j :: 0 <= i < j < |log| && About(log[i], id) && About(log[j], id) ==>
          && log[i].stream == log[j].stream
          && !log[j].StreamOpened? && !log[i].StreamClosed?
          && (log[i].RemoteEnd? ==> log[j].StreamClosed?))
    && (forall j :: 0 <= j < |log| && About(log[j], id) ==> OpenedBy(log, j, id))
    && (forall j :: 0 <= j < |log| && About(log[j], id) && log[j].StreamClosed? && log[j].outcome == Completed ==>
          EndedBefore(log, j, id))
  }

  /** What the phase of a stream says about the positions of its events. */
  ghost predicate Reads(log: seq<Event>, id: u32, p: Phase) {
    match p
    case Unborn => forall i :: 0 <= i < |log| ==> !About(log[i], id)
    case Alive(h) =>
      && (forall i :: 0 <= i < |log| && About(log[i], id) ==>
            log[i].stream == h && !log[i].RemoteEnd? && !log[i].StreamClosed?)
      && OpenedBy(log, |log|, id)
    case HalfClosed(h) =>
      && (forall i :: 0 <= i < |log| && About(log[i], id) ==> log[i].stream == h && !log[i].StreamClosed?)
      && OpenedBy(log, |log|, id) && EndedBefore(log, |log|, id)
    case Dead(h, outcome) =>
      && (forall i :: 0 <= i < |log| && About(log[i], id) ==>
            log[i].stream == h && (log[i].StreamClosed? ==> log[i].outcome == outcome))
      && OpenedBy(log, |log|, id) && ClosedIn(log, id)
    case Disordered => true
  }

  lemma Grown(log: seq<Event>, e: Event, id: u32)
    ensures forall j: nat :: OpenedBy(log, j, id) ==> OpenedBy(log + [e], j, id)
    ensures forall j: nat :: EndedBefore(log, j, id) ==> EndedBefore(log + [e], j, id)
    ensures OpenedBy(log, |log|, id) ==> OpenedBy(log + [e], |log|, id) && OpenedBy(log + [e], |log| + 1, id)
    ensures EndedBefore(log, |log|, id) ==> EndedBefore(log + [e], |log|, id) && EndedBefore(log + [e], |log| + 1, id)
    ensures ClosedIn(log, id) ==> ClosedIn(log + [e], id)
  {
    assert forall i :: 0 <= i < |log| ==> (log + [e])[i] == log[i];
  }

  lemma Latest(log: seq<Event>, e: Event, id: u32)
    requires About(e, id)
    ensures e.StreamOpened? ==> OpenedBy(log + [e], |log|, id) && OpenedBy(log + [e], |log| + 1, id)
    ensures e.RemoteEnd? ==> EndedBefore(log + [e], |log| + 1, id)
    ensures e.StreamClosed? ==> ClosedIn(log + [e], id)
  {
    assert (log + [e])[|log|] == e;
  }

  /** An ordered phase is exactly a well-told story. */
  lemma {:induction false} PhaseTells(log: seq<Event>, id: u32)
    ensures PhaseOf(log, id) != Disordered ==> Story(log, id) && Reads(log, id, PhaseOf(log, id))
  {
    if log != [] {
      var n := |log| - 1;
      PhaseTells(log[..n], id);
      PhaseTellsNext(log[..n], log[n], id);
      assert log == log[..n] + [log[n]];
    }
  }

  lemma PhaseTellsNext(log: seq<Event>, e: Event, id: u32)
    requires PhaseOf(log, id) != Disordered ==> Story(log, id) && Reads(log, id, PhaseOf(log, id))
    ensures var p := PhaseOf(log + [e], id);
            p != Disordered ==> Story(log + [e], id) && Reads(log + [e], id, p)
  {
    hide PhaseOf, OpenedBy, EndedBefore, ClosedIn;
    PhasePush(log, e, id);
    var p, q, all := PhaseOf(log, id), PhaseOf(log + [e], id), log + [e];
    if q != Disordered {
      assert p != Disordered;
      Grown(log, e, id);
      assert all[|log|] == e;
      assert forall i :: 0 <= i < |log| ==> all[i] == log[i];
      if About(e, id) {
        Latest(log, e, id);
        assert !p.Unborn? ==> OpenedBy(all, |log|, id);
        assert p.HalfClosed? ==> EndedBefore(all, |log|, id);
      }
    }
  }

  /** Conversely, a disordered phase is a badly told story. */
  lemma {:induction false} StoryPrefix(log: seq<Event>, n: nat, id: u32)
    requires n <= |log| && Story(log, id)
    ensures Story(log[..n], id)
  {
    var cut := log[..n];
    assert forall i :: 0 <= i < n ==> cut[i] == log[i];
    forall j | 0 <= j < n && About(cut[j], id)
      ensures OpenedBy(cut, j, id)
    {
      assert OpenedBy(log, j, id);
      var i :| 0 <= i <= j && i < |log| && About(log[i], id) && log[i].StreamOpened?;
      assert cut[i] == log[i];
    }
    forall j | 0 <= j < n && About(cut[j], id) && cut[j].StreamClosed? && cut[j].outcome == Completed
      ensures EndedBefore(cut, j, id)
    {
      assert EndedBefore(log, j, id);
      var i :| 0 <= i < j && i < |log| && About(log[i], id) && log[i].RemoteEnd?;
      assert cut[i] == log[i];
    }
  }

  lemma {:induction false} StoryIsOrdered(log: seq<Event>, id: u32)
    requires Story(log, id)
    ensures PhaseOf(log, id) != Disordered
  {
    hide Story, Reads, PhaseOf;
    if log == [] {
      NothingTold(id);
    } else {
      var n := |log| - 1;
      var before, e := log[..n], log[n];
      assert log == before + [e];
      StoryPrefix(log, n, id);
      StoryIsOrdered(before, id);
      PhaseTells(before, id);
      PhasePush(before, e, id);
      if About(e, id) {
        StoryNext(before, e, id);
      }
    }
  }

  lemma NothingTold(id: u32)
    ensures PhaseOf([], id) == Unborn
  {
  }

  lemma StoryNext(before: seq<Event>, e: Event, id: u32)
    requires Story(before + [e], id) && About(e, id)
    requires PhaseOf(before, id) != Disordered && Reads(before, id, PhaseOf(before, id))
    ensures After(PhaseOf(before, id), e, id) != Disordered
  {
    hide PhaseOf, Story;
    var p, n := PhaseOf(before, id), |before|;
    StoryLast(before, e, id);
    if p.Alive? || p.HalfClosed? {
      var i :| 0 <= i <= n && i < |before| && About(before[i], id) && before[i].StreamOpened?;
      assert before[i].stream == e.stream;
    }
  }

  /** What a story says about its last event. */
  lemma StoryLast(before: seq<Event>, e: Event, id: u32)
    requires Story(before + [e], id) && About(e, id)
    ensures forall i :: 0 <= i < |before| && About(before[i], id) ==>
              && before[i].stream == e.stream && !e.StreamOpened? && !before[i].StreamClosed?
              && (before[i].RemoteEnd? ==> e.StreamClosed?)
    ensures !e.StreamOpened? ==> OpenedBy(before, |before|, id)
    ensures e.StreamClosed? && e.outcome == Completed ==> EndedBefore(before, |before|, id)
  {
    var all, n := before + [e], |before|;
    assert all[n] == e && forall i :: 0 <= i < n ==> all[i] == before[i];
    assert OpenedBy(all, n, id);
    if e.StreamClosed? && e.outcome == Completed {
      assert EndedBefore(all, n, id);
    }
  }

  /** The automaton and the positional reading agree on every log. */
  lemma PhasesMeanStories(log: seq<Event>, id: u32)
    ensures PhaseOf(log, id) != Disordered <==> Story(log, id)
  {
    PhaseTells(log, id);
    if Story(log, id) {
      StoryIsOrdered(log, id);
    }
  }

  /**
   Stream lifecycle: at every point of every life each stream's events tell a proper story;
   Completed implies a fully written END; and an opened stream has its Closed event exactly when it
   has left the table, which closure empties.
   */
  lemma StreamsLiveInOrder(life: seq<History>, k: nat, id: u32)
    requires Life(life) && k < |life|
    ensures var e := life[k].e;
            && Story(e.log, id)
            && (forall i :: 0 <= i < |e.log| && About(e.log[i], id)
                            && e.log[i].StreamClosed? && e.log[i].outcome == Completed ==>
                  id in e.written)
            && (OpenedBy(e.log, |e.log|, id) ==> (ClosedIn(e.log, id) <==> id !in e.s.streams))
            && (e.s.closed ==> id !in e.s.streams)
  {
    hide Life, Conclusion, Backlog, Owed, PhaseOf, Story, OpenedBy;
    LifeKept(life, k);
    var e := life[k].e;
    FitsOwn(e, id);
    PhaseTells(e.log, id);
    if OpenedBy(e.log, |e.log|, id) {
      assert !PhaseOf(e.log, id).Unborn? by { NotUnborn(e.log, id); }
    }
    forall i | 0 <= i < |e.log| && About(e.log[i], id) && e.log[i].StreamClosed? && e.log[i].outcome == Completed
      ensures id in e.written
    {
      assert PhaseOf(e.log, id).Dead?;
    }
  }

  lemma NotUnborn(log: seq<Event>, id: u32)
    requires OpenedBy(log, |log|, id) && Reads(log, id, PhaseOf(log, id))
    ensures !PhaseOf(log, id).Unborn?
  {
    var i :| 0 <= i <= |log| && i < |log| && About(log[i], id) && log[i].StreamOpened?;
  }

  /** Every accepted probe has its one result, or is still pending; after closure none is pending. */
  lemma EveryProbeIsAnswered(life: seq<History>, k: nat, token: Token)
    requires Life(life) && k < |life|
    ensures var h := life[k];
            && h.accepted[token] == Results(h.e.log, token) + (if token in h.e.s.pings then 1 else 0)
            && (h.e.s.closed ==> h.accepted[token] == Results(h.e.log, token))
  {
    hide Life, Phases, Backlog;
    LifeKept(life, k);
    assert life[k].accepted[token] == Owed(life[k].e, token);
  }

  /** Closure is reported exactly once, as the very last event. */
  lemma ClosureIsLast(life: seq<History>, k: nat)
    requires Life(life) && k < |life|
    ensures var e := life[k].e;
            && (forall i :: 0 <= i < |e.log| && e.log[i].ConnectionClosed? ==> i == |e.log| - 1)
            && (e.s.closed <==> e.log != [] && e.log[|e.log| - 1].ConnectionClosed?)
  {
    hide Life, Phases, Backlog, Owed;
    LifeKept(life, k);
  }

  /** Consumers that take nothing still cannot make a session hold more than this. */
  lemma BacklogIsBounded(life: seq<History>, k: nat, id: u32)
    requires Life(life) && k < |life|
    ensures var s := life[k].e.s;
            && |s.streams| <= s.limits.streams
            && |s.pings| <= MAX_PENDING_PINGS
            && Buffered(s.events, id) <= s.limits.bufferedPerStream
            && Load(s.events) <= EventLimit(s.limits) + s.limits.streams + 1
  {
    hide Life, Phases, Conclusion, Owed, EventLimit, Load, Buffered;
    LifeKept(life, k);
  }

  /** No OPEN reaches the wire after GOAWAY. */
  lemma NoOpenAfterGoaway(life: seq<History>, k: nat, i: nat, j: nat)
    requires Life(life) && k < |life| && i < j < |life[k].wire|
    requires life[k].wire[i].kind == GoAway
    ensures life[k].wire[j].kind != Kind.Open
  {
    hide Life;
    LifeWire(life, k);
  }

  // ---------------------------------------------------------------- probe results escape the event limit

  /** No output is waiting or being written, and no probe is pending. */
  predicate Idle(e: Endpoint) {
    !e.s.closed && e.s.pings == map[] && e.s.outbound == [] && e.writing.None?
  }

  /** Frames that hold a reservation of the output budget: queued ones and the one being written. */
  function Reserved(e: Endpoint): nat {
    |e.s.outbound| + if e.writing.Some? then 1 else 0
  }

  lemma ProbeStarted(e: Endpoint)
    requires Idle(e) && e.clock < e.s.limits.lastInstant
    ensures var a := Pinging(0, 1, e.clock, true);
            && Enabled(e, a)
            && Act(e, a) == e.(s := e.s.(pings := map[0 := (e.clock, e.clock + 1)],
                                         outbound := [Frame(Ping, 0, EncodePing(0))]))
  {
    hide EncodePing;
    assert Act(e, Pinging(0, 1, e.clock, true)).log == e.log;
  }

  lemma ProbeTaken(e: Endpoint)
    requires e.s.outbound == [Frame(Ping, 0, EncodePing(0))] && e.writing.None?
    ensures Enabled(e, TakingOutput)
    ensures Act(e, TakingOutput) == e.(s := e.s.(lastOutput := Some(0), outbound := []), writing := Some((Ping, 0)))
  {
    hide EncodePing;
    assert Choice(e.s.lastOutput, e.s.outbound) == 0;
    assert Without(e.s.outbound, 0) == [];
  }

  lemma ProbeSent(e: Endpoint)
    requires e.writing == Some((Ping, 0))
    ensures Enabled(e, FinishingOutput) && Act(e, FinishingOutput) == e.(writing := None)
  {
    assert Act(e, FinishingOutput).log == e.log;
  }

  lemma ProbeExpires(e: Endpoint)
    requires e.s.pings == map[0 := (e.clock, e.clock + 1)] && !e.s.closed && e.s.outbound == [] && e.writing.None?
    ensures Enabled(e, Ticking(e.clock + 1))
    ensures var f := Act(e, Ticking(e.clock + 1));
            && Idle(f) && f.clock == e.clock + 1 && f.s.limits == e.s.limits
            && |f.s.events| == |e.s.events| + 1
  {
    hide AllPingFailures;
    var lapsed := Expired(e.s, e.clock + 1);
    assert lapsed == {0};
    assert e.s.pings - lapsed == map[];
    OneResult(lapsed);
  }

  lemma OneResult(tokens: set<Token>)
    ensures |AllPingFailures(tokens, Failure(Local, DeadlineExceeded))| == |tokens|
  {
    AscendingVisit(tokens, Ascending(tokens));
  }

  /** One more call at the end of a life. */
  lemma Prolong(life: seq<History>, a: Action) returns (longer: seq<History>)
    requires Life(life) && Enabled(life[|life| - 1].e, a)
    ensures Life(longer) && |longer| == |life| + 1 && life <= longer && longer[|life|] == Follow(life[|life| - 1], a)
  {
    hide Follow, Enabled;
    var n := |life|;
    longer := life + [Follow(life[n - 1], a)];
    assert longer[0] == life[0];
    forall k | 0 < k < |longer|
      ensures Steps(longer[k - 1], longer[k])
    {
      assert k < n ==> Steps(life[k - 1], life[k]);
    }
  }

  /** One round: a probe is started, written out and left unanswered until its deadline. */
  lemma Round(life: seq<History>) returns (longer: seq<History>)
    requires Life(life) && Idle(life[|life| - 1].e)
    requires life[|life| - 1].e.clock < life[|life| - 1].e.s.limits.lastInstant
    requires forall k :: 0 <= k < |life| ==> Reserved(life[k].e) <= 1
    ensures Life(longer) && life <= longer
    ensures forall k :: 0 <= k < |longer| ==> Reserved(longer[k].e) <= 1
    ensures var e, f := life[|life| - 1].e, longer[|longer| - 1].e;
            Idle(f) && f.clock == e.clock + 1 && f.s.limits == e.s.limits && |f.s.events| == |e.s.events| + 1
  {
    hide Act, Enabled, Steps, Accepts, PopOutbound, EncodePing;
    var e := life[|life| - 1].e;
    ProbeStarted(e);
    longer := Prolong(life, Pinging(0, 1, e.clock, true));
    ProbeTaken(longer[|longer| - 1].e);
    longer := Prolong(longer, TakingOutput);
    ProbeSent(longer[|longer| - 1].e);
    longer := Prolong(longer, FinishingOutput);
    var waiting := longer[|longer| - 1].e;
    ProbeExpires(waiting);
    longer := Prolong(longer, Ticking(e.clock + 1));
  }

  /**
   The event limit does not bound the queue as a whole: probing and waiting, with nothing received,
   no event taken and every PING written before the next one is queued, makes it as long as desired
   for as long as the clock can represent deadlines.
   */
  lemma {:induction false} ProbeResultsPileUp(c: nat, role: Role, l: Limits, n: nat) returns (life: seq<History>)
    requires n <= l.lastInstant
    ensures Life(life) && life[0].e == Start(c, role, l)
    ensures forall k :: 0 <= k < |life| ==> Reserved(life[k].e) <= 1
    ensures var e := life[|life| - 1].e;
            |e.s.events| == n + 1 && Idle(e) && e.clock == n && e.s.limits == l
  {
    if n == 0 {
      life := [History(Start(c, role, l), multiset{}, [])];
    } else {
      life := ProbeResultsPileUp(c, role, l, n - 1);
      life := Round(life);
    }
  }

  /** Everything queued or still to be queued for what is already under way. */
  ghost function Total(s: State): nat {
    |s.events| + |s.pings| + Weight(s)
  }

  /** The event limit, and room for what may still be owed when the last admitted stream starts. */
  function Ceiling(l: Limits): nat {
    EventLimit(l) + MAX_PENDING_PINGS + l.streams + 1
  }

  ghost predicate Lean(s: State) {
    Total(s) <= Ceiling(s.limits)
  }

  lemma NewsLength(s: State, c: Change)
    requires Possible(s, c)
    ensures c.Lapsed? ==> |News(s, c)| == |c.tokens|
    ensures c.Shut? ==> |News(s, c)| == |s.pings| + |s.streams| + 1
  {
    hide EventLimit, Buffered;
    if c.Lapsed? {
      OneResult(c.tokens);
    } else if c.Shut? {
      AscendingVisit(s.pings.Keys, Ascending(s.pings.Keys));
      AscendingVisit(s.streams.Keys, Ascending(s.streams.Keys));
    }
  }

  lemma TotalAfter(s: State, t: State, c: Change)
    requires Changes(s, t, c)
    ensures Total(t) <= Total(s) + if c.Born? then 2 else if c.Fed? || c.Halved? || c.Probed? then 1 else 0
  {
    hide EventLimit, Buffered, Tidy, AllPingFailures, Farewell, Load;
    LoadAfter(s, t, c);
    PingCount(s, t, c);
    NewsLength(s, c);
  }

  lemma LeanAfter(s: State, t: State, c: Change)
    requires Lean(s) && Changes(s, t, c) && |s.streams| <= s.limits.streams && |s.pings| <= MAX_PENDING_PINGS
    requires c.Probed? ==> Total(s) < Ceiling(s.limits)
    ensures Lean(t)
  {
    hide EventLimit, News, StreamsAfter, PingsAfter, Tidy, Buffered, Numbering, SameStreams;
    TotalAfter(s, t, c);
  }

  lemma {:induction false} LeanPath(e: Endpoint, t: State, cs: seq<Change>)
    requires Orderly(e) && Path(e.s, t, cs) && Founded(e, cs) && Lean(e.s)
    requires forall i :: 0 <= i < |cs| && cs[i].Probed? ==> i == 0 && Total(e.s) < Ceiling(e.s.limits)
    ensures Lean(t)
    decreases |cs|
  {
    hide Orderly, Possible, News, StreamsAfter, PingsAfter, Numbering, SameStreams, Tidy, Lean, EventLimit;
    if cs != [] {
      var u: State :| Changes(e.s, u, cs[0]) && Path(u, t, cs[1..]);
      assert |e.s.streams| <= e.s.limits.streams && |e.s.pings| <= MAX_PENDING_PINGS by { Holds(e); }
      LeanAfter(e.s, u, cs[0]);
      assert Founded(e, [cs[0]]);
      OrderlyAfter(e, u, cs[0]);
      LeanPath(e.(s := u, log := e.log + News(e.s, cs[0])), t, cs[1..]);
    }
  }

  lemma Holds(e: Endpoint)
    requires Orderly(e)
    ensures |e.s.streams| <= e.s.limits.streams && |e.s.pings| <= MAX_PENDING_PINGS
    ensures e.s.closed ==> e.s.streams == map[] && e.s.pings == map[]
  {
    hide Phases, EventLimit, Load, Buffered;
  }

  lemma {:induction false} ProbesFirst(cs: seq<Change>)
    requires forall token :: Probes(cs, token) == 0
    ensures forall i :: 0 <= i < |cs| ==> !cs[i].Probed?
  {
    if cs != [] {
      forall token
        ensures Probes(cs[1..], token) == 0
      {
        assert Probes(cs, token) == 0;
      }
      var token := if cs[0].Probed? then cs[0].token else 0;
      assert Probes(cs, token) == 0;
      ProbesFirst(cs[1..]);
    }
  }

  lemma LeanStep(h: History, a: Action)
    requires Kept(h) && Lean(h.e.s) && Enabled(h.e, a)
    requires Accepts(h.e, a) ==> Total(h.e.s) < Ceiling(h.e.s.limits)
    ensures Lean(Follow(h, a).e.s)
  {
    hide Orderly, Path, Founded, EventLimit, Lean, Owed, Accepts;
    var e := h.e;
    if a.TakingOutput? || a.TakingEvent? || a.TakingStreamEvent? {
      LeanTaken(e.s, Act(e, a).s);
    } else if a.Pinging? {
      LeanProbe(e, a);
    } else {
      var before, t, cs := PathAct(e, a);
      OrderlyLater(e, before);
      NotAPing(e, a);
      ProbesFirst(cs);
      LeanPath(before, t, cs);
    }
  }

  lemma LeanProbe(e: Endpoint, a: Action)
    requires Orderly(e) && Lean(e.s) && a.Pinging? && Enabled(e, a)
    requires Accepts(e, a) ==> Total(e.s) < Ceiling(e.s.limits)
    ensures Lean(Act(e, a).s)
  {
    hide Orderly, Path, EventLimit, Lean, SendPing;
    var before := e.(clock := a.now);
    assert e.s.ids.Valid() by { ValidNow(e); }
    var cs := PathPing(e.s, a.token, a.timeout, a.now, a.admit);
    OrderlyLater(e, before);
    LeanPath(before, SendPing(e.s, a.token, a.timeout, a.now, a.admit).state, cs);
  }

  lemma LeanTaken(s: State, t: State)
    requires Lean(s) && |t.events| <= |s.events|
    requires t.pings == s.pings && t.streams == s.streams && t.closed == s.closed && t.limits == s.limits
    ensures Lean(t)
  {
  }

  /** An accepted probe owes exactly one event more. */
  lemma ProbeCosts(e: Endpoint, a: Action)
    requires Enabled(e, a) && Accepts(e, a)
    ensures Total(Act(e, a).s) == Total(e.s) + 1 && Act(e, a).s.limits == e.s.limits
    ensures !e.s.closed && |e.s.pings| < MAX_PENDING_PINGS
  {
    hide EncodePing;
    KeySet(e.s.pings, a.token, (a.now, a.now + a.timeout));
  }

  /** An accepted probe is visible in the account, and nothing else is. */
  lemma AccountMoves(h: History, a: Action)
    requires Enabled(h.e, a)
    ensures Follow(h, a).accepted != h.accepted <==> Accepts(h.e, a)
  {
    hide Act, Accepts, PopOutbound;
    if Accepts(h.e, a) {
      assert Follow(h, a).accepted[a.token] == h.accepted[a.token] + 1 by { AcceptsIsPing(h.e, a); }
    }
  }

  /** What the owed total means: the length of the queue if the session closed at once. */
  lemma TotalIsLengthAtClosure(life: seq<History>, k: nat, failure: Option<Failure>, response: Option<ErrorCode>,
                               admit: bool)
    requires Life(life) && k < |life|
    ensures |Close(life[k].e.s, failure, response, admit).events| == Total(life[k].e.s)
  {
    hide Life, Steps, Owed, Orderly, Farewell, CloseOutput;
    LifeKept(life, k);
    var s := life[k].e.s;
    Holds(life[k].e);
    if !s.closed {
      NewsLength(s, Shut(CloseCause(s, failure)));
    }
  }

  /** A probe was started in this step, and the owed total was below the ceiling. */
  ghost predicate Afforded(h: History, k: History) {
    k.accepted != h.accepted ==> Total(h.e.s) < Ceiling(h.e.s.limits)
  }

  lemma LeanNext(h: History, k: History)
    requires Kept(h) && Steps(h, k) && Lean(h.e.s)
    ensures Lean(k.e.s) <==> Afforded(h, k)
  {
    hide Kept, Follow, Enabled, EventLimit, Accepts;
    var a: Action :| Enabled(h.e, a) && k == Follow(h, a);
    AccountMoves(h, a);
    if Afforded(h, k) {
      LeanStep(h, a);
    } else {
      assert k.e == Act(h.e, a) by { FollowActs(h, a); }
      ProbeCosts(h.e, a);
    }
  }

  lemma FollowActs(h: History, a: Action)
    requires Enabled(h.e, a)
    ensures Follow(h, a).e == Act(h.e, a)
  {
    hide Act;
  }

  /**
   Exactly when the queue stays bounded, whatever happens next: a life never owes more events than
   the ceiling exactly when each of its probes was started below it.
   */
  lemma {:induction false} BoundedExactlyWhenAfforded(life: seq<History>, n: nat)
    requires Life(life) && n < |life|
    ensures (forall k :: 0 <= k <= n ==> Lean(life[k].e.s)) <==>
              (forall k :: 0 < k <= n ==> Afforded(life[k - 1], life[k]))
  {
    hide Steps, Kept, EventLimit, Lean, Afforded;
    if n == 0 {
      assert Lean(life[0].e.s) by { StartsLean(life[0]); }
    } else {
      BoundedExactlyWhenAfforded(life, n - 1);
      if forall k :: 0 <= k < n ==> Lean(life[k].e.s) {
        assert Lean(life[n - 1].e.s);
        LifeKept(life, n - 1);
        assert Steps(life[n - 1], life[n]);
        LeanNext(life[n - 1], life[n]);
      }
    }
  }

  lemma StartsLean(h: History)
    requires exists c: nat, role: Role, l: Limits :: h == History(Start(c, role, l), multiset{}, [])
    ensures Lean(h.e.s)
  {
  }

  /** Probing only while the event queue is below its limit, the guard every other call has. */
  ghost predicate GuardedStep(h: History, k: History) {
    exists a: Action ::
      Enabled(h.e, a) && k == Follow(h, a) && (a.Pinging? ==> |h.e.s.events| < EventLimit(h.e.s.limits))
  }

  lemma GuardAffords(h: History, k: History)
    requires Kept(h) && GuardedStep(h, k)
    ensures Afforded(h, k)
  {
    hide Orderly, Owed, Follow, Enabled, EventLimit, Accepts;
    var a: Action :| Enabled(h.e, a) && k == Follow(h, a) && (a.Pinging? ==> |h.e.s.events| < EventLimit(h.e.s.limits));
    AccountMoves(h, a);
    Holds(h.e);
    if Accepts(h.e, a) {
      AcceptsIsPing(h.e, a);
      ProbeCosts(h.e, a);
    }
  }

  /** With that guard the whole queue is bounded, probe results included. */
  lemma GuardedProbesStayBounded(life: seq<History>, k: nat)
    requires Life(life) && k < |life|
    requires forall i :: 0 < i < |life| ==> GuardedStep(life[i - 1], life[i])
    ensures Lean(life[k].e.s)
    ensures |life[k].e.s.events| <= Ceiling(life[k].e.s.limits)
  {
    hide GuardedStep, Steps, Kept, Afforded, Life, Ceiling;
    forall i | 0 < i <= k
      ensures Afforded(life[i - 1], life[i])
    {
      LifeKept(life, i - 1);
      assert GuardedStep(life[i - 1], life[i]);
      GuardAffords(life[i - 1], life[i]);
    }
    BoundedExactlyWhenAfforded(life, k);
  }
}
