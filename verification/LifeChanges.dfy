/** The elementary changes a session goes through, and what each keeps of its public history. */
module LifeChanges {
  import opened Bytes
  import opened Codec
  import opened StreamNumbering
  import opened SessionTypes
  import opened Lines
  import opened SessionModel
  import opened SessionRun

  /** Where one stream stands in the events emitted for it. */
  datatype Phase =
    | Unborn
    | Alive(handle: Handle)
    | HalfClosed(handle: Handle)
    | Dead(handle: Handle, outcome: Outcome)
    | Disordered

  /** The only order events of one stream may take; anything else breaks it for good. */
  function After(p: Phase, e: Event, id: u32): Phase {
    if !ConcernsStream(e) || e.stream.id != id then p
    else
      match e
      case StreamOpened(h, _) => if p.Unborn? then Alive(h) else Disordered
      case DataReceived(h, _) => if p == Alive(h) then p else Disordered
      case RemoteEnd(h) => if p == Alive(h) then HalfClosed(h) else Disordered
      case StreamClosed(h, outcome) =>
        if p == HalfClosed(h) || (p == Alive(h) && outcome != Completed) then Dead(h, outcome) else Disordered
      case _ => p
  }

  ghost function PhaseOf(log: seq<Event>, id: u32): Phase {
    if log == [] then Unborn else After(PhaseOf(log[..|log| - 1], id), log[|log| - 1], id)
  }

  /** Results delivered for one probe token. */
  ghost function Results(log: seq<Event>, token: Token): nat {
    if log == [] then 0
    else Results(log[..|log| - 1], token)
         + (var e := log[|log| - 1]; if e.PingFinished? && e.token == token then 1 else 0)
  }

  /** Queued events other than probe results. */
  function Load(events: seq<Event>): nat {
    if events == [] then 0 else (if events[0].PingFinished? then 0 else 1) + Load(events[1..])
  }

  datatype Change =
    | Silent
    | Marked(id: u32)
    | Born(stream: Handle, protocol: Protocol)
    | Fed(id: u32, bytes: seq<byte>)
    | Halved(id: u32)
    | Died(id: u32, outcome: Outcome)
    | Probed(token: Token, started: Instant, deadline: Instant)
    | Answered(token: Token, elapsed: nat)
    | Lapsed(tokens: set<Token>)
    | Shut(cause: Option<Failure>)

  /** When a change may happen. */
  ghost predicate Possible(s: State, c: Change) {
    match c
    case Silent => true
    case Marked(id) => id in s.streams
    case Born(h, _) =>
      && !s.closed && h.id != 0 && !s.ids.WasCreated(h.id)
      && |s.events| < EventLimit(s.limits) && |s.streams| < s.limits.streams
    case Fed(id, bytes) =>
      && id in s.streams && s.streams[id].remoteOpen && |s.events| < EventLimit(s.limits)
      && Buffered(s.events, id) + |bytes| <= s.limits.bufferedPerStream
    case Halved(id) => id in s.streams && s.streams[id].remoteOpen && |s.events| < EventLimit(s.limits)
    case Died(id, outcome) =>
      id in s.streams && (outcome == Completed ==> !s.streams[id].remoteOpen && s.streams[id].endWritten)
    case Probed(token, _, _) => !s.closed && token !in s.pings && |s.pings| < MAX_PENDING_PINGS
    case Answered(token, _) => token in s.pings
    case Lapsed(tokens) => tokens <= s.pings.Keys
    case Shut(_) => !s.closed
  }

  ghost function News(s: State, c: Change): seq<Event>
    requires Possible(s, c)
  {
    match c
    case Silent => []
    case Marked(_) => []
    case Born(h, p) => [StreamOpened(h, p)]
    case Fed(id, bytes) => [DataReceived(s.streams[id].handle, bytes)]
    case Halved(id) => [RemoteEnd(s.streams[id].handle)]
    case Died(id, outcome) => [StreamClosed(s.streams[id].handle, outcome)]
    case Probed(_, _, _) => []
    case Answered(token, elapsed) => [PingFinished(token, Ok(elapsed))]
    case Lapsed(tokens) => AllPingFailures(tokens, Failure(Local, DeadlineExceeded))
    case Shut(cause) => Farewell(s, cause)
  }

  /** The public part of a stream entry agrees, and no written END is claimed beyond `b`'s. */
  predicate SameEntry(a: StreamEntry, b: StreamEntry) {
    a.handle == b.handle && a.remoteOpen == b.remoteOpen && (a.endWritten ==> b.endWritten)
  }

  ghost predicate SameStreams(a: map<u32, StreamEntry>, b: map<u32, StreamEntry>) {
    a.Keys == b.Keys && forall id :: id in a ==> SameEntry(a[id], b[id])
  }

  lemma SameStreamsItself(m: map<u32, StreamEntry>)
    ensures SameStreams(m, m)
  {
  }

  ghost function StreamsAfter(s: State, c: Change): map<u32, StreamEntry>
    requires Possible(s, c)
  {
    match c
    case Marked(id) => s.streams[id := s.streams[id].(endWritten := true)]
    case Born(h, _) => s.streams[h.id := StreamEntry(h, true, true, false)]
    case Halved(id) => s.streams[id := s.streams[id].(remoteOpen := false)]
    case Died(id, _) => s.streams - {id}
    case Shut(_) => map[]
    case _ => s.streams
  }

  ghost function PingsAfter(s: State, c: Change): map<Token, (Instant, Instant)>
    requires Possible(s, c)
  {
    match c
    case Probed(token, started, deadline) => s.pings[token := (started, deadline)]
    case Answered(token, _) => s.pings - {token}
    case Lapsed(tokens) => s.pings - tokens
    case Shut(_) => map[]
    case _ => s.pings
  }

  ghost predicate Numbering(s: State, t: State, c: Change) {
    && t.ids.Valid()
    && (forall id: u32 :: s.ids.WasCreated(id) ==> t.ids.WasCreated(id))
    && (c.Born? ==> t.ids.WasCreated(c.stream.id))
  }

  lemma SameNumbering(s: State, t: State, c: Change)
    requires s.ids.Valid() && t.ids == s.ids && !c.Born?
    ensures Numbering(s, t, c)
  {
  }

  /** No OPEN stands behind a GOAWAY. */
  ghost predicate Barrier(q: seq<Frame>) {
    forall i, j :: 0 <= i < j < |q| && q[i].kind == GoAway ==> q[j].kind != Kind.Open
  }

  ghost predicate Has(q: seq<Frame>, kind: Kind) {
    exists i :: 0 <= i < |q| && q[i].kind == kind
  }

  /** Output queues change only in ways that keep OPEN out from behind GOAWAY. */
  ghost predicate Tidy(s: State, t: State) {
    && (s.goawaySent ==> t.goawaySent)
    && (Has(t.outbound, GoAway) ==> Has(s.outbound, GoAway) || t.goawaySent)
    && (s.goawaySent && Has(t.outbound, Kind.Open) ==> Has(s.outbound, Kind.Open))
    && (Barrier(s.outbound) && (Has(s.outbound, GoAway) ==> s.goawaySent) ==> Barrier(t.outbound))
  }

  lemma TidySame(s: State, t: State)
    requires t.outbound == s.outbound && (s.goawaySent ==> t.goawaySent)
    ensures Tidy(s, t)
  {
  }

  lemma TidyQueued(s: State, t: State, f: Frame)
    requires t.outbound == s.outbound + [f] && (s.goawaySent ==> t.goawaySent)
    requires f.kind == Kind.Open ==> !s.goawaySent
    requires f.kind == GoAway ==> t.goawaySent
    ensures Tidy(s, t)
  {
    if Has(s.outbound, GoAway) {
      var i :| 0 <= i < |s.outbound| && s.outbound[i].kind == GoAway;
      assert t.outbound[i].kind == GoAway;
    }
  }

  /** At most one frame joined the queue, and it was no GOAWAY and no OPEN behind one. */
  lemma TidyOne(s: State, t: State)
    requires t.goawaySent == s.goawaySent
    requires t.outbound == s.outbound
             || (t.outbound != [] && t.outbound[..|t.outbound| - 1] == s.outbound
                 && t.outbound[|t.outbound| - 1].kind != GoAway
                 && (t.outbound[|t.outbound| - 1].kind == Kind.Open ==> !s.goawaySent))
    ensures Tidy(s, t)
  {
    hide Tidy;
    if t.outbound == s.outbound {
      TidySame(s, t);
    } else {
      var f := t.outbound[|t.outbound| - 1];
      assert t.outbound == s.outbound + [f];
      TidyQueued(s, t, f);
    }
  }

  /** Cutting a stream out of a queue creates no new order of OPEN and GOAWAY. */
  lemma {:induction false} BarrierSurvives(q: seq<Frame>, id: u32)
    ensures Has(Surviving(q, id), GoAway) ==> Has(q, GoAway)
    ensures Has(Surviving(q, id), Kind.Open) ==> Has(q, Kind.Open)
    ensures Barrier(q) ==> Barrier(Surviving(q, id))
  {
    if q != [] {
      BarrierSurvives(q[1..], id);
      HasTail(q, GoAway);
      HasTail(q, Kind.Open);
      BarrierTail(q);
      var kept := if q[0].id != id || q[0].kind == Kind.Open then [q[0]] else [];
      var r := kept + Surviving(q[1..], id);
      assert Surviving(q, id) == r;
      if kept != [] {
        assert r[1..] == Surviving(q[1..], id);
        HasTail(r, GoAway);
        HasTail(r, Kind.Open);
        BarrierTail(r);
      } else {
        assert r == Surviving(q[1..], id);
      }
    }
  }

  lemma HasTail(q: seq<Frame>, kind: Kind)
    requires q != []
    ensures Has(q, kind) <==> q[0].kind == kind || Has(q[1..], kind)
  {
    if Has(q[1..], kind) {
      var i :| 0 <= i < |q[1..]| && q[1..][i].kind == kind;
      assert q[i + 1].kind == kind;
    }
    if i :| 0 < i < |q| && q[i].kind == kind {
      assert q[1..][i - 1].kind == kind;
    }
  }

  lemma BarrierTail(q: seq<Frame>)
    requires q != []
    ensures Barrier(q) <==> Barrier(q[1..]) && (q[0].kind == GoAway ==> !Has(q[1..], Kind.Open))
  {
    var r := q[1..];
    assert forall i :: 0 <= i < |r| ==> r[i] == q[i + 1];
    if Barrier(q) {
      assert forall i, j :: 0 <= i < j < |r| && r[i].kind == GoAway ==> q[i + 1].kind == GoAway && q[j + 1] == r[j];
    }
    if Barrier(r) && (q[0].kind == GoAway ==> !Has(r, Kind.Open)) {
      forall i, j | 0 <= i < j < |q| && q[i].kind == GoAway
        ensures q[j].kind != Kind.Open
      {
        assert q[j] == r[j - 1];
        assert i > 0 ==> q[i] == r[i - 1];
      }
    }
  }

  lemma TidyCut(s: State, t: State, id: u32)
    requires t.outbound == Surviving(s.outbound, id) && t.goawaySent == s.goawaySent
    ensures Tidy(s, t)
  {
    BarrierSurvives(s.outbound, id);
  }

  /** `t` is `s` after the change `c`; what was noted of the peer's GOAWAY and of the time is not constrained. */
  ghost predicate Changes(s: State, t: State, c: Change) {
    && Possible(s, c)
    && t.limits == s.limits && t.lastOutput == s.lastOutput
    && t.events == s.events + News(s, c)
    && SameStreams(t.streams, StreamsAfter(s, c))
    && t.pings == PingsAfter(s, c)
    && t.closed == (s.closed || c.Shut?)
    && Numbering(s, t, c)
    && Tidy(s, t)
  }

  // ---------------------------------------------------------------- histories grow at the end

  lemma PhasePush(log: seq<Event>, e: Event, id: u32)
    ensures PhaseOf(log + [e], id) == After(PhaseOf(log, id), e, id)
  {
    assert (log + [e])[..|log + [e]| - 1] == log;
  }

  lemma ResultsPush(log: seq<Event>, e: Event, token: Token)
    ensures Results(log + [e], token) == Results(log, token) + (if e.PingFinished? && e.token == token then 1 else 0)
  {
    assert (log + [e])[..|log + [e]| - 1] == log;
  }

  /** Probe results leave every stream's phase alone. */
  lemma {:induction false} PhaseOfPings(log: seq<Event>, tokens: seq<Token>, f: Failure, id: u32)
    ensures PhaseOf(log + PingFailures(tokens, f), id) == PhaseOf(log, id)
  {
    var news := PingFailures(tokens, f);
    if tokens == [] {
      assert log + news == log;
    } else {
      var n := |tokens| - 1;
      PhaseOfPings(log, tokens[..n], f, id);
      assert news == PingFailures(tokens[..n], f) + [news[n]];
      assert log + news == log + PingFailures(tokens[..n], f) + [news[n]];
      PhasePush(log + PingFailures(tokens[..n], f), news[n], id);
    }
  }

  /** Each listed token gains one result. */
  lemma {:induction false} ResultsOfPings(log: seq<Event>, tokens: seq<Token>, f: Failure, token: Token)
    requires forall i, j :: 0 <= i < j < |tokens| ==> tokens[i] < tokens[j]
    ensures Results(log + PingFailures(tokens, f), token) == Results(log, token) + (if token in tokens then 1 else 0)
  {
    hide Results;
    var news := PingFailures(tokens, f);
    if tokens == [] {
      assert log + news == log;
    } else {
      var n := |tokens| - 1;
      assert tokens == tokens[..n] + [tokens[n]];
      ResultsOfPings(log, tokens[..n], f, token);
      assert news == PingFailures(tokens[..n], f) + [news[n]];
      assert log + news == log + PingFailures(tokens[..n], f) + [news[n]];
      ResultsPush(log + PingFailures(tokens[..n], f), news[n], token);
    }
  }

  lemma AfterOther(p: Phase, e: Event, id: u32)
    requires e.StreamClosed?
    ensures e.stream.id != id ==> After(p, e, id) == p
  {
  }

  /** Each listed stream receives its one terminal event, the others none. */
  lemma {:induction false} PhaseOfStreams(log: seq<Event>, streams: map<u32, StreamEntry>, ids: seq<u32>, f: Failure,
                                          id: u32)
    requires forall i :: 0 <= i < |ids| ==> ids[i] in streams && streams[ids[i]].handle.id == ids[i]
    requires forall i, j :: 0 <= i < j < |ids| ==> ids[i] < ids[j]
    ensures PhaseOf(log + StreamFailures(streams, ids, f), id) ==
            if id in ids then After(PhaseOf(log, id), StreamClosed(streams[id].handle, Failed(f)), id)
            else PhaseOf(log, id)
  {
    hide After, PhaseOf;
    var news := StreamFailures(streams, ids, f);
    if ids == [] {
      assert log + news == log;
    } else {
      var n := |ids| - 1;
      AfterOther(PhaseOf(log + StreamFailures(streams, ids[..n], f), id), news[n], id);
      PhaseOfStreams(log, streams, ids[..n], f, id);
      assert news == StreamFailures(streams, ids[..n], f) + [news[n]];
      assert log + news == log + StreamFailures(streams, ids[..n], f) + [news[n]];
      PhasePush(log + StreamFailures(streams, ids[..n], f), news[n], id);
      assert ids == ids[..n] + [ids[n]];
    }
  }

  lemma {:induction false} ResultsOfStreams(log: seq<Event>, streams: map<u32, StreamEntry>, ids: seq<u32>, f: Failure,
                                            token: Token)
    requires forall i :: 0 <= i < |ids| ==> ids[i] in streams
    ensures Results(log + StreamFailures(streams, ids, f), token) == Results(log, token)
  {
    var news := StreamFailures(streams, ids, f);
    if ids == [] {
      assert log + news == log;
    } else {
      var n := |ids| - 1;
      ResultsOfStreams(log, streams, ids[..n], f, token);
      assert news == StreamFailures(streams, ids[..n], f) + [news[n]];
      assert log + news == log + StreamFailures(streams, ids[..n], f) + [news[n]];
      ResultsPush(log + StreamFailures(streams, ids[..n], f), news[n], token);
    }
  }

  lemma PhaseOfFarewell(log: seq<Event>, s: State, cause: Option<Failure>, id: u32)
    requires forall i :: i in s.streams ==> s.streams[i].handle.id == i
    ensures PhaseOf(log + Farewell(s, cause), id) ==
            if id in s.streams
            then After(PhaseOf(log, id), StreamClosed(s.streams[id].handle, Failed(Unfinished(cause))), id)
            else PhaseOf(log, id)
  {
    hide After, PhaseOf, PingFailures, StreamFailures;
    var f := Unfinished(cause);
    var tokens, ids := TokensInOrder(s.pings.Keys), IdsInOrder(s.streams.Keys);
    var probes, streams := PingFailures(tokens, f), StreamFailures(s.streams, ids, f);
    PhaseOfPings(log, tokens, f, id);
    PhaseOfStreams(log + probes, s.streams, ids, f, id);
    PhasePush(log + probes + streams, ConnectionClosed(cause), id);
    assert log + Farewell(s, cause) == log + probes + streams + [ConnectionClosed(cause)];
    ClosedConcernsNoStream(PhaseOf(log + probes + streams, id), cause, id);
  }

  lemma ClosedConcernsNoStream(p: Phase, cause: Option<Failure>, id: u32)
    ensures After(p, ConnectionClosed(cause), id) == p
  {
  }

  lemma ResultsOfFarewell(log: seq<Event>, s: State, cause: Option<Failure>, token: Token)
    ensures Results(log + Farewell(s, cause), token) == Results(log, token) + (if token in s.pings then 1 else 0)
  {
    hide Results, PingFailures, StreamFailures;
    var f := Unfinished(cause);
    var tokens, ids := TokensInOrder(s.pings.Keys), IdsInOrder(s.streams.Keys);
    var probes, streams := PingFailures(tokens, f), StreamFailures(s.streams, ids, f);
    ResultsOfPings(log, tokens, f, token);
    ResultsOfStreams(log + probes, s.streams, ids, f, token);
    ResultsPush(log + probes + streams, ConnectionClosed(cause), token);
    assert log + Farewell(s, cause) == log + probes + streams + [ConnectionClosed(cause)];
  }

  // ---------------------------------------------------------------- streams

  /** Each stream's table entry agrees with the events emitted for it. */
  ghost predicate Fits(p: Phase, s: State, id: u32, written: set<u32>) {
    && (id in s.streams ==>
          && s.streams[id].handle.id == id && s.ids.WasCreated(id)
          && p == (if s.streams[id].remoteOpen then Alive(s.streams[id].handle) else HalfClosed(s.streams[id].handle))
          && (s.streams[id].endWritten ==> id in written))
    && (id !in s.streams ==> p.Unborn? || (p.Dead? && (p.outcome == Completed ==> id in written)))
    && (!s.ids.WasCreated(id) ==> p.Unborn?)
  }

  ghost predicate Phases(e: Endpoint) {
    && e.s.ids.Valid()
    && (e.s.closed ==> e.s.streams == map[])
    && forall id: u32 :: Fits(PhaseOf(e.log, id), e.s, id, e.written)
  }

  /** Changes that emit nothing about any stream. */
  lemma FitsUntouched(e: Endpoint, t: State, c: Change, id: u32)
    requires Phases(e) && Changes(e.s, t, c)
    requires c.Silent? || (c.Marked? && c.id in e.written) || c.Probed? || c.Lapsed? || c.Answered?
    ensures Fits(PhaseOf(e.log + News(e.s, c), id), t, id, e.written)
  {
    hide Tidy, PhaseOf, AllPingFailures, EventLimit, Buffered;
    var news := News(e.s, c);
    FitsOwn(e, id);
    if c.Lapsed? {
      PhaseOfLapsed(e.log, c.tokens, id);
    } else if c.Answered? {
      PhasePush(e.log, news[0], id);
    } else {
      assert e.log + news == e.log;
    }
  }

  lemma FitsTouched(e: Endpoint, t: State, c: Change, id: u32)
    requires Phases(e) && Changes(e.s, t, c)
    requires c.Born? || c.Fed? || c.Halved? || c.Died?
    ensures Fits(PhaseOf(e.log + News(e.s, c), id), t, id, e.written)
  {
    hide Tidy, PhaseOf, EventLimit, Buffered, Phases;
    FitsOwn(e, id);
    FitsOwn(e, if c.Born? then c.stream.id else c.id);
    PhasePush(e.log, News(e.s, c)[0], id);
  }

  lemma FitsShut(e: Endpoint, t: State, c: Change, id: u32)
    requires Phases(e) && Changes(e.s, t, c) && c.Shut?
    ensures Fits(PhaseOf(e.log + News(e.s, c), id), t, id, e.written)
  {
    hide Tidy, PhaseOf, Farewell;
    assert forall i: u32 :: i in e.s.streams ==> Fits(PhaseOf(e.log, i), e.s, i, e.written);
    PhaseOfFarewell(e.log, e.s, c.cause, id);
  }

  lemma FitsOwn(e: Endpoint, id: u32)
    requires Phases(e)
    ensures Fits(PhaseOf(e.log, id), e.s, id, e.written)
  {
  }

  lemma PhaseOfLapsed(log: seq<Event>, tokens: set<Token>, id: u32)
    ensures PhaseOf(log + AllPingFailures(tokens, Failure(Local, DeadlineExceeded)), id) == PhaseOf(log, id)
  {
    PhaseOfPings(log, TokensInOrder(tokens), Failure(Local, DeadlineExceeded), id);
  }

  lemma PhasesAfter(e: Endpoint, t: State, c: Change)
    requires Phases(e) && Changes(e.s, t, c) && (c.Marked? ==> c.id in e.written)
    ensures Phases(e.(s := t, log := e.log + News(e.s, c)))
  {
    hide Tidy, Farewell, EventLimit, Buffered, AllPingFailures, Fits, PhaseOf, News;
    forall id: u32
      ensures Fits(PhaseOf(e.log + News(e.s, c), id), t, id, e.written)
    {
      if c.Shut? {
        FitsShut(e, t, c, id);
      } else if c.Born? || c.Fed? || c.Halved? || c.Died? {
        FitsTouched(e, t, c, id);
      } else {
        FitsUntouched(e, t, c, id);
      }
    }
    if t.closed && !c.Shut? {
      assert t.streams.Keys == {};
    }
  }

  // ---------------------------------------------------------------- probes

  /** Results a token has had, and the one it still has coming. */
  ghost function Owed(e: Endpoint, token: Token): nat {
    Results(e.log, token) + if token in e.s.pings then 1 else 0
  }

  /** Only an accepted probe changes what is owed. */
  lemma OwedAfter(e: Endpoint, t: State, c: Change, token: Token)
    requires Changes(e.s, t, c)
    ensures Owed(e.(s := t, log := e.log + News(e.s, c)), token) ==
            Owed(e, token) + if c.Probed? && c.token == token then 1 else 0
  {
    hide Tidy, Results, EventLimit, Buffered, AllPingFailures, Farewell;
    var news := News(e.s, c);
    if c.Lapsed? {
      ResultsOfLapsed(e.log, c.tokens, token);
    } else if c.Shut? {
      ResultsOfFarewell(e.log, e.s, c.cause, token);
    } else if news == [] {
      assert e.log + news == e.log;
    } else {
      ResultsPush(e.log, news[0], token);
    }
  }

  lemma ResultsOfLapsed(log: seq<Event>, tokens: set<Token>, token: Token)
    ensures Results(log + AllPingFailures(tokens, Failure(Local, DeadlineExceeded)), token) ==
            Results(log, token) + if token in tokens then 1 else 0
  {
    ResultsOfPings(log, TokensInOrder(tokens), Failure(Local, DeadlineExceeded), token);
  }

  /** Probes never start in the future. */
  ghost predicate Timely(e: Endpoint) {
    forall t :: t in e.s.pings ==> e.s.pings[t].0 <= e.clock
  }

  // ---------------------------------------------------------------- the end

  /** Closure is reported once, as the last event ever, with nothing left behind. */
  ghost predicate Conclusion(e: Endpoint) {
    && (forall i :: 0 <= i < |e.log| && e.log[i].ConnectionClosed? ==> e.s.closed && i == |e.log| - 1)
    && (e.s.closed ==>
          e.log != [] && e.log[|e.log| - 1].ConnectionClosed? && e.s.streams == map[] && e.s.pings == map[])
  }

  lemma NothingLapses(tokens: set<Token>)
    requires tokens == {}
    ensures AllPingFailures(tokens, Failure(Local, DeadlineExceeded)) == []
  {
    AscendingVisit(tokens, Ascending(tokens));
  }

  /** A change after closure says nothing, and only closure itself announces it. */
  lemma ConclusionNews(e: Endpoint, t: State, c: Change)
    requires Conclusion(e) && Changes(e.s, t, c)
    ensures e.s.closed ==> News(e.s, c) == []
    ensures !c.Shut? ==> forall i :: 0 <= i < |News(e.s, c)| ==> !News(e.s, c)[i].ConnectionClosed?
  {
    hide Tidy, Farewell, EventLimit, Buffered, AllPingFailures;
    if c.Lapsed? {
      LapsedArePings(c.tokens);
      if e.s.closed {
        assert c.tokens == {};
        NothingLapses(c.tokens);
      }
    }
  }

  lemma LapsedArePings(tokens: set<Token>)
    ensures var news := AllPingFailures(tokens, Failure(Local, DeadlineExceeded));
            forall i :: 0 <= i < |news| ==> news[i].PingFinished?
  {
  }

  lemma ConclusionAfter(e: Endpoint, t: State, c: Change)
    requires Conclusion(e) && Changes(e.s, t, c)
    ensures Conclusion(e.(s := t, log := e.log + News(e.s, c)))
  {
    hide Tidy, Farewell, EventLimit, Buffered, AllPingFailures, News;
    ConclusionNews(e, t, c);
    var news := News(e.s, c);
    if c.Shut? {
      FarewellEnds(e.s, c.cause);
      assert news == Farewell(e.s, c.cause) by { ShutNews(e.s, c); }
      assert t.streams.Keys == {};
    } else if e.s.closed {
      assert e.log + news == e.log;
      assert t.streams.Keys == {} by { ClosedStays(e, t, c); }
      assert t.pings.Keys == {} by { ClosedStays(e, t, c); }
    } else {
      assert !t.closed;
    }
  }

  lemma ShutNews(s: State, c: Change)
    requires Possible(s, c) && c.Shut?
    ensures News(s, c) == Farewell(s, c.cause)
  {
  }

  lemma ClosedStays(e: Endpoint, t: State, c: Change)
    requires Conclusion(e) && e.s.closed && Changes(e.s, t, c)
    ensures t.streams.Keys == {} && t.pings.Keys == {}
  {
    hide Tidy, Farewell, EventLimit, Buffered, AllPingFailures;
  }

  /** The three parts of a farewell. */
  lemma FarewellParts(s: State, cause: Option<Failure>)
    ensures var f := Unfinished(cause);
            && (forall i :: 0 <= i < |AllPingFailures(s.pings.Keys, f)| ==>
                  && AllPingFailures(s.pings.Keys, f)[i].PingFinished?
                  && AllPingFailures(s.pings.Keys, f)[i].elapsed == Err(f))
            && (forall i :: 0 <= i < |AllStreamFailures(s.streams, f)| ==>
                  && AllStreamFailures(s.streams, f)[i].StreamClosed?
                  && AllStreamFailures(s.streams, f)[i].outcome == Failed(f))
  {
  }

  lemma FarewellEnds(s: State, cause: Option<Failure>)
    ensures var news := Farewell(s, cause);
            && news != [] && news[|news| - 1].ConnectionClosed?
            && forall i :: 0 <= i < |news| - 1 ==> !news[i].ConnectionClosed?
  {
    hide AllPingFailures, AllStreamFailures;
    FarewellParts(s, cause);
  }

  // ---------------------------------------------------------------- backlog

  lemma {:induction false} LoadConcat(a: seq<Event>, b: seq<Event>)
    ensures Load(a + b) == Load(a) + Load(b)
  {
    if a == [] {
      assert a + b == b;
    } else {
      assert (a + b)[1..] == a[1..] + b;
      LoadConcat(a[1..], b);
    }
  }

  lemma {:induction false} LoadBounds(events: seq<Event>)
    ensures Load(events) <= |events|
    ensures (forall i :: 0 <= i < |events| ==> events[i].PingFinished?) ==> Load(events) == 0
    ensures (forall i :: 0 <= i < |events| ==> !events[i].PingFinished?) ==> Load(events) == |events|
  {
    if events != [] {
      LoadBounds(events[1..]);
    }
  }

  lemma {:induction false} BufferedConcat(a: seq<Event>, b: seq<Event>, id: u32)
    ensures Buffered(a + b, id) == Buffered(a, id) + Buffered(b, id)
  {
    if a == [] {
      assert a + b == b;
    } else {
      assert (a + b)[1..] == a[1..] + b;
      BufferedConcat(a[1..], b, id);
    }
  }

  lemma {:induction false} NothingBuffered(events: seq<Event>, id: u32)
    requires forall i :: 0 <= i < |events| ==> !events[i].DataReceived?
    ensures Buffered(events, id) == 0
  {
    if events != [] {
      NothingBuffered(events[1..], id);
    }
  }

  /** What a session can hold for slow consumers. */
  ghost predicate Backlog(s: State) {
    && |s.streams| <= s.limits.streams
    && |s.pings| <= MAX_PENDING_PINGS
    && Load(s.events) + |s.streams| + (if s.closed then 0 else 1) <= EventLimit(s.limits) + s.limits.streams + 1
    && forall id: u32 :: Buffered(s.events, id) <= s.limits.bufferedPerStream
  }

  lemma LoadOfLapsed(tokens: set<Token>)
    ensures Load(AllPingFailures(tokens, Failure(Local, DeadlineExceeded))) == 0
  {
    LoadBounds(AllPingFailures(tokens, Failure(Local, DeadlineExceeded)));
  }

  lemma LoadOfFarewell(s: State, cause: Option<Failure>)
    ensures Load(Farewell(s, cause)) == |s.streams| + 1
  {
    hide Load, AllPingFailures, AllStreamFailures;
    var f := Unfinished(cause);
    var probes, streams := AllPingFailures(s.pings.Keys, f), AllStreamFailures(s.streams, f);
    FarewellParts(s, cause);
    assert |streams| == |s.streams| by { StreamFailureCount(s.streams, f); }
    LoadBounds(probes);
    LoadBounds(streams);
    LoadBounds([ConnectionClosed(cause)]);
    LoadConcat(probes, streams);
    LoadConcat(probes + streams, [ConnectionClosed(cause)]);
  }

  lemma StreamFailureCount(streams: map<u32, StreamEntry>, f: Failure)
    ensures |AllStreamFailures(streams, f)| == |streams|
  {
    AscendingVisit(streams.Keys, Ascending(streams.Keys));
    assert |streams| == |streams.Keys|;
  }

  ghost function Weight(s: State): nat {
    |s.streams| + if s.closed then 0 else 1
  }

  /** Only openings, data and remote ends add to the load; terminal events pay for themselves. */
  lemma LoadAfter(s: State, t: State, c: Change)
    requires Changes(s, t, c)
    ensures Load(t.events) + Weight(t) <=
            Load(s.events) + Weight(s) + (if c.Born? then 2 else if c.Fed? || c.Halved? then 1 else 0)
    ensures |t.streams| == (if c.Born? && c.stream.id !in s.streams then |s.streams| + 1
                            else if c.Died? then |s.streams| - 1 else if c.Shut? then 0 else |s.streams|)
    ensures |t.pings| <= if c.Probed? then |s.pings| + 1 else |s.pings|
  {
    hide Tidy, Load, EventLimit, Buffered, AllPingFailures, Farewell;
    var news := News(s, c);
    LoadConcat(s.events, news);
    assert |t.streams| == |t.streams.Keys| && |StreamsAfter(s, c)| == |StreamsAfter(s, c).Keys|;
    assert |s.streams| == |s.streams.Keys|;
    PingCount(s, t, c);
    if c.Lapsed? {
      LoadOfLapsed(c.tokens);
    } else if c.Shut? {
      LoadOfFarewell(s, c.cause);
    } else {
      LoadBounds(news);
      StreamCount(s, c);
    }
  }

  lemma StreamCount(s: State, c: Change)
    requires Possible(s, c) && !c.Shut?
    ensures |StreamsAfter(s, c)| == (if c.Born? && c.stream.id !in s.streams then |s.streams| + 1
                                     else if c.Died? then |s.streams| - 1 else |s.streams|)
  {
    hide EventLimit, Buffered;
    if c.Born? {
      KeySet(s.streams, c.stream.id, StreamEntry(c.stream, true, true, false));
    } else if c.Died? {
      KeysCut(s.streams, {c.id});
    } else if c.Marked? {
      KeySet(s.streams, c.id, s.streams[c.id].(endWritten := true));
    } else if c.Halved? {
      KeySet(s.streams, c.id, s.streams[c.id].(remoteOpen := false));
    }
  }

  lemma KeySet<K, V>(m: map<K, V>, k: K, v: V)
    ensures |m[k := v]| == if k in m then |m| else |m| + 1
  {
    var after := m[k := v];
    assert |after| == |after.Keys| && |m| == |m.Keys|;
    assert after.Keys == m.Keys + {k};
  }

  lemma KeysCut<K, V>(m: map<K, V>, ks: set<K>)
    requires ks <= m.Keys
    ensures |m - ks| == |m| - |ks|
  {
    var after := m - ks;
    assert |after| == |after.Keys| && |m| == |m.Keys|;
    assert after.Keys == m.Keys - ks;
  }

  lemma PingCount(s: State, t: State, c: Change)
    requires Possible(s, c) && t.pings == PingsAfter(s, c)
    ensures |t.pings| <= if c.Probed? then |s.pings| + 1 else |s.pings|
    ensures c.Lapsed? ==> |t.pings| == |s.pings| - |c.tokens|
    ensures c.Answered? ==> |t.pings| == |s.pings| - 1
    ensures c.Shut? ==> |t.pings| == 0
  {
    hide EventLimit, Buffered;
    if c.Probed? {
      KeySet(s.pings, c.token, (c.started, c.deadline));
    } else if c.Answered? {
      KeysCut(s.pings, {c.token});
    } else if c.Lapsed? {
      KeysCut(s.pings, c.tokens);
    }
  }

  lemma NewsCarriesNoData(s: State, c: Change)
    requires Possible(s, c) && !c.Fed?
    ensures forall i :: 0 <= i < |News(s, c)| ==> !News(s, c)[i].DataReceived?
  {
    hide EventLimit, Buffered, AllPingFailures, Farewell;
    if c.Lapsed? {
      LapsedArePings(c.tokens);
    } else if c.Shut? {
      FarewellCarriesNoData(s, c.cause);
    }
  }

  lemma FarewellCarriesNoData(s: State, cause: Option<Failure>)
    ensures forall i :: 0 <= i < |Farewell(s, cause)| ==> !Farewell(s, cause)[i].DataReceived?
  {
    hide AllPingFailures, AllStreamFailures;
    FarewellParts(s, cause);
  }

  lemma BufferedAfter(s: State, t: State, c: Change, id: u32)
    requires Changes(s, t, c) && Buffered(s.events, id) <= s.limits.bufferedPerStream
    requires c.Fed? ==> s.streams[c.id].handle.id == c.id
    ensures Buffered(t.events, id) <= s.limits.bufferedPerStream
  {
    hide Tidy, EventLimit, AllPingFailures, Farewell, Buffered;
    var news := News(s, c);
    BufferedConcat(s.events, news, id);
    if c.Fed? {
      BufferedOne(news[0], id);
      assert news == [news[0]];
    } else {
      NewsCarriesNoData(s, c);
      NothingBuffered(news, id);
    }
  }

  lemma BufferedOne(e: Event, id: u32)
    requires e.DataReceived?
    ensures Buffered([e], id) == if e.stream.id == id then |e.bytes| else 0
  {
    assert [e][1..] == [];
  }

  lemma BacklogAfter(e: Endpoint, t: State, c: Change)
    requires Backlog(e.s) && Phases(e) && Changes(e.s, t, c)
    ensures Backlog(t)
  {
    hide Tidy, EventLimit, Buffered, Load, PhaseOf, News, StreamsAfter, PingsAfter, Fits;
    LoadAfter(e.s, t, c);
    LoadBounds(e.s.events);
    if c.Fed? {
      assert e.s.streams[c.id].handle.id == c.id by { FitsHandle(e, c.id); }
    }
    forall id: u32
      ensures Buffered(t.events, id) <= t.limits.bufferedPerStream
    {
      BufferedAfter(e.s, t, c, id);
    }
  }

  lemma FitsHandle(e: Endpoint, id: u32)
    requires Phases(e) && id in e.s.streams
    ensures e.s.streams[id].handle.id == id
  {
    FitsOwn(e, id);
  }

  /** Probe results do not count as buffered bytes. */
  lemma TickBuffers(s: State, now: Instant, id: u32)
    ensures Buffered(Tick(s, now).events, id) == Buffered(s.events, id)
  {
    hide Buffered;
    var news := AllPingFailures(Expired(s, now), Failure(Local, DeadlineExceeded));
    BufferedConcat(s.events, news, id);
    NothingBuffered(news, id);
  }
}
