/** What reaches the other end of a pair does so whole: payloads, and the protocol a stream was opened for. */
module PairEffects {
  import opened Bytes
  import opened Codec
  import opened StreamNumbering
  import opened SessionTypes
  import opened Lines
  import opened Scheduler
  import opened SessionModel
  import opened SessionRun
  import opened PairInvariant
  import opened PairSteps
  import opened PairReceive
  import opened Pair
  import L = Lifecycle
  import C = LifeCauses
  import E = LifeEffects
  import F = LifeFrames
  import P = LifePromises
  import LifeChanges

  /** Either end of a run lives a life of its own. */
  lemma {:induction false} EndsLive(run: seq<World>, k: nat, first: bool) returns (life: seq<L.History>)
    requires Run(run) && k < |run|
    ensures L.Life(life) && life[|life| - 1].e == if first then run[k].a else run[k].b
  {
    hide Act, Enabled, L.Steps, PopOutbound;
    if k == 0 {
      var e := if first then run[0].a else run[0].b;
      var role := if first then Initiator else Acceptor;
      var c: nat, l: Limits :| e == Start(c, role, l);
      life := [L.History(Start(c, role, l), multiset{}, [])];
    } else {
      life := EndsLive(run, k - 1, first);
      var w, v := run[k - 1], run[k];
      assert Next(w, v);
      var a: Action :|
        || (Moves(w.a, w.ab, w.ba, a, v.a, v.ab, v.ba) && v.b == w.b)
        || (Moves(w.b, w.ba, w.ab, a, v.b, v.ba, v.ab) && v.a == w.a);
      var ours, theirs := if first then w.a else w.b, if first then v.a else v.b;
      if theirs != ours {
        assert Enabled(ours, a) && theirs == Act(ours, a);
        P.FollowActs(life[|life| - 1], a);
        life := P.Prolong(life, a);
      }
    }
  }

  lemma EndsAreOrderly(run: seq<World>, k: nat)
    requires Run(run) && k < |run|
    ensures L.Orderly(run[k].a) && L.Orderly(run[k].b)
  {
    hide Run, L.Steps, L.Orderly;
    var la := EndsLive(run, k, true);
    L.LifeKept(la, |la| - 1);
    var lb := EndsLive(run, k, false);
    L.LifeKept(lb, |lb| - 1);
  }

  // ---------------------------------------------------------------- payloads

  lemma {:induction false} LapsesCarryNothing(s: State, now: Instant, id: u32)
    ensures Quiet(E.Lapses(s, now))
  {
    var tokens := TokensInOrder(Expired(s, now));
    assert forall i :: 0 <= i < |E.Lapses(s, now)| ==> E.Lapses(s, now)[i].PingFinished?;
  }

  lemma GotMore(log: seq<Event>, lapses: seq<Event>, h: Handle, bytes: seq<byte>)
    requires Quiet(lapses)
    ensures Got(log + lapses + [DataReceived(h, bytes)], h.id) == Got(log, h.id) + bytes
  {
    QuietLog(log, lapses, h.id);
    GotConcat(log + lapses, [DataReceived(h, bytes)], h.id);
    assert [DataReceived(h, bytes)][..0] == [];
  }

  lemma PayloadTaken(p: Endpoint, q: Endpoint, outgoing: seq<Frame>, incoming: seq<Frame>, a: Action)
    requires Joined(p, q, outgoing, incoming) && a.Receiving? && incoming != [] && a.frame == incoming[0]
    requires Enabled(p, a) && E.Receptive(p.s, a.now) && a.frame.id != 0 && a.frame.id in p.s.streams
    ensures && a.frame.kind == Kind.Data
            && Buffered(p.s.events, a.frame.id) + |a.frame.payload| <= p.s.limits.bufferedPerStream ==>
              Got(Act(p, a).log, a.frame.id) == Got(p.log, a.frame.id) + a.frame.payload
    ensures a.frame.kind == Kind.End ==> Finished(Act(p, a).log, a.frame.id)
  {
    hide Direction, E.Receptive, Enabled, Act, Buffered, E.Lapses, Got;
    var f := a.frame;
    if f.kind == Kind.Data || f.kind == Kind.End {
      StillLive(p, q, outgoing, incoming);
      LapsesCarryNothing(p.s, a.now, f.id);
      var lapses, h := E.Lapses(p.s, a.now), p.s.streams[f.id].handle;
      if f.kind == Kind.Data && Buffered(p.s.events, f.id) + |f.payload| <= p.s.limits.bufferedPerStream {
        E.DataTaken(p, a);
        GotMore(p.log, lapses, h, f.payload);
      } else if f.kind == Kind.End {
        E.EndTaken(p, a);
        assert Act(p, a).log[|p.log + lapses|] == RemoteEnd(h);
      }
    }
  }

  /**
   Delivery makes progress: in every run, taking in the next frame hands out exactly its payload if it
   is DATA that fits, and reports the end if it is END, for a stream the receiver still has.
   */
  lemma PayloadsArrive(run: seq<World>, k: nat, a: Action)
    requires Run(run) && k < |run| && a.Receiving? && a.frame.id != 0
    ensures var w, id := run[k], a.frame.id;
            w.ab != [] && a.frame == w.ab[0] && Enabled(w.b, a) && E.Receptive(w.b.s, a.now) && id in w.b.s.streams ==>
              && (&& a.frame.kind == Kind.Data
                  && Buffered(w.b.s.events, id) + |a.frame.payload| <= w.b.s.limits.bufferedPerStream ==>
                    Got(Act(w.b, a).log, id) == Got(w.b.log, id) + a.frame.payload)
              && (a.frame.kind == Kind.End ==> Finished(Act(w.b, a).log, id))
    ensures var w, id := run[k], a.frame.id;
            w.ba != [] && a.frame == w.ba[0] && Enabled(w.a, a) && E.Receptive(w.a.s, a.now) && id in w.a.s.streams ==>
              && (&& a.frame.kind == Kind.Data
                  && Buffered(w.a.s.events, id) + |a.frame.payload| <= w.a.s.limits.bufferedPerStream ==>
                    Got(Act(w.a, a).log, id) == Got(w.a.log, id) + a.frame.payload)
              && (a.frame.kind == Kind.End ==> Finished(Act(w.a, a).log, id))
  {
    hide Run, Joined, E.Receptive, Enabled, Act, Buffered, Got, Finished;
    RunHolds(run, k);
    var w, id := run[k], a.frame.id;
    if w.ab != [] && a.frame == w.ab[0] && Enabled(w.b, a) && E.Receptive(w.b.s, a.now) && id in w.b.s.streams {
      JoinedSwap(w.a, w.b, w.ab, w.ba);
      PayloadTaken(w.b, w.a, w.ba, w.ab, a);
    }
    if w.ba != [] && a.frame == w.ba[0] && Enabled(w.a, a) && E.Receptive(w.a.s, a.now) && id in w.a.s.streams {
      PayloadTaken(w.a, w.b, w.ab, w.ba, a);
    }
  }

  // ---------------------------------------------------------------- protocols

  ghost predicate OpenedAs(log: seq<Event>, id: u32, p: Protocol) {
    exists i :: 0 <= i < |log| && log[i].StreamOpened? && log[i].stream.id == id && log[i].protocol == p
  }

  /** OPENs under way name what their sender opened, and so does everything opened on their account. */
  ghost predicate Named(p: Endpoint, q: Endpoint, flight: seq<Frame>) {
    && (forall f :: f in flight && f.kind == Kind.Open && DecodeOpen(f.payload).Ok? ==>
          OpenedAs(p.log, f.id, DecodeOpen(f.payload).value))
    && (forall id: u32, x: Protocol :: OpenedAs(q.log, id, x) && !q.s.ids.IsLocal(id) ==> OpenedAs(p.log, id, x))
  }

  lemma OpenedAsStays(log: seq<Event>, longer: seq<Event>)
    requires log <= longer
    ensures forall id: u32, x: Protocol :: OpenedAs(log, id, x) ==> OpenedAs(longer, id, x)
  {
    forall id: u32, x: Protocol | OpenedAs(log, id, x)
      ensures OpenedAs(longer, id, x)
    {
      var i :| 0 <= i < |log| && log[i].StreamOpened? && log[i].stream.id == id && log[i].protocol == x;
      assert longer[i] == log[i];
    }
  }

  /** An OPEN is queued together with the report of its stream. */
  lemma OpenIsLogged(e: Endpoint, a: Action, f: Frame)
    requires L.Orderly(e) && Enabled(e, a) && f in Act(e, a).s.outbound && f !in e.s.outbound && f.kind == Kind.Open
    ensures DecodeOpen(f.payload).Ok? ==> OpenedAs(Act(e, a).log, f.id, DecodeOpen(f.payload).value)
  {
    hide L.Orderly, DecodeOpen, EncodeOpen, EventLimit, ValidProtocol, EncodeError, GoAwayPayload;
    F.EveryFrameHasItsCause(e, a, f);
    if a.Opening? {
      assert f.id in Act(e, a).s.streams ==> Act(e, a).log[|e.log|].StreamOpened?;
      assert Act(e, a).log == e.log + [Act(e, a).log[|e.log|]];
    }
  }

  lemma NamedSends(p: Endpoint, q: Endpoint, outgoing: seq<Frame>, incoming: seq<Frame>, a: Action,
                   p2: Endpoint, outgoing2: seq<Frame>, incoming2: seq<Frame>)
    requires Named(p, q, Flight(outgoing, p)) && L.Orderly(p)
             && Moves(p, outgoing, incoming, a, p2, outgoing2, incoming2)
    ensures Named(p2, q, Flight(outgoing2, p2))
  {
    hide L.Orderly, Act, Enabled, OpenedAs, DecodeOpen, C.Caused, PopOutbound;
    C.ActCaused(p, a);
    OpenedAsStays(p.log, p2.log);
    forall f | f in Flight(outgoing2, p2) && f.kind == Kind.Open && DecodeOpen(f.payload).Ok?
      ensures OpenedAs(p2.log, f.id, DecodeOpen(f.payload).value)
    {
      if f !in Flight(outgoing, p) {
        assert f in p2.s.outbound by { TakenWasQueued(p, a); }
        OpenIsLogged(p, a, f);
      }
    }
  }

  lemma TakenWasQueued(p: Endpoint, a: Action)
    requires Enabled(p, a)
    ensures a.TakingOutput? ==> PopOutbound(p.s).1.value in p.s.outbound
  {
  }

  /** A stream is opened for the peer only as an OPEN from the link says. */
  lemma NamedReceives(p: Endpoint, q: Endpoint, outgoing: seq<Frame>, incoming: seq<Frame>, a: Action,
                      p2: Endpoint, outgoing2: seq<Frame>, incoming2: seq<Frame>)
    requires Named(q, p, Flight(incoming, q)) && L.Orderly(p)
             && Moves(p, outgoing, incoming, a, p2, outgoing2, incoming2)
    requires p2.s.ids.localOdd == p.s.ids.localOdd
    ensures Named(q, p2, Flight(incoming2, q))
  {
    hide L.Orderly, Act, Enabled, DecodeOpen, PopOutbound, C.ClosedBy, C.LeftBy, C.EndedBy;
    C.ActCaused(p, a);
    assert forall f :: f in Flight(incoming2, q) ==> f in Flight(incoming, q);
    forall id: u32, x: Protocol | OpenedAs(p2.log, id, x) && !p2.s.ids.IsLocal(id)
      ensures OpenedAs(q.log, id, x)
    {
      var i :| 0 <= i < |p2.log| && p2.log[i].StreamOpened? && p2.log[i].stream.id == id && p2.log[i].protocol == x;
      if i < |p.log| {
        assert p.log[i] == p2.log[i];
        assert OpenedAs(p.log, id, x);
      } else {
        assert C.Caused(p, a, C.Closes(p, p2), p2.log[i]);
        assert a.frame in Flight(incoming, q);
      }
    }
  }

  ghost predicate BothNamed(w: World) {
    Named(w.a, w.b, Flight(w.ab, w.a)) && Named(w.b, w.a, Flight(w.ba, w.b))
  }

  lemma MoveNames(p: Endpoint, q: Endpoint, outgoing: seq<Frame>, incoming: seq<Frame>, a: Action,
                  p2: Endpoint, outgoing2: seq<Frame>, incoming2: seq<Frame>)
    requires Joined(p, q, outgoing, incoming) && L.Orderly(p)
             && Moves(p, outgoing, incoming, a, p2, outgoing2, incoming2)
    requires Named(p, q, Flight(outgoing, p)) && Named(q, p, Flight(incoming, q))
    ensures Named(p2, q, Flight(outgoing2, p2)) && Named(q, p2, Flight(incoming2, q))
  {
    hide L.Orderly, Moves, Named, Joined;
    MoveHolds(p, q, outgoing, incoming, a, p2, outgoing2, incoming2);
    assert p2.s.ids.localOdd == p.s.ids.localOdd by {
      SideStays(p, q, outgoing, incoming);
      SideStays(p2, q, outgoing2, incoming2);
    }
    NamedSends(p, q, outgoing, incoming, a, p2, outgoing2, incoming2);
    NamedReceives(p, q, outgoing, incoming, a, p2, outgoing2, incoming2);
  }

  lemma SideStays(p: Endpoint, q: Endpoint, outgoing: seq<Frame>, incoming: seq<Frame>)
    requires Joined(p, q, outgoing, incoming)
    ensures p.s.ids.localOdd == !q.s.ids.localOdd
  {
  }

  lemma {:induction false} RunNamed(run: seq<World>, k: nat)
    requires Run(run) && k < |run|
    ensures BothNamed(run[k])
  {
    hide Moves, Named, Joined, L.Orderly;
    if k == 0 {
      StartNamed(run[0]);
    } else {
      RunNamed(run, k - 1);
      RunHolds(run, k - 1);
      EndsAreOrderly(run, k - 1);
      var w, v := run[k - 1], run[k];
      assert Next(w, v);
      var a: Action :|
        || (Moves(w.a, w.ab, w.ba, a, v.a, v.ab, v.ba) && v.b == w.b)
        || (Moves(w.b, w.ba, w.ab, a, v.b, v.ba, v.ab) && v.a == w.a);
      if Moves(w.a, w.ab, w.ba, a, v.a, v.ab, v.ba) && v.b == w.b {
        MoveNames(w.a, w.b, w.ab, w.ba, a, v.a, v.ab, v.ba);
      } else {
        JoinedSwap(w.a, w.b, w.ab, w.ba);
        MoveNames(w.b, w.a, w.ba, w.ab, a, v.b, v.ba, v.ab);
      }
    }
  }

  lemma StartNamed(w: World)
    requires Initial(w)
    ensures BothNamed(w)
  {
    assert w.a.log == [Authenticated] && w.b.log == [Authenticated];
  }

  /** Both ends of a stream speak the protocol it was opened for. */
  lemma ProtocolsAgree(run: seq<World>, k: nat, id: u32, x: Protocol, y: Protocol)
    requires Run(run) && k < |run| && OpenedAs(run[k].a.log, id, x) && OpenedAs(run[k].b.log, id, y)
    ensures x == y
  {
    hide Run, Joined, P.Story, DecodeOpen;
    RunNamed(run, k);
    RunHolds(run, k);
    var w := run[k];
    SideStays(w.a, w.b, w.ab, w.ba);
    if w.b.s.ids.IsLocal(id) {
      OpenedOnce(run, k, false, id, y, x);
    } else {
      OpenedOnce(run, k, true, id, x, y);
    }
  }

  lemma OpenedOnce(run: seq<World>, k: nat, first: bool, id: u32, x: Protocol, y: Protocol)
    requires Run(run) && k < |run|
    requires var log := if first then run[k].a.log else run[k].b.log; OpenedAs(log, id, x) && OpenedAs(log, id, y)
    ensures x == y
  {
    hide Run, L.Steps, P.Story, OpenedAs, P.OpenedBy, P.ClosedIn;
    var life := EndsLive(run, k, first);
    P.StreamsLiveInOrder(life, |life| - 1, id);
    StoryOpensOnce(life[|life| - 1].e.log, id, x, y);
  }

  lemma StoryOpensOnce(log: seq<Event>, id: u32, x: Protocol, y: Protocol)
    requires P.Story(log, id) && OpenedAs(log, id, x) && OpenedAs(log, id, y)
    ensures x == y
  {
    var i :| 0 <= i < |log| && log[i].StreamOpened? && log[i].stream.id == id && log[i].protocol == x;
    var j :| 0 <= j < |log| && log[j].StreamOpened? && log[j].stream.id == id && log[j].protocol == y;
    assert P.About(log[i], id) && P.About(log[j], id);
  }
}
