/** Two opposite-role sessions over FIFO links: every run keeps streams ordered and raises no violation. */
module Pair {
  import opened Bytes
  import opened Codec
  import opened StreamNumbering
  import opened SessionTypes
  import opened Lines
  import opened Scheduler
  import opened SessionModel
  import opened SessionRun
  import opened ChannelMoves
  import opened PairInvariant
  import opened PairMoves
  import opened PairSteps
  import opened PairReceive

  datatype World = World(a: Endpoint, b: Endpoint, ab: seq<Frame>, ba: seq<Frame>)

  /** One call on `p`; receiving takes the oldest frame of its link, output joins the other link. */
  ghost predicate Moves(p: Endpoint, outgoing: seq<Frame>, incoming: seq<Frame>, a: Action,
                        p2: Endpoint, outgoing2: seq<Frame>, incoming2: seq<Frame>)
  {
    && Enabled(p, a)
    && p2 == Act(p, a)
    && (a.Receiving? ==> !p.s.closed && incoming != [] && a.frame == incoming[0])
    && incoming2 == (if a.Receiving? then incoming[1..] else incoming)
    && outgoing2 == (if a.TakingOutput? then outgoing + [PopOutbound(p.s).1.value] else outgoing)
  }

  ghost predicate Next(w: World, v: World) {
    exists a: Action ::
      || (Moves(w.a, w.ab, w.ba, a, v.a, v.ab, v.ba) && v.b == w.b)
      || (Moves(w.b, w.ba, w.ab, a, v.b, v.ba, v.ab) && v.a == w.a)
  }

  ghost predicate Initial(w: World) {
    && w.ab == [] && w.ba == []
    && (exists c: nat, l: Limits :: w.a == Start(c, Initiator, l))
    && (exists c: nat, l: Limits :: w.b == Start(c, Acceptor, l))
  }

  /** A run: the states passed through, each one call after the previous. */
  ghost predicate Run(run: seq<World>) {
    && run != [] && Initial(run[0])
    && forall k :: 0 < k < |run| ==> Next(run[k - 1], run[k])
  }

  ghost predicate Invariant(w: World) {
    Joined(w.a, w.b, w.ab, w.ba)
  }

  lemma JoinedSwap(p: Endpoint, q: Endpoint, outgoing: seq<Frame>, incoming: seq<Frame>)
    requires Joined(p, q, outgoing, incoming)
    ensures Joined(q, p, incoming, outgoing)
  {
    hide Direction;
  }

  lemma InitialHolds(w: World)
    requires Initial(w)
    ensures Invariant(w)
  {
    forall id: u32 | id != 0
      ensures StreamChannel(w.a, w.b, [], id) && StreamChannel(w.b, w.a, [], id)
    {
      assert Got(w.a.log[..0], id) == [];
      assert Got(w.b.log[..0], id) == [];
      assert DataBytes([]) == [];
    }
    assert Flight(w.ab, w.a) == [] && Flight(w.ba, w.b) == [];
  }

  lemma StepOutput(p: Endpoint, q: Endpoint, outgoing: seq<Frame>, incoming: seq<Frame>, p2: Endpoint)
    requires Joined(p, q, outgoing, incoming) && Enabled(p, TakingOutput)
    requires p2 == Act(p, TakingOutput)
    ensures Joined(p2, q, outgoing + [PopOutbound(p.s).1.value], incoming)
  {
    hide Channel, Numbers, Control;
    SenderPops(p, p2, q, outgoing, Choice(p.s.lastOutput, p.s.outbound));
    ReceiverPassive(q, p, p2, Flight(incoming, q));
  }

  /** A written END records itself and may complete the stream. */
  lemma StepWritten(p: Endpoint, q: Endpoint, outgoing: seq<Frame>, incoming: seq<Frame>, p2: Endpoint)
    requires Joined(p, q, outgoing, incoming) && Enabled(p, FinishingOutput)
    requires p2 == Act(p, FinishingOutput)
    ensures Joined(p2, q, outgoing, incoming)
  {
    hide Joined;
    var (kind, id) := p.writing.value;
    var t := if kind == Kind.End && id in p.s.streams
             then p.s.(streams := p.s.streams[id := p.s.streams[id].(endWritten := !p.s.streams[id].localOpen)])
             else if kind == GoAway then p.s.(goawayWritten := true) else p.s;
    var p1 := p.(s := t);
    StepMarked(p, p1, q, outgoing, incoming);
    if kind == Kind.End {
      StepComplete(p1, q, outgoing, incoming, id);
      var u := Track(p1, Complete(t, id));
      StepUntracked(u, p2, q, outgoing, incoming);
    } else {
      StepUntracked(p1, p2, q, outgoing, incoming);
    }
  }

  lemma StepMarked(p: Endpoint, p1: Endpoint, q: Endpoint, outgoing: seq<Frame>, incoming: seq<Frame>)
    requires Joined(p, q, outgoing, incoming) && p.writing.Some?
    requires var (kind, id) := p.writing.value;
             p1 == p.(s := if kind == Kind.End && id in p.s.streams
                           then p.s.(streams :=
                                     p.s.streams[id := p.s.streams[id].(endWritten := !p.s.streams[id].localOpen)])
                           else if kind == GoAway then p.s.(goawayWritten := true) else p.s)
    ensures Joined(p1, q, outgoing, incoming)
  {
    hide Channel, Numbers, Control;
    SenderSilent(p, p1, q, Flight(outgoing, p));
    ReceiverPassive(q, p, p1, Flight(incoming, q));
  }

  /** Bookkeeping of the writer and the event queue is invisible to the peer. */
  lemma StepUntracked(p: Endpoint, p2: Endpoint, q: Endpoint, outgoing: seq<Frame>, incoming: seq<Frame>)
    requires Joined(p, q, outgoing, incoming)
    requires p2.s == p.s.(events := p2.s.events) && p2.clock == p.clock && p2.log == p.log && p2.sent == p.sent
    ensures Joined(p2, q, outgoing, incoming)
  {
    StepQuiet(p, p2, q, outgoing, incoming);
  }

  lemma StepSending(p: Endpoint, q: Endpoint, outgoing: seq<Frame>, incoming: seq<Frame>, a: Action)
    requires Joined(p, q, outgoing, incoming) && a.Sending?
    ensures Joined(Act(p, a), q, outgoing, incoming)
  {
    hide Joined;
    var r := Send(p.s, a.owner, a.stream, a.bytes, a.admit);
    assert Track(p, r.state).log == p.log;
    if r.result.Ok? {
      var f := Frame(Kind.Data, a.stream.id, a.bytes);
      StepSend(p, q, outgoing, incoming, f, Act(p, a));
    } else {
      assert Act(p, a) == p;
    }
  }

  lemma StepEnding(p: Endpoint, q: Endpoint, outgoing: seq<Frame>, incoming: seq<Frame>, a: Action)
    requires Joined(p, q, outgoing, incoming) && a.Ending?
    ensures Joined(Act(p, a), q, outgoing, incoming)
  {
    hide Joined;
    var r := EndStream(p.s, a.owner, a.stream, a.admit);
    assert Track(p, r.state).log == p.log;
    if r.result.Ok? {
      StepEnd(p, q, outgoing, incoming, a.stream.id, Act(p, a));
    } else {
      assert Act(p, a) == p;
    }
  }

  lemma StepCancelling(p: Endpoint, q: Endpoint, outgoing: seq<Frame>, incoming: seq<Frame>, a: Action)
    requires Joined(p, q, outgoing, incoming) && a.Cancelling?
    ensures Joined(Act(p, a), q, outgoing, incoming)
  {
    hide Direction, Close, DecodeError;
    var r := CancelStream(p.s, a.owner, a.stream, a.reason, a.admit);
    var id := a.stream.id;
    if r.state == p.s {
      assert Act(p, a) == p;
    } else {
      assert id in p.s.streams && id != 0;
      var outcome := CancelledBy(Local, a.reason);
      if a.admit {
        StepTerminateWith(p, q, outgoing, incoming, outcome, Frame(Kind.Cancel, id, EncodeError(CancelCode(a.reason))));
      } else {
        var t := Terminate(p.s, id, outcome);
        var cause := Some(Failure(Local, FailureCode.ResourceLimit));
        StepTerminate(p, q, outgoing, incoming, id, outcome);
        StepClose(Track(p, t), q, outgoing, incoming, cause, None, false);
        CloseFacts(t, cause, None, false);
        TrackTwice(p, t, Close(t, cause, None, false));
      }
    }
  }

  /** Every enabled call keeps both directions in order. */
  lemma MoveHolds(p: Endpoint, q: Endpoint, outgoing: seq<Frame>, incoming: seq<Frame>, a: Action,
                  p2: Endpoint, outgoing2: seq<Frame>, incoming2: seq<Frame>)
    requires Joined(p, q, outgoing, incoming) && Moves(p, outgoing, incoming, a, p2, outgoing2, incoming2)
    ensures Joined(p2, q, outgoing2, incoming2)
  {
    hide Joined, Close, Receive, Tick, OpenStream, Send, EndStream, CancelStream, SendPing, Drain, Sent, PopOutbound;
    match a {
      case Opening(owner, selection, admit, admitDrain) =>
        StepOpen(p, q, outgoing, incoming, owner, selection, admit, admitDrain);
      case Sending(_, _, _, _) => StepSending(p, q, outgoing, incoming, a);
      case Ending(_, _, _) => StepEnding(p, q, outgoing, incoming, a);
      case Cancelling(_, _, _, _) => StepCancelling(p, q, outgoing, incoming, a);
      case Pinging(token, timeout, now, admit) =>
        StepPing(p, q, outgoing, incoming, token, timeout, now, admit);
      case Ticking(now) => StepTick(p, q, outgoing, incoming, now);
      case DrainingFor(shutdown, admit) => StepDrain(p, q, outgoing, incoming, shutdown, admit);
      case Closing(failure, response, admit) =>
        StepClose(p, q, outgoing, incoming, failure, response, admit);
      case Receiving(_, registry, now, admit, admitError) =>
        StepReceive(p, q, outgoing, incoming, registry, now, admit, admitError);
      case TakingOutput => StepOutput(p, q, outgoing, incoming, p2);
      case FinishingOutput => StepWritten(p, q, outgoing, incoming, p2);
      case TakingEvent => StepUntracked(p, p2, q, outgoing, incoming);
      case TakingStreamEvent(_) => StepUntracked(p, p2, q, outgoing, incoming);
    }
  }

  lemma NextHolds(w: World, v: World)
    requires Invariant(w) && Next(w, v)
    ensures Invariant(v)
  {
    hide Joined, Moves;
    var a: Action :|
      || (Moves(w.a, w.ab, w.ba, a, v.a, v.ab, v.ba) && v.b == w.b)
      || (Moves(w.b, w.ba, w.ab, a, v.b, v.ba, v.ab) && v.a == w.a);
    if Moves(w.a, w.ab, w.ba, a, v.a, v.ab, v.ba) && v.b == w.b {
      MoveHolds(w.a, w.b, w.ab, w.ba, a, v.a, v.ab, v.ba);
    } else {
      JoinedSwap(w.a, w.b, w.ab, w.ba);
      MoveHolds(w.b, w.a, w.ba, w.ab, a, v.b, v.ba, v.ab);
      JoinedSwap(v.b, v.a, v.ba, v.ab);
    }
  }

  lemma {:induction false} RunHolds(run: seq<World>, k: nat)
    requires Run(run) && k < |run|
    ensures Invariant(run[k])
  {
    hide Invariant, Next, Initial;
    if k == 0 {
      InitialHolds(run[0]);
    } else {
      RunHolds(run, k - 1);
      NextHolds(run[k - 1], run[k]);
    }
  }

  /**
   Ordered delivery: in every run, what one end has handed out on a stream is a prefix of what the
   other end's accepted sends supplied, and all of it once the end was reported.
   */
  lemma OrderedDelivery(run: seq<World>, k: nat, id: u32)
    requires Run(run) && k < |run| && id != 0
    ensures var w := run[k];
            && Got(w.b.log, id) <= w.a.SentBytes(id)
            && Got(w.a.log, id) <= w.b.SentBytes(id)
            && (Finished(w.b.log, id) ==> Got(w.b.log, id) == w.a.SentBytes(id))
            && (Finished(w.a.log, id) ==> Got(w.a.log, id) == w.b.SentBytes(id))
  {
    RunHolds(run, k);
    var w := run[k];
    assert StreamChannel(w.a, w.b, Flight(w.ab, w.a), id);
    assert StreamChannel(w.b, w.a, Flight(w.ba, w.b), id);
  }

  /**
   Honest peers never violate: delivering the next frame to an open end of any reachable pair
   succeeds or fails for capacity, never for numbering or protocol.
   */
  lemma HonestFramesAreAccepted(run: seq<World>, k: nat, registry: map<Protocol, Owner>, now: Instant, admit: bool,
                                admitError: bool)
    requires Run(run) && k < |run|
    ensures var w := run[k];
            && (w.ab != [] && !w.b.s.closed && w.b.clock <= now ==>
                  Acceptable(Receive(w.b.s, w.ab[0], registry, now, admit, admitError).result))
            && (w.ba != [] && !w.a.s.closed && w.a.clock <= now ==>
                  Acceptable(Receive(w.a.s, w.ba[0], registry, now, admit, admitError).result))
  {
    hide Joined, Receive, Run;
    RunHolds(run, k);
    var w := run[k];
    if w.ba != [] && !w.a.s.closed && w.a.clock <= now {
      StepReceive(w.a, w.b, w.ab, w.ba, registry, now, admit, admitError);
    }
    if w.ab != [] && !w.b.s.closed && w.b.clock <= now {
      JoinedSwap(w.a, w.b, w.ab, w.ba);
      StepReceive(w.b, w.a, w.ba, w.ab, registry, now, admit, admitError);
    }
  }
}
