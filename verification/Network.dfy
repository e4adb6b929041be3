/**
 Two whole sessions whose frames are sealed, handed to a network that may drop, repeat, reorder,
 redirect and forge at will, and verified on arrival. Every run is one of two sessions on FIFO links.
 */
module Network {
  import opened Bytes
  import opened Codec
  import opened StreamNumbering
  import opened Wire
  import opened SessionTypes
  import opened Lines
  import opened SessionModel
  import opened SessionRun
  import opened ChannelMoves
  import opened PairInvariant
  import opened PairSteps
  import opened PairReceive
  import I = Integrity
  import T = Tunnel
  import P = Pair
  import G = PairAgreement
  import H = HandshakeRun
  import K = Handshakes
  import Transcripts

  datatype Node = Node(e: Endpoint, party: T.Party)

  datatype World = World(a: Node, b: Node)

  /** What happens at one end; whatever the network delivers is an input. */
  datatype Input =
    | Calling(call: Action)
    | Emitting(mac: I.Mac)
    | Emitted
    | Arriving(packet: Packet, check: I.Check, registry: map<Protocol, Owner>, now: Instant, admit: bool,
               admitError: bool)
    | Breaking(failure: Option<Failure>)

  predicate Fits(f: Frame) {
    |f.payload| <= MAX_PAYLOAD && ValidScope(f.kind, f.id)
  }

  function Packed(f: Frame): (p: Packet)
    requires Fits(f)
    ensures p.Valid() && p.tag.None? && FrameOf(p) == f
  {
    Packet(Header(f.kind, f.id, |f.payload|), f.payload, None)
  }

  function FrameOf(p: Packet): Frame {
    Frame(p.header.kind, p.header.id, p.payload)
  }

  ghost function Frames(packets: seq<Packet>): (r: seq<Frame>)
    ensures |r| == |packets| && forall i :: 0 <= i < |r| ==> r[i] == FrameOf(packets[i])
  {
    seq(|packets|, i requires 0 <= i < |packets| => FrameOf(packets[i]))
  }

  /** The connection is lost without a word. */
  function Lost(code: FailureCode): Action {
    Closing(Some(Failure(Local, code)), None, false)
  }

  function Cause(e: I.IntegrityError): FailureCode {
    if e == I.Exhausted then SequenceExhausted else IntegrityFailed
  }

  ghost function Head(e: Endpoint): Frame
    requires e.s.outbound != []
  {
    PopOutbound(e.s).1.value
  }

  ghost predicate Can(n: Node, other: Node, i: Input) {
    match i
    case Calling(call) => Enabled(n.e, call) && !call.Receiving? && !call.TakingOutput? && !call.FinishingOutput?
    case Emitting(_) => Enabled(n.e, TakingOutput) && n.party.guard.send.Some? && Fits(Head(n.e))
    case Emitted => Enabled(n.e, FinishingOutput) && n.party.guard.pending
    case Arriving(p, check, _, now, _, _) =>
      && !n.e.s.closed && n.e.clock <= now && n.party.guard.receive.Some?
      && p.Valid() && T.Ideal(check, n.party.minted + other.party.minted)
    case Breaking(failure) => LocalCause(failure, None)
  }

  /** A node that lost its connection: the session is told and the keys are gone. */
  ghost function Down(e: Endpoint, party: T.Party, code: FailureCode): Node {
    Node(Act(e, Lost(code)), T.Act(party, T.Closing))
  }

  ghost function After(n: Node, other: Node, i: Input): Node
    requires Can(n, other, i)
  {
    match i
    case Calling(call) => n.(e := Act(n.e, call))
    case Emitting(mac) =>
      var r := I.Seal(n.party.guard, Packed(Head(n.e)), mac).result;
      var taken, party := Act(n.e, TakingOutput), T.Act(n.party, T.Sealing(Packed(Head(n.e)), mac));
      if r.Ok? then Node(taken, party) else Down(taken, party, Cause(r.error))
    case Emitted =>
      var r := I.Sent(n.party.guard).result;
      var party := T.Act(n.party, T.Completing);
      if r.Ok? then Node(Act(n.e, FinishingOutput), party) else Down(n.e, party, Cause(r.error))
    case Arriving(p, check, registry, now, admit, admitError) =>
      var r := I.Verify(n.party.guard, p, check).result;
      var party := T.Act(n.party, T.Receiving(p, check));
      if r.Ok? then Node(Act(n.e, Receiving(FrameOf(p), registry, now, admit, admitError)), party)
      else Down(n.e, party, Cause(r.error))
    case Breaking(failure) => Node(Act(n.e, Closing(failure, None, false)), T.Act(n.party, T.Closing))
  }

  ghost predicate Next(w: World, v: World) {
    exists i: Input ::
      || (Can(w.a, w.b, i) && v.a == After(w.a, w.b, i) && v.b == w.b)
      || (Can(w.b, w.a, i) && v.b == After(w.b, w.a, i) && v.a == w.a)
  }

  ghost predicate Initial(w: World, ab: I.DirectionKeys, ba: I.DirectionKeys) {
    && T.Initial(T.World(w.a.party, w.b.party), ab, ba)
    && (exists c: nat, l: Limits :: w.a.e == Start(c, Initiator, l))
    && (exists c: nat, l: Limits :: w.b.e == Start(c, Acceptor, l))
  }

  ghost predicate Run(run: seq<World>, ab: I.DirectionKeys, ba: I.DirectionKeys) {
    && run != [] && Initial(run[0], ab, ba)
    && forall k :: 0 < k < |run| ==> Next(run[k - 1], run[k])
  }

  // ---------------------------------------------------------------- one step is one or two calls on FIFO links

  /** What is on the FIFO link: frames sealed and not yet released, and behind them what was lost in sealing. */
  ghost predicate Linked(p: T.Party, q: T.Party, link: seq<Frame>) {
    && |q.released| <= |p.sealed|
    && Frames(p.sealed[|q.released|..]) <= link
    && (p.guard.send.Some? ==> Frames(p.sealed[|q.released|..]) == link)
  }

  /** One call on one end of a pair, with the links after it. */
  datatype Hop = Hop(call: Action, e: Endpoint, outgoing: seq<Frame>, incoming: seq<Frame>)

  ghost predicate Hops(e: Endpoint, outgoing: seq<Frame>, incoming: seq<Frame>, hop: Hop) {
    P.Moves(e, outgoing, incoming, hop.call, hop.e, hop.outgoing, hop.incoming)
  }

  /** A hop or two from here to a state that matches the node. */
  ghost predicate Walk(e: Endpoint, outgoing: seq<Frame>, incoming: seq<Frame>, hops: seq<Hop>, n: Node, other: Node) {
    && 1 <= |hops| <= 2
    && Hops(e, outgoing, incoming, hops[0])
    && (|hops| == 2 ==> Hops(hops[0].e, hops[0].outgoing, hops[0].incoming, hops[1]))
    && var end := hops[|hops| - 1];
       end.e == n.e && Linked(n.party, other.party, end.outgoing) && Linked(other.party, n.party, end.incoming)
  }

  /** Closing a guard only loosens what the link must hold. */
  lemma LinkedClosed(p: T.Party, q: T.Party, outgoing: seq<Frame>, incoming: seq<Frame>)
    requires Linked(p, q, outgoing) && Linked(q, p, incoming)
    ensures Linked(T.Act(p, T.Closing), q, outgoing) && Linked(q, T.Act(p, T.Closing), incoming)
  {
  }

  lemma WalkCall(n: Node, other: Node, outgoing: seq<Frame>, incoming: seq<Frame>, i: Input) returns (hops: seq<Hop>)
    requires Linked(n.party, other.party, outgoing) && Linked(other.party, n.party, incoming)
    requires Can(n, other, i) && (i.Calling? || i.Emitted? || i.Breaking?)
    ensures Walk(n.e, outgoing, incoming, hops, After(n, other, i), other)
  {
    hide Act, Linked;
    var n2 := After(n, other, i);
    var call;
    match i {
      case Calling(c) => call := c;
      case Emitted =>
        var r := I.Sent(n.party.guard).result;
        call := if r.Ok? then FinishingOutput else Lost(Cause(r.error));
        LinkedSame(n.party, T.Act(n.party, T.Completing), other.party, outgoing, incoming);
        LinkedClosed(T.Act(n.party, T.Completing), other.party, outgoing, incoming);
      case Breaking(failure) =>
        call := Closing(failure, None, false);
        LinkedClosed(n.party, other.party, outgoing, incoming);
    }
    hops := [Hop(call, n2.e, outgoing, incoming)];
  }

  /** A guard that keeps its sealed and released frames, and does not come back to life, stays linked. */
  lemma LinkedSame(p: T.Party, p2: T.Party, q: T.Party, outgoing: seq<Frame>, incoming: seq<Frame>)
    requires Linked(p, q, outgoing) && Linked(q, p, incoming)
    requires p2.sealed == p.sealed && p2.released == p.released && (p2.guard.send.Some? ==> p.guard.send.Some?)
    ensures Linked(p2, q, outgoing) && Linked(q, p2, incoming)
  {
  }

  lemma LinkedSealed(p: T.Party, p2: T.Party, q: T.Party, outgoing: seq<Frame>, incoming: seq<Frame>, packet: Packet)
    requires Linked(p, q, outgoing) && Linked(q, p, incoming) && p.guard.send.Some?
    requires p2.released == p.released
    requires p2.sealed == p.sealed + [packet] || (p2.sealed == p.sealed && p2.guard.send.None?)
    ensures Linked(p2, q, outgoing + [FrameOf(packet)]) && Linked(q, p2, incoming)
  {
    if p2.sealed == p.sealed + [packet] {
      var k := |q.released|;
      assert p2.sealed[k..] == p.sealed[k..] + [packet];
    }
  }

  lemma WalkEmitting(n: Node, other: Node, outgoing: seq<Frame>, incoming: seq<Frame>, i: Input)
    returns (hops: seq<Hop>)
    requires Linked(n.party, other.party, outgoing) && Linked(other.party, n.party, incoming)
    requires Can(n, other, i) && i.Emitting?
    ensures Walk(n.e, outgoing, incoming, hops, After(n, other, i), other)
  {
    hide Act, Linked, PopOutbound, Fits;
    var f, packet := Head(n.e), Packed(Head(n.e));
    var r := I.Seal(n.party.guard, packet, i.mac).result;
    var taken, longer := Act(n.e, TakingOutput), outgoing + [f];
    var party := T.Act(n.party, T.Sealing(packet, i.mac));
    hops := [Hop(TakingOutput, taken, longer, incoming)];
    if r.Ok? {
      LinkedSealed(n.party, party, other.party, outgoing, incoming, r.value);
    } else {
      LinkedSealed(n.party, T.Act(party, T.Closing), other.party, outgoing, incoming, packet);
      hops := hops + [Hop(Lost(Cause(r.error)), Act(taken, Lost(Cause(r.error))), longer, incoming)];
    }
  }

  lemma LinkedReleased(p: T.Party, q: T.Party, q2: T.Party, incoming: seq<Frame>, outgoing: seq<Frame>, f: Packet)
    requires Linked(p, q, incoming) && Linked(q, p, outgoing)
    requires |q.released| < |p.sealed| && p.sealed[|q.released|] == f
    requires q2.released == q.released + [f] && q2.sealed == q.sealed && (q2.guard.send.Some? ==> q.guard.send.Some?)
    ensures incoming != [] && incoming[0] == FrameOf(f)
    ensures Linked(p, q2, incoming[1..]) && Linked(q2, p, outgoing)
  {
    var k := |q.released|;
    var before, after := Frames(p.sealed[k..]), Frames(p.sealed[k + 1..]);
    assert p.sealed[k..] == [f] + p.sealed[k + 1..];
    assert before[0] == FrameOf(f) && before[1..] == after;
  }

  /** Whatever the network delivers, what verifies is the frame at the head of the link. */
  lemma WalkArriving(n: Node, other: Node, outgoing: seq<Frame>, incoming: seq<Frame>, i: Input,
                     own: I.DirectionKeys, theirs: I.DirectionKeys) returns (hops: seq<Hop>)
    requires Linked(n.party, other.party, outgoing) && Linked(other.party, n.party, incoming)
    requires T.Invariant(n.party, other.party, own, theirs) && own != theirs
    requires Can(n, other, i) && i.Arriving?
    ensures Walk(n.e, outgoing, incoming, hops, After(n, other, i), other)
  {
    hide Act, Linked, T.Ideal, T.Invariant, I.Nonce;
    var n2 := After(n, other, i);
    var r := I.Verify(n.party.guard, i.packet, i.check).result;
    var party := T.Act(n.party, T.Receiving(i.packet, i.check));
    if r.Ok? {
      Released(other.party, n.party, theirs, own, i.packet, i.check);
      LinkedReleased(other.party, n.party, party, incoming, outgoing, i.packet);
      hops := [Hop(Receiving(FrameOf(i.packet), i.registry, i.now, i.admit, i.admitError), n2.e, outgoing,
                   incoming[1..])];
    } else {
      LinkedSame(n.party, party, other.party, outgoing, incoming);
      LinkedClosed(party, other.party, outgoing, incoming);
      hops := [Hop(Lost(Cause(r.error)), n2.e, outgoing, incoming)];
    }
  }

  lemma Released(p: T.Party, q: T.Party, pq: I.DirectionKeys, qp: I.DirectionKeys, f: Packet, check: I.Check)
    requires T.Invariant(q, p, qp, pq) && pq != qp
    requires f.Valid() && T.Ideal(check, q.minted + p.minted) && I.Verify(q.guard, f, check).result.Ok?
    ensures |q.released| < |p.sealed| && p.sealed[|q.released|] == f
  {
    hide T.Ideal, I.Nonce;
    T.Authentic(p, q, pq, qp, f, check);
  }

  lemma WalkStep(n: Node, other: Node, outgoing: seq<Frame>, incoming: seq<Frame>, i: Input,
                 own: I.DirectionKeys, theirs: I.DirectionKeys) returns (hops: seq<Hop>)
    requires Linked(n.party, other.party, outgoing) && Linked(other.party, n.party, incoming)
    requires T.Invariant(n.party, other.party, own, theirs) && own != theirs && Can(n, other, i)
    ensures Walk(n.e, outgoing, incoming, hops, After(n, other, i), other)
    ensures T.Invariant(After(n, other, i).party, other.party, own, theirs)
  {
    hide Walk, Linked, T.Invariant, Can, After;
    GuardKeeps(n, other, i, own, theirs);
    if i.Emitting? {
      hops := WalkEmitting(n, other, outgoing, incoming, i);
    } else if i.Arriving? {
      hops := WalkArriving(n, other, outgoing, incoming, i, own, theirs);
    } else {
      hops := WalkCall(n, other, outgoing, incoming, i);
    }
  }

  lemma GuardKeeps(n: Node, other: Node, i: Input, own: I.DirectionKeys, theirs: I.DirectionKeys)
    requires T.Invariant(n.party, other.party, own, theirs) && own != theirs && Can(n, other, i)
    ensures T.Invariant(After(n, other, i).party, other.party, own, theirs)
  {
    hide Act, T.Invariant, T.Act, Head, Fits, T.Ideal;
    match i {
      case Calling(_) =>
      case Emitting(mac) => GuardActs(n.party, other.party, own, theirs, T.Sealing(Packed(Head(n.e)), mac));
      case Emitted => GuardActs(n.party, other.party, own, theirs, T.Completing);
      case Arriving(p, check, _, _, _, _) => GuardActs(n.party, other.party, own, theirs, T.Receiving(p, check));
      case Breaking(_) => GuardActs(n.party, other.party, own, theirs, T.Closing);
    }
  }

  lemma GuardActs(p: T.Party, q: T.Party, own: I.DirectionKeys, theirs: I.DirectionKeys, a: T.Action)
    requires T.Invariant(p, q, own, theirs) && own != theirs && T.Enabled(p, q, a)
    ensures T.Invariant(T.Act(p, a), q, own, theirs)
    ensures T.Invariant(T.Act(T.Act(p, a), T.Closing), q, own, theirs)
  {
    hide T.Invariant, T.Act, T.Ideal;
    T.StepKeeps(p, q, own, theirs, a);
    T.StepKeeps(T.Act(p, a), q, own, theirs, T.Closing);
  }

  // ---------------------------------------------------------------- a run is a run of a pair

  ghost predicate Matches(w: World, v: P.World) {
    && v.a == w.a.e && v.b == w.b.e
    && Linked(w.a.party, w.b.party, v.ab) && Linked(w.b.party, w.a.party, v.ba)
  }

  lemma Extend(pairs: seq<P.World>, v: P.World)
    requires P.Run(pairs) && P.Next(pairs[|pairs| - 1], v)
    ensures P.Run(pairs + [v])
  {
    hide P.Next, P.Initial;
    var longer := pairs + [v];
    forall k | 0 < k < |longer|
      ensures P.Next(longer[k - 1], longer[k])
    {
      assert k < |pairs| ==> P.Next(pairs[k - 1], pairs[k]);
    }
  }

  function AtA(v: P.World, hop: Hop): P.World {
    v.(a := hop.e, ab := hop.outgoing, ba := hop.incoming)
  }

  function AtB(v: P.World, hop: Hop): P.World {
    v.(b := hop.e, ba := hop.outgoing, ab := hop.incoming)
  }

  lemma HopIsNext(v: P.World, hop: Hop)
    ensures Hops(v.a, v.ab, v.ba, hop) ==> P.Next(v, AtA(v, hop))
    ensures Hops(v.b, v.ba, v.ab, hop) ==> P.Next(v, AtB(v, hop))
  {
    hide P.Moves;
  }

  /** The pair walks along, on either side. */
  lemma WalkAlong(pairs: seq<P.World>, hops: seq<Hop>, n: Node, other: Node, first: bool) returns (longer: seq<P.World>)
    requires P.Run(pairs)
    requires var v := pairs[|pairs| - 1];
             if first then Walk(v.a, v.ab, v.ba, hops, n, other) && v.b == other.e
             else Walk(v.b, v.ba, v.ab, hops, n, other) && v.a == other.e
    ensures P.Run(longer) && pairs <= longer
    ensures Matches(if first then World(n, other) else World(other, n), longer[|longer| - 1])
  {
    hide P.Run, P.Next, P.Moves, Hops, Linked;
    assert pairs != [] by { Nonempty(pairs); }
    var v := pairs[|pairs| - 1];
    HopIsNext(v, hops[0]);
    var v1 := if first then AtA(v, hops[0]) else AtB(v, hops[0]);
    Extend(pairs, v1);
    longer := pairs + [v1];
    if |hops| == 2 {
      HopIsNext(v1, hops[1]);
      var v2 := if first then AtA(v1, hops[1]) else AtB(v1, hops[1]);
      Extend(longer, v2);
      longer := longer + [v2];
    }
  }

  lemma Nonempty(pairs: seq<P.World>)
    requires P.Run(pairs)
    ensures pairs != []
  {
  }

  /** Each point of the run is a point of the run of the pair. */
  ghost predicate Covers(pairs: seq<P.World>, run: seq<World>, n: nat)
    requires n <= |run|
  {
    forall i :: 0 <= i < n ==> exists j :: 0 <= j < |pairs| && pairs[j].a == run[i].a.e && pairs[j].b == run[i].b.e
  }

  lemma CoversMore(pairs: seq<P.World>, longer: seq<P.World>, run: seq<World>, n: nat)
    requires n < |run| && Covers(pairs, run, n) && pairs <= longer && longer != []
    requires longer[|longer| - 1].a == run[n].a.e && longer[|longer| - 1].b == run[n].b.e
    ensures Covers(longer, run, n + 1)
  {
    forall i | 0 <= i < n + 1
      ensures exists j :: 0 <= j < |longer| && longer[j].a == run[i].a.e && longer[j].b == run[i].b.e
    {
      if i < n {
        var j :| 0 <= j < |pairs| && pairs[j].a == run[i].a.e && pairs[j].b == run[i].b.e;
        assert longer[j] == pairs[j];
      }
    }
  }

  /** The network buys nothing: every run over it is, call by call, a run of two sessions on FIFO links. */
  lemma {:induction false} RunIsPairRun(run: seq<World>, k: nat, ab: I.DirectionKeys, ba: I.DirectionKeys)
    returns (pairs: seq<P.World>)
    requires Run(run, ab, ba) && k < |run| && ab != ba
    ensures P.Run(pairs) && Matches(run[k], pairs[|pairs| - 1])
    ensures T.Invariant(run[k].a.party, run[k].b.party, ab, ba)
    ensures Covers(pairs, run, k + 1)
  {
    hide Next, T.Invariant, Initial, P.Run, Covers, Matches;
    if k == 0 {
      pairs := Begins(run[0], ab, ba);
      CoversFirst(pairs, run);
    } else {
      var shorter := RunIsPairRun(run, k - 1, ab, ba);
      assert shorter != [] by { Nonempty(shorter); }
      assert Next(run[k - 1], run[k]);
      pairs := StepIsWalk(run[k - 1], run[k], shorter, ab, ba);
      assert pairs != [] by { Nonempty(pairs); }
      MatchesEnds(run[k], pairs[|pairs| - 1]);
      CoversMore(shorter, pairs, run, k);
    }
  }

  lemma MatchesEnds(w: World, v: P.World)
    requires Matches(w, v)
    ensures v.a == w.a.e && v.b == w.b.e
  {
  }

  lemma CoversFirst(pairs: seq<P.World>, run: seq<World>)
    requires run != [] && |pairs| == 1 && Matches(run[0], pairs[0])
    ensures Covers(pairs, run, 1)
  {
    hide Linked;
    assert pairs[0].a == run[0].a.e;
  }

  lemma Begins(w: World, ab: I.DirectionKeys, ba: I.DirectionKeys) returns (pairs: seq<P.World>)
    requires Initial(w, ab, ba)
    ensures P.Run(pairs) && |pairs| == 1 && Matches(w, pairs[0])
    ensures T.Invariant(w.a.party, w.b.party, ab, ba)
  {
    T.Begins(T.World(w.a.party, w.b.party), ab, ba);
    pairs := [P.World(w.a.e, w.b.e, [], [])];
  }

  lemma StepIsWalk(w: World, w2: World, pairs: seq<P.World>, ab: I.DirectionKeys, ba: I.DirectionKeys)
    returns (longer: seq<P.World>)
    requires Next(w, w2) && ab != ba && T.Invariant(w.a.party, w.b.party, ab, ba)
    requires P.Run(pairs) && pairs != [] && Matches(w, pairs[|pairs| - 1])
    ensures P.Run(longer) && pairs <= longer && Matches(w2, longer[|longer| - 1])
    ensures T.Invariant(w2.a.party, w2.b.party, ab, ba)
  {
    hide Can, After, T.Invariant, Linked, Walk, P.Run;
    var v := pairs[|pairs| - 1];
    var i: Input :|
      || (Can(w.a, w.b, i) && w2.a == After(w.a, w.b, i) && w2.b == w.b)
      || (Can(w.b, w.a, i) && w2.b == After(w.b, w.a, i) && w2.a == w.a);
    if Can(w.a, w.b, i) && w2.a == After(w.a, w.b, i) && w2.b == w.b {
      var hops := WalkStep(w.a, w.b, v.ab, v.ba, i, ab, ba);
      longer := WalkAlong(pairs, hops, w2.a, w2.b, true);
    } else {
      InvariantSwap(w.a.party, w.b.party, ab, ba);
      var hops := WalkStep(w.b, w.a, v.ba, v.ab, i, ba, ab);
      InvariantSwap(w2.b.party, w2.a.party, ba, ab);
      longer := WalkAlong(pairs, hops, w2.b, w2.a, false);
    }
  }

  lemma InvariantSwap(p: T.Party, q: T.Party, pq: I.DirectionKeys, qp: I.DirectionKeys)
    requires T.Invariant(p, q, pq, qp)
    ensures T.Invariant(q, p, qp, pq)
  {
  }

  // ---------------------------------------------------------------- what the sessions' promises become

  /**
   What one end handed out on a stream is a prefix of what the other supplied, and all of it once the end is
   reported.
   */
  ghost predicate Faithful(from: Endpoint, to: Endpoint, id: u32) {
    && Got(to.log, id) <= from.SentBytes(id)
    && (Finished(to.log, id) ==> Got(to.log, id) == from.SentBytes(id))
  }

  /**
   Ordered delivery over an arbitrary network: what one end handed out on a stream is a prefix of what
   the other end's accepted sends supplied, and all of it once the end was reported.
   */
  lemma DeliveredInOrder(run: seq<World>, k: nat, ab: I.DirectionKeys, ba: I.DirectionKeys, id: u32)
    requires Run(run, ab, ba) && k < |run| && ab != ba && id != 0
    ensures Faithful(run[k].a.e, run[k].b.e, id) && Faithful(run[k].b.e, run[k].a.e, id)
  {
    hide P.Run, Run, T.Invariant, Covers, Linked, Got, Finished;
    var pairs := RunIsPairRun(run, k, ab, ba);
    assert pairs != [] by { Nonempty(pairs); }
    P.OrderedDelivery(pairs, |pairs| - 1, id);
  }

  /** Nothing the network can get past verification makes an honest session see a violation. */
  lemma VerifiedIsAcceptable(run: seq<World>, k: nat, ab: I.DirectionKeys, ba: I.DirectionKeys, i: Input)
    requires Run(run, ab, ba) && k < |run| && ab != ba && i.Arriving?
    ensures var w := run[k];
            && (Can(w.a, w.b, i) && I.Verify(w.a.party.guard, i.packet, i.check).result.Ok? ==>
                  Acceptable(Receive(w.a.e.s, FrameOf(i.packet), i.registry, i.now, i.admit, i.admitError).result))
            && (Can(w.b, w.a, i) && I.Verify(w.b.party.guard, i.packet, i.check).result.Ok? ==>
                  Acceptable(Receive(w.b.e.s, FrameOf(i.packet), i.registry, i.now, i.admit, i.admitError).result))
  {
    hide P.Run, Run, T.Invariant, Covers, Linked, Receive, Acceptable, I.Verify, Can;
    var pairs := RunIsPairRun(run, k, ab, ba);
    assert pairs != [] by { Nonempty(pairs); }
    var w, v := run[k], pairs[|pairs| - 1];
    P.HonestFramesAreAccepted(pairs, |pairs| - 1, i.registry, i.now, i.admit, i.admitError);
    if Can(w.a, w.b, i) && I.Verify(w.a.party.guard, i.packet, i.check).result.Ok? {
      HeadArrives(w.a, w.b, v.ba, i, ab, ba);
    }
    if Can(w.b, w.a, i) && I.Verify(w.b.party.guard, i.packet, i.check).result.Ok? {
      InvariantSwap(w.a.party, w.b.party, ab, ba);
      HeadArrives(w.b, w.a, v.ab, i, ba, ab);
    }
  }

  lemma HeadArrives(n: Node, other: Node, incoming: seq<Frame>, i: Input, own: I.DirectionKeys, theirs: I.DirectionKeys)
    requires Linked(other.party, n.party, incoming) && T.Invariant(n.party, other.party, own, theirs) && own != theirs
    requires i.Arriving? && Can(n, other, i) && I.Verify(n.party.guard, i.packet, i.check).result.Ok?
    ensures incoming != [] && incoming[0] == FrameOf(i.packet) && !n.e.s.closed && n.e.clock <= i.now
  {
    hide T.Ideal, T.Invariant, I.Verify;
    Released(other.party, n.party, theirs, own, i.packet, i.check);
    assert Frames(other.party.sealed[|n.party.released|..])[0] == FrameOf(i.packet);
  }

  /** GOAWAY agreement over an arbitrary network, at any two points of the run. */
  lemma RefusalsAreAgreed(run: seq<World>, i: nat, j: nat, ab: I.DirectionKeys, ba: I.DirectionKeys, id: u32)
    requires Run(run, ab, ba) && i < |run| && j < |run| && ab != ba
    ensures G.ReportedRefused(run[i].a.e.log, id) ==> !G.Opened(run[j].b.e.log, id)
    ensures G.ReportedRefused(run[i].b.e.log, id) ==> !G.Opened(run[j].a.e.log, id)
  {
    hide P.Run, Run, T.Invariant, Linked, G.ReportedRefused, G.Opened;
    var pairs := RunIsPairRun(run, if i < j then j else i, ab, ba);
    var m :| 0 <= m < |pairs| && pairs[m].a == run[i].a.e && pairs[m].b == run[i].b.e;
    var n :| 0 <= n < |pairs| && pairs[n].a == run[j].a.e && pairs[n].b == run[j].b.e;
    G.RefusedMeansNeverOpened(pairs, m, n, id);
  }

  // ---------------------------------------------------------------- every frame fits its header

  lemma WellFormedFits(f: Frame)
    requires f.id != 0 && WellFormed(f)
    ensures Fits(f)
  {
  }

  lemma ControlFits(s: State, f: Frame)
    requires f.id == 0 && ControlFrame(s, f)
    ensures Fits(f)
  {
  }

  lemma InFlightFits(p: Endpoint, q: Endpoint, flight: seq<Frame>, f: Frame)
    requires Direction(p, q, flight) && f in flight
    ensures Fits(f)
  {
    hide Numbers, Fits, WellFormed, ControlFrame;
    LineMembers(flight, f.id);
    assert f in Line(flight, f.id);
    var i :| 0 <= i < |Line(flight, f.id)| && Line(flight, f.id)[i] == f;
    if f.id == 0 {
      ControlFits(p.s, f);
    } else {
      assert StreamChannel(p, q, flight, f.id);
      WellFormedFits(f);
    }
  }

  /** Whatever a session queues in any run has a valid header: the writer is never offered anything else. */
  lemma EveryFrameFits(run: seq<World>, k: nat, ab: I.DirectionKeys, ba: I.DirectionKeys, f: Frame)
    requires Run(run, ab, ba) && k < |run| && ab != ba
    requires f in run[k].a.e.s.outbound || f in run[k].b.e.s.outbound
    ensures Fits(f)
  {
    hide P.Run, Run, T.Invariant, Covers, Linked, Direction, Fits;
    var pairs := RunIsPairRun(run, k, ab, ba);
    assert pairs != [] by { Nonempty(pairs); }
    var v := pairs[|pairs| - 1];
    P.RunHolds(pairs, |pairs| - 1);
    if f in v.a.s.outbound {
      InFlightFits(v.a, v.b, Flight(v.ab, v.a), f);
    } else {
      InFlightFits(v.b, v.a, Flight(v.ba, v.b), f);
    }
  }

  // ---------------------------------------------------------------- from the first HELLO to the last byte

  /** A node as the handover leaves it: a session in the handshake's role, under the handshake's keys. */
  ghost predicate HandedOver(n: Node, facts: K.Established) {
    && n.party == T.Party(I.NewGuard(facts.keys.send, facts.keys.receive), [], [], [])
    && exists c: nat, l: Limits :: n.e == Start(c, facts.role, l)
  }

  lemma MirroredKeysStart(w: World, a: K.Established, b: K.Established)
    requires H.Mirrored(a, b) && a.role == Initiator && HandedOver(w.a, a) && HandedOver(w.b, b)
    ensures Initial(w, a.keys.send, a.keys.receive)
  {
  }

  /** A run of two sessions that begins where two handshakes left off, the initiator's first. */
  ghost predicate Continues(run: seq<World>, f: K.Established, g: K.Established) {
    && run != [] && f.keys.send != f.keys.receive
    && (if f.role == Initiator then HandedOver(run[0].a, f) && HandedOver(run[0].b, g)
        else HandedOver(run[0].a, g) && HandedOver(run[0].b, f))
    && forall k :: 0 < k < |run| ==> Next(run[k - 1], run[k])
  }

  /**
   The whole stack: two of any number of handshakes over an active network have met and hand their keys
   to two sessions over another arbitrary network, and every stream of those sessions is an ordered
   byte channel both ways.
   */
  lemma EndToEnd(c: K.Primitives, meeting: seq<H.World>, m: nat, i: nat, j: nat, run: seq<World>, k: nat, id: u32)
    requires H.Run(c, meeting) && m < |meeting| && i < |meeting[m]| && j < |meeting[m]|
    requires H.Met(meeting[m][i], meeting[m][j]) && meeting[m][i].facts != [] && meeting[m][j].facts != []
    requires Continues(run, meeting[m][i].facts[0], meeting[m][j].facts[0]) && k < |run| && id != 0
    ensures Faithful(run[k].a.e, run[k].b.e, id) && Faithful(run[k].b.e, run[k].a.e, id)
  {
    hide H.Run, H.Invariant, H.Met, HandedOver, Initial, Next, Faithful;
    H.RunKeeps(c, meeting, m);
    H.MetMeansMirrored(c, meeting[m], i, j);
    var f, g := meeting[m][i].facts[0], meeting[m][j].facts[0];
    var a, b := if f.role == Initiator then f else g, if f.role == Initiator then g else f;
    MirroredKeysStart(run[0], a, b);
    DeliveredInOrder(run, k, a.keys.send, a.keys.receive, id);
  }

  /**
   One pin on an honest identity is enough: the handshake that released facts has met one of that
   identity, and whatever sessions continue from the two deliver in order.
   */
  lemma PinnedEndToEnd(c: K.Primitives, meeting: seq<H.World>, m: nat, i: nat, n: nat, run: seq<World>, k: nat, id: u32)
    returns (j: nat)
    requires H.Run(c, meeting) && m < |meeting| && i < |meeting[m]| && n < |meeting[m]|
    requires forall x: Transcripts.Bytes32, y: Transcripts.Bytes32 :: c.identify(x) == c.identify(y) ==> x == y
    requires meeting[m][i].facts != [] && meeting[m][i].hand.expected == Some(meeting[m][n].hand.localIdentity)
    ensures j < |meeting[m]| && H.Met(meeting[m][i], meeting[m][j])
    ensures meeting[m][j].hand.localIdentity == meeting[m][n].hand.localIdentity
    ensures && meeting[m][j].facts != [] && k < |run| && id != 0
            && Continues(run, meeting[m][i].facts[0], meeting[m][j].facts[0]) ==>
              Faithful(run[k].a.e, run[k].b.e, id) && Faithful(run[k].b.e, run[k].a.e, id)
  {
    hide Continues, H.Met, Faithful;
    H.RunKeeps(c, meeting, m);
    j := H.PinnedMeansMeeting(c, meeting, m, i, n);
    if && meeting[m][j].facts != [] && k < |run| && id != 0
       && Continues(run, meeting[m][i].facts[0], meeting[m][j].facts[0]) {
      EndToEnd(c, meeting, m, i, j, run, k, id);
    }
  }
}
