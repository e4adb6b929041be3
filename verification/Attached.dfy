/**
 A connection with the session it handed over to. Together they are one node of the network model:
 whatever the socket does, each of their steps is a step or two of that node, or none.
 */
module Attached {
  import opened Bytes
  import opened Codec
  import opened StreamNumbering
  import opened SessionTypes
  import opened Wire
  import opened SessionModel
  import opened SessionRun
  import opened Lifecycle
  import opened SessionLife
  import opened Connections
  import opened FrameIO
  import I = Integrity
  import H = HandshakeRun
  import K = Handshakes
  import N = Network
  import S = Scheduler
  import T = Tunnel
  import Parsing

  /** One step of this end while the other stands still. */
  ghost predicate OneStep(n: N.Node, n2: N.Node, other: N.Node) {
    exists i: N.Input :: N.Can(n, other, i) && n2 == N.After(n, other, i)
  }

  ghost predicate Reaches(n: N.Node, n2: N.Node, other: N.Node) {
    n2 == n || OneStep(n, n2, other) || exists m: N.Node :: OneStep(n, m, other) && OneStep(m, n2, other)
  }

  /** What a connection shows to its session's side. */
  datatype Face = Face(open: bool, closing: bool, guard: I.Guard, slot: Option<(Kind, u32, Protection)>,
                       wire: seq<Packet>)

  ghost function FaceOf(c: Connection): Face
    reads c, c.integrity
  {
    Face(c.open, c.closing, c.Guarding(), c.writing, c.wire)
  }

  /** The writer's slot and the session's idea of it. */
  predicate SameSlot(slot: Option<(Kind, u32, Protection)>, writing: Option<(Kind, u32)>) {
    && (slot.Some? <==> writing.Some?)
    && (slot.Some? ==> writing.value == (slot.value.0, slot.value.1))
  }

  predicate SameSending(g: I.Guard, h: I.Guard) {
    g.send == h.send && g.sendSequence == h.sendSequence && g.pending == h.pending
  }

  /**
   Connection and node agree: tagged frames begun are frames sealed, guards are the same, and so is
   the writer's slot. A closing connection has stopped reading, so its receiving half no longer counts.
   */
  ghost predicate Tied(x: Face, plain: seq<Packet>, n: N.Node) {
    && x.wire == plain + n.party.sealed
    && if x.open then
         && SameSending(x.guard, n.party.guard) && (!x.closing ==> x.guard == n.party.guard)
         && SameSlot(x.slot, n.e.writing)
         && (x.closing ==> n.e.s.closed)
       else n.party.guard.send.None? && n.party.guard.receive.None? && n.e.s.closed
  }

  // ---------------------------------------------------------------- what each event does to both

  /** Closing an endpoint: it is closed afterwards, and nothing happens if it was before. */
  lemma ClosingCloses(e: Endpoint, failure: Option<Failure>, response: Option<ErrorCode>, admit: bool)
    requires LocalCause(failure, response)
    ensures var f := Act(e, Closing(failure, response, admit));
            f.s.closed && f.writing == e.writing && (e.s.closed ==> f == e)
  {
    hide Farewell, CloseOutput;
    if e.s.closed {
      assert Act(e, Closing(failure, response, admit)).log == e.log;
    }
  }

  lemma OutputKeeps(e: Endpoint)
    ensures Enabled(e, TakingOutput) ==>
              var f := Act(e, TakingOutput);
              f.s.closed == e.s.closed && f.writing == Some((N.Head(e).kind, N.Head(e).id))
    ensures Enabled(e, FinishingOutput) ==>
              Act(e, FinishingOutput).s.closed == e.s.closed && Act(e, FinishingOutput).writing.None?
  {
    hide S.Choice;
  }

  /** The node after its connection ended. */
  ghost function Ended(n: N.Node, failure: Option<Failure>): N.Node
    requires LocalCause(failure, None)
  {
    N.Node(Act(n.e, Closing(failure, None, false)), T.Act(n.party, T.Closing))
  }

  lemma EndedTied(x: Face, plain: seq<Packet>, n: N.Node, failure: Option<Failure>, other: N.Node)
    requires !x.open && x.wire == plain + n.party.sealed && LocalCause(failure, None)
    ensures Tied(x, plain, Ended(n, failure)) && OneStep(n, Ended(n, failure), other)
    ensures n.e.s.closed ==> Ended(n, failure).e == n.e
  {
    hide Act;
    ClosingCloses(n.e, failure, None, false);
    assert N.Can(n, other, N.Breaking(failure));
    assert N.After(n, other, N.Breaking(failure)) == Ended(n, failure);
  }

  lemma SealSame(g: I.Guard, h: I.Guard, f: Packet, mac: I.Mac)
    requires SameSending(g, h)
    ensures I.Seal(g, f, mac).result == I.Seal(h, f, mac).result
    ensures SameSending(I.Seal(g, f, mac).guard, I.Seal(h, f, mac).guard)
    ensures g == h ==> I.Seal(g, f, mac) == I.Seal(h, f, mac)
  {
  }

  /** The node took its next frame and sealed it, or lost its connection over that. */
  ghost predicate Emits(n: N.Node, n2: N.Node, mac: I.Mac, other: N.Node) {
    N.Can(n, other, N.Emitting(mac)) && n2 == N.After(n, other, N.Emitting(mac))
  }

  /** The node after its next frame was taken for sealing. */
  ghost function Offering(n: N.Node, mac: I.Mac): N.Node
    requires Enabled(n.e, TakingOutput) && N.Fits(N.Head(n.e))
  {
    N.Node(Act(n.e, TakingOutput), T.Act(n.party, T.Sealing(N.Packed(N.Head(n.e)), mac)))
  }

  lemma SealedTied(x: Face, y: Face, plain: seq<Packet>, n: N.Node, mac: I.Mac, other: N.Node)
    requires Tied(x, plain, n) && x.open && x.slot.None? && x.guard.send.Some?
    requires Enabled(n.e, TakingOutput) && N.Fits(N.Head(n.e))
    requires var f := N.Packed(N.Head(n.e));
             var r := I.Seal(x.guard, f, mac);
             && r.result.Ok?
             && y == Face(true, x.closing, r.guard, Some((f.header.kind, f.header.id, Tagged)),
                          x.wire + [r.result.value])
    ensures Tied(y, plain, Offering(n, mac)) && Emits(n, Offering(n, mac), mac, other)
  {
    hide Act, PopOutbound, I.Seal;
    var f := N.Packed(N.Head(n.e));
    SealSame(x.guard, n.party.guard, f, mac);
    OutputKeeps(n.e);
    assert plain + n.party.sealed + [I.Seal(x.guard, f, mac).result.value]
        == plain + (n.party.sealed + [I.Seal(x.guard, f, mac).result.value]);
    assert N.Can(n, other, N.Emitting(mac));
    assert N.After(n, other, N.Emitting(mac)) == Offering(n, mac);
  }

  lemma EmitsOneStep(n: N.Node, n2: N.Node, mac: I.Mac, other: N.Node)
    requires Emits(n, n2, mac, other)
    ensures OneStep(n, n2, other)
  {
    hide N.Can, N.After;
  }

  lemma UnsealedTied(x: Face, y: Face, plain: seq<Packet>, n: N.Node, mac: I.Mac, other: N.Node)
    requires Tied(x, plain, n) && x.open && x.slot.None? && x.guard.send.Some?
    requires Enabled(n.e, TakingOutput) && N.Fits(N.Head(n.e))
    requires I.Seal(x.guard, N.Packed(N.Head(n.e)), mac).result.Err? && !y.open && y.wire == x.wire
    ensures var r := I.Seal(x.guard, N.Packed(N.Head(n.e)), mac).result;
            var m := Ended(Offering(n, mac), Some(Failure(Local, N.Cause(r.error))));
            Tied(y, plain, m) && Emits(n, m, mac, other)
  {
    hide Act, PopOutbound, I.Seal;
    var f := N.Packed(N.Head(n.e));
    var r := I.Seal(x.guard, f, mac).result;
    var failure := Some(Failure(Local, N.Cause(r.error)));
    SealSame(x.guard, n.party.guard, f, mac);
    EndedTied(y, plain, Offering(n, mac), failure, other);
    assert N.Can(n, other, N.Emitting(mac));
    assert N.After(n, other, N.Emitting(mac)) == Ended(Offering(n, mac), failure);
  }

  lemma SentSame(g: I.Guard, h: I.Guard)
    requires SameSending(g, h)
    ensures I.Sent(g).result == I.Sent(h).result
    ensures SameSending(I.Sent(g).guard, I.Sent(h).guard)
    ensures g == h ==> I.Sent(g) == I.Sent(h)
  {
  }

  /** The node after its current frame was written. */
  ghost function Written(n: N.Node): N.Node
    requires Enabled(n.e, FinishingOutput)
  {
    N.Node(Act(n.e, FinishingOutput), T.Act(n.party, T.Completing))
  }

  lemma WrittenTied(x: Face, y: Face, plain: seq<Packet>, n: N.Node, other: N.Node)
    requires Tied(x, plain, n) && x.open && x.slot.Some? && x.guard.pending && I.Sent(x.guard).result.Ok?
    requires y == Face(true, x.closing, I.Sent(x.guard).guard, None, x.wire)
    ensures Enabled(n.e, FinishingOutput) && Tied(y, plain, Written(n)) && OneStep(n, Written(n), other)
  {
    hide Act, I.Sent;
    SentSame(x.guard, n.party.guard);
    OutputKeeps(n.e);
    assert N.Can(n, other, N.Emitted);
    assert N.After(n, other, N.Emitted) == Written(n);
  }

  /** A verified frame was passed on; if the session closed on it in mid-write, the connection ended as well. */
  ghost predicate PassedOn(n: N.Node, n2: N.Node, i: N.Input)
    requires i.Arriving? && n.e.clock <= i.now
  {
    n2 == Received(n, i) || n2 == Ended(Received(n, i), None)
  }

  /** A frame that was read: the connection does not survive a bad tag, and an open session gets what was verified. */
  ghost predicate Digested(n: N.Node, n2: N.Node, i: N.Input, open: bool)
    requires i.Arriving? && n.e.clock <= i.now
  {
    if I.Verify(n.party.guard, i.packet, i.check).result.Err? then !open
    else !n.e.s.closed ==> PassedOn(n, n2, i)
  }

  /** The node after a verified frame arrived. */
  ghost function Received(n: N.Node, i: N.Input): N.Node
    requires i.Arriving? && n.e.clock <= i.now
  {
    N.Node(Act(n.e, Receiving(N.FrameOf(i.packet), i.registry, i.now, i.admit, i.admitError)),
           T.Act(n.party, T.Receiving(i.packet, i.check)))
  }

  lemma TakenTied(x: Face, y: Face, plain: seq<Packet>, n: N.Node, i: N.Input, other: N.Node)
    requires Tied(x, plain, n) && x.open && !x.closing && !n.e.s.closed
    requires i.Arriving? && n.e.clock <= i.now && i.packet.Valid()
             && T.Ideal(i.check, n.party.minted + other.party.minted)
    requires I.Verify(x.guard, i.packet, i.check).result.Ok?
    requires y == x.(guard := I.Verify(x.guard, i.packet, i.check).guard)
    ensures Tied(y, plain, Received(n, i)) && OneStep(n, Received(n, i), other)
  {
    hide Act, I.Nonce, T.Ideal;
    ReceivingKeepsSlot(n.e, Receiving(N.FrameOf(i.packet), i.registry, i.now, i.admit, i.admitError));
    assert N.Can(n, other, i);
    assert N.After(n, other, i) == Received(n, i);
  }

  lemma ReceivingKeepsSlot(e: Endpoint, a: Action)
    requires Enabled(e, a) && !a.TakingOutput? && !a.FinishingOutput?
    ensures Act(e, a).writing == e.writing
  {
    hide OpenStream, Send, EndStream, CancelStream, SendPing, Tick, SessionModel.Drain, SessionModel.Close,
      SessionModel.Receive, PopEvent, PopStreamEvent;
  }

  /** A frame that arrives at a session already closed stops the reading; the session does not see it. */
  lemma DeafTied(x: Face, y: Face, plain: seq<Packet>, n: N.Node, f: Packet, check: I.Check)
    requires Tied(x, plain, n) && x.open && n.e.s.closed && I.Verify(x.guard, f, check).result.Ok?
    requires y == x.(guard := I.Verify(x.guard, f, check).guard, closing := true)
    ensures Tied(y, plain, n)
  {
  }

  /** A call on the session, by a consumer or, to close it with a last word, by the connection. */
  lemma CalledTied(x: Face, y: Face, plain: seq<Packet>, n: N.Node, a: Action, other: N.Node)
    requires Tied(x, plain, n) && Enabled(n.e, a) && !a.Receiving? && !a.TakingOutput? && !a.FinishingOutput?
    requires n.e.s.closed ==> Act(n.e, a).s.closed
    requires y == x || (x.open && y == x.(closing := true) && Act(n.e, a).s.closed)
    ensures Tied(y, plain, N.Node(Act(n.e, a), n.party)) && OneStep(n, N.Node(Act(n.e, a), n.party), other)
  {
    hide Act;
    ReceivingKeepsSlot(n.e, a);
    assert N.Can(n, other, N.Calling(a));
    assert N.After(n, other, N.Calling(a)) == N.Node(Act(n.e, a), n.party);
  }

  // ---------------------------------------------------------------- the objects

  predicate ByConsumer(a: Action) {
    !a.Receiving? && !a.TakingOutput? && !a.FinishingOutput? && !a.Closing?
  }

  /** The call an action stands for. */
  method Perform(o: Owned, a: Action)
    requires o.Valid() && o.life != [] && Enabled(o.Past(), a) && ByConsumer(a)
    modifies o, o.session, o.session.ids
    ensures o.Valid() && o.life == old(o.life) + [Follow(Newest(old(o.life)), a)]
  {
    hide Life, Follow, Act;
    match a {
      case Opening(owner, selection, admit, admitDrain) => var r := o.Open(owner, selection, admit, admitDrain);
      case Sending(owner, stream, bytes, admit) => var r := o.Supply(owner, stream, bytes, admit);
      case Ending(owner, stream, admit) => var r := o.End(owner, stream, admit);
      case Cancelling(owner, stream, reason, admit) => var r := o.Cancel(owner, stream, reason, admit);
      case Pinging(token, timeout, now, admit) => var r := o.Probe(token, timeout, now, admit);
      case Ticking(now) => o.TickTo(now);
      case DrainingFor(shutdown, admit) => var r := o.Drain(shutdown, admit);
      case TakingEvent => var r := o.NextEvent();
      case TakingStreamEvent(owner) => var r := o.NextStreamEvent(owner);
    }
  }

  lemma TiedSlot(x: Face, plain: seq<Packet>, n: N.Node)
    requires Tied(x, plain, n) && x.open
    ensures SameSlot(x.slot, n.e.writing) && SameSending(x.guard, n.party.guard) && x.wire == plain + n.party.sealed
    ensures !x.closing ==> x.guard == n.party.guard
  {
  }

  lemma HeadIsQueued(e: Endpoint)
    requires e.s.outbound != []
    ensures N.Head(e) in e.s.outbound
  {
  }

  lemma SealingLosesNothing(p: T.Party, f: Packet, mac: I.Mac, g: I.Guard)
    requires SameSending(g, p.guard) && I.Seal(g, f, mac).result.Err?
    ensures T.Act(p, T.Sealing(f, mac)).sealed == p.sealed
  {
  }

  class Attachment {
    const conn: Connection
    const owned: Owned
    ghost const plain: seq<Packet>   // frames begun before the handover
    ghost var party: T.Party

    ghost function Here(): N.Node
      reads this, owned
      requires owned.life != []
    {
      N.Node(owned.Past(), party)
    }

    ghost predicate Valid()
      reads this, conn, conn.reader, conn.writer, conn.inlet, conn.outlet, conn.handshake, conn.integrity
      reads owned, owned.session, owned.session.ids
    {
      conn.Valid() && conn.session && owned.Valid() && owned.life != [] && Tied(FaceOf(conn), plain, Here())
    }

    /** Right after the handover: a new session under the handshake's facts. */
    constructor (conn: Connection, connection: nat, facts: K.Established, limits: Limits)
      requires conn.Valid() && conn.open && !conn.closing && conn.session && conn.writing.None?
      requires conn.Guarding() == I.NewGuard(facts.keys.send, facts.keys.receive)
      ensures Valid() && this.conn == conn && fresh(owned) && fresh(owned.session) && fresh(owned.session.ids)
      ensures N.HandedOver(Here(), facts)
    {
      hide Connection.Valid, Life;
      this.conn := conn;
      owned := new Owned(connection, facts.role, limits);
      plain := conn.wire;
      party := T.Party(I.NewGuard(facts.keys.send, facts.keys.receive), [], [], []);
      new;
      assert conn.wire + [] == conn.wire;
    }

    /** The connection has ended: the session hears of it, and the keys are gone. */
    method Drop(failure: Option<Failure>, ghost other: N.Node)
      requires conn.Valid() && conn.session && owned.Valid() && owned.life != []
      requires !conn.open && conn.wire == plain + party.sealed && LocalCause(failure, None)
      modifies this, owned, owned.session
      ensures Valid() && Here() == Ended(old(Here()), failure) && OneStep(old(Here()), Here(), other)
    {
      hide Act, Life, Follow, Connection.Valid, OneStep, Tied;
      EndedTied(FaceOf(conn), plain, Here(), failure, other);
      NewestActs(owned.life, Closing(failure, None, false));
      owned.Close(failure, None, false);
      party := T.Act(party, T.Closing);
    }

    /**
     Take the session's next frame, seal it and hand it to the idle writer; with none left, a closing
     connection goes.
     */
    method Emit(mac: I.Mac, ghost other: N.Node) returns (begun: bool)
      requires Valid() && conn.open && conn.writing.None?
      requires forall f :: f in owned.session.outbound ==> N.Fits(f)
      modifies this, conn, conn.reader, conn.writer, conn.integrity, owned, owned.session
      ensures Valid() && Reaches(old(Here()), Here(), other)
      ensures old(owned.session.outbound) != [] ==> Emits(old(Here()), Here(), mac, other)
      ensures old(owned.session.outbound) == [] ==>
                if old(conn.closing) then !conn.open else conn.open && Here() == old(Here())
    {
      hide Connection.Valid, Life, OneStep, Emits;
      if owned.session.outbound == [] {
        hide Owned.Valid, Tied;
        TiedSlot(FaceOf(conn), plain, Here());
        begun := conn.Begin(None, mac);
        if !conn.open {
          Drop(None, other);
        }
      } else {
        begun := EmitNext(mac, other);
        EmitsOneStep(old(Here()), Here(), mac, other);
      }
    }

    method EmitNext(mac: I.Mac, ghost other: N.Node) returns (begun: bool)
      requires Valid() && conn.open && conn.writing.None? && owned.session.outbound != []
      requires forall f :: f in owned.session.outbound ==> N.Fits(f)
      modifies this, conn, conn.reader, conn.writer, conn.integrity, owned, owned.session
      ensures Valid() && Emits(old(Here()), Here(), mac, other)
    {
      hide Act, Life, Follow, Connection.Valid, Emits, I.Seal, PopOutbound, T.Act, Tied;
      ghost var n, x := Here(), FaceOf(conn);
      SessionIsGuarded(conn);
      TiedSlot(x, plain, n);
      HeadIsQueued(n.e);
      NewestActs(owned.life, TakingOutput);
      var next := owned.NextOutput();
      begun := Offer(x, n, N.Packed(next.value), mac, other);
    }

    /** The frame just taken from the session goes to the writer under a tag, or the connection ends. */
    method Offer(ghost x: Face, ghost n: N.Node, packet: Packet, mac: I.Mac, ghost other: N.Node) returns (begun: bool)
      requires conn.Valid() && conn.session && owned.Valid() && owned.life != []
      requires FaceOf(conn) == x && x.open && x.slot.None? && x.guard.send.Some? && Tied(x, plain, n)
               && n.party == party
      requires Enabled(n.e, TakingOutput) && N.Fits(N.Head(n.e)) && packet == N.Packed(N.Head(n.e))
      requires owned.Past() == Act(n.e, TakingOutput)
      modifies this, conn, conn.reader, conn.writer, conn.integrity, owned, owned.session
      ensures Valid() && Emits(n, Here(), mac, other)
    {
      hide Act, Life, Connection.Valid, Owned.Valid, OneStep, Emits, I.Seal, PopOutbound, T.Act, Tied;
      TiedSlot(x, plain, n);
      begun := conn.Begin(Some(packet), mac);
      party := T.Act(party, T.Sealing(packet, mac));
      if begun {
        SealedTied(x, FaceOf(conn), plain, n, mac, other);
      } else {
        UnsealedTied(x, FaceOf(conn), plain, n, mac, other);
        SealingLosesNothing(n.party, packet, mac, x.guard);
        Drop(conn.told.value.failure, other);
      }
    }

    /** Push the current frame out; its last byte makes it sent. */
    method Flush(ghost other: N.Node) returns (progressed: bool)
      requires Valid() && conn.open && conn.writing.Some?
      modifies this, conn, conn.reader, conn.writer, conn.outlet, conn.handshake, conn.integrity, owned, owned.session
      ensures Valid() && Reaches(old(Here()), Here(), other)
      ensures progressed ==>
                conn.writing.None? && Enabled(old(Here()).e, FinishingOutput) && Here() == Written(old(Here()))
      ensures !progressed && conn.open ==>
                Here() == old(Here()) && WriteStalls(old(conn.outlet.script), conn.outlet.script)
    {
      hide Life, Connection.Valid, Owned.Valid, OneStep, I.Sent, Tied;
      ghost var n, x := Here(), FaceOf(conn);
      var slot := conn.writing.value;
      SessionIsGuarded(conn);
      TiedSlot(x, plain, n);
      progressed := conn.Flush();
      if progressed {
        Note(x, slot.0, slot.1, other);
      } else if !conn.open {
        Drop(conn.told.value.failure, other);
      }
    }

    /** The session hears that its frame is out. */
    method Note(ghost x: Face, kind: Kind, id: u32, ghost other: N.Node)
      requires conn.Valid() && conn.session && owned.Valid() && owned.life != []
      requires Tied(x, plain, Here()) && x.open && x.slot.Some? && x.slot.value.0 == kind && x.slot.value.1 == id
      requires x.guard.pending && I.Sent(x.guard).result.Ok?
      requires FaceOf(conn) == Face(true, x.closing, I.Sent(x.guard).guard, None, x.wire)
      modifies this, owned, owned.session
      ensures Valid() && OneStep(old(Here()), Here(), other)
      ensures Enabled(old(Here()).e, FinishingOutput) && Here() == Written(old(Here()))
    {
      hide Act, Life, Follow, Connection.Valid, OneStep, I.Sent, T.Act, Tied;
      TiedSlot(x, plain, Here());
      WrittenTied(x, FaceOf(conn), plain, Here(), other);
      NewestActs(owned.life, FinishingOutput);
      owned.OutputWritten(kind, id);
      party := T.Act(party, T.Completing);
    }

    method Expire(ghost other: N.Node)
      requires Valid() && conn.open
      modifies this, conn, conn.reader, conn.writer, owned, owned.session
      ensures Valid() && !conn.open && OneStep(old(Here()), Here(), other)
    {
      hide Connection.Valid, Life, OneStep;
      conn.Expire();
      Drop(conn.told.value.failure, other);
    }

    /** A drained session with an idle writer ends its connection. */
    method Finish(ghost other: N.Node)
      requires Valid() && conn.open
      modifies this, conn, conn.reader, conn.writer, owned, owned.session
      ensures Valid() && !conn.open && OneStep(old(Here()), Here(), other)
    {
      hide Connection.Valid, Life, OneStep;
      conn.Finish();
      Drop(None, other);
    }

    /** One step of input. The network decides what the socket gives; tags are ideal. */
    method Intake(check: I.Check, registry: map<Protocol, Owner>, now: Instant, admit: bool, admitError: bool,
                  ghost other: N.Node)
      returns (progressed: bool)
      requires Valid() && conn.open && !conn.closing && owned.Past().clock <= now
      requires T.Ideal(check, party.minted + other.party.minted)
      modifies this, conn, conn.reader, conn.writer, conn.inlet, conn.integrity, owned, owned.session, owned.session.ids
      ensures Valid() && Reaches(old(Here()), Here(), other)
      ensures !progressed ==>
                Here() == old(Here()) && conn.open && ReadStalls(old(conn.inlet.script), conn.inlet.script)
      ensures conn.heard == old(conn.heard) || |conn.heard| == |old(conn.heard)| + 1
      ensures conn.heard != old(conn.heard) ==>
                var frame := conn.heard[|conn.heard| - 1];
                Digested(old(Here()), Here(), N.Arriving(frame, check, registry, now, admit, admitError), conn.open)
      ensures progressed && conn.heard == old(conn.heard) ==> conn.closing || !conn.open
    {
      hide Connection.Valid, Owned.Valid, Life, OneStep, T.Ideal, Digested, Tied;
      SessionIsGuarded(conn);
      var polled := conn.NextFrame();
      match polled {
        case Pending => return false;
        case Ready(Err(error)) => Fail(OfFraming(error), now, admitError, other);
        case Ready(Ok(None)) =>
          var ready := owned.session.IsReadyToClose();
          Lost(ready, other);
        case Ready(Ok(Some(frame))) =>
          OnFrame(frame, check, registry, now, admit, admitError, other);
      }
      return true;
    }

    /** The peer's side of the socket ended. */
    method Lost(ready: bool, ghost other: N.Node)
      requires Valid() && conn.open
      modifies this, conn, conn.reader, conn.writer, owned, owned.session
      ensures Valid() && OneStep(old(Here()), Here(), other) && !conn.open && conn.heard == old(conn.heard)
    {
      hide Life, OneStep, Connection.Valid, Connection.Sound;
      SessionStands(conn);
      conn.AtEnd(ready);
      Drop(conn.told.value.failure, other);
    }

    /** Malformed input: the session is closed, with a last word where that is safe. */
    method Fail(d: Disposition, now: Instant, admit: bool, ghost other: N.Node)
      requires Valid() && conn.open && !conn.closing && LocalCause(Some(d.failure), d.response)
      modifies this, conn, conn.reader, conn.writer, owned, owned.session
      ensures Valid() && OneStep(old(Here()), Here(), other)
      ensures (conn.closing || !conn.open) && conn.heard == old(conn.heard)
    {
      hide Life, OneStep, Connection.Valid, Connection.Sound, Connection.Output, Connection.Input, Discipline, Tied;
      ghost var x := FaceOf(conn);
      SessionStands(conn);
      TiedSlot(x, plain, Here());
      conn.Fail(d, now, admit);
      if conn.open {
        Leave(x, d, admit, other);
      } else {
        Drop(conn.told.value.failure, other);
      }
    }

    /** The session closes with a last word, which its connection still has to write. */
    method Leave(ghost x: Face, d: Disposition, admit: bool, ghost other: N.Node)
      requires conn.Valid() && conn.session && owned.Valid() && owned.life != []
      requires Tied(x, plain, Here()) && x.open && FaceOf(conn) == x.(closing := true)
      requires LocalCause(Some(d.failure), d.response)
      modifies this, owned, owned.session
      ensures Valid() && OneStep(old(Here()), Here(), other)
    {
      hide Act, Life, Follow, Connection.Valid, OneStep, Tied;
      ghost var n, a := Here(), Closing(Some(d.failure), d.response, admit);
      ClosingCloses(n.e, Some(d.failure), d.response, admit);
      CalledTied(x, FaceOf(conn), plain, n, a, other);
      NewestActs(owned.life, a);
      owned.Close(Some(d.failure), d.response, admit);
    }

    method OnFrame(frame: Packet, check: I.Check, registry: map<Protocol, Owner>, now: Instant, admit: bool,
                   admitError: bool, ghost other: N.Node)
      requires Valid() && conn.open && !conn.closing && owned.Past().clock <= now && frame.Valid()
      requires T.Ideal(check, party.minted + other.party.minted)
      modifies this, conn, conn.reader, conn.writer, conn.integrity, owned, owned.session, owned.session.ids
      ensures Valid() && Reaches(old(Here()), Here(), other)
      ensures conn.heard == old(conn.heard)
      ensures Digested(old(Here()), Here(), N.Arriving(frame, check, registry, now, admit, admitError), conn.open)
    {
      hide Connection.Valid, Owned.Valid, Life, OneStep, T.Ideal, I.Verify, Tied, PassedOn;
      SessionIsGuarded(conn);
      ghost var n, x := Here(), FaceOf(conn);
      TiedSlot(x, plain, n);
      var verified := conn.Unseal(frame, check);
      if verified.Err? {
        Drop(conn.told.value.failure, other);
      } else if owned.session.closed {
        assert n.e.s.closed by { ClosedHere(); }
        Ignore(x, frame, check, now, other);
      } else {
        assert !n.e.s.closed by { ClosedHere(); }
        Pass(x, frame, check, registry, now, admit, admitError, other);
      }
    }

    lemma ClosedHere()
      requires owned.Valid() && owned.life != []
      ensures owned.session.closed == Here().e.s.closed
    {
    }

    /** A frame for a closed session stops the reading, or ends everything if a frame is half written. */
    method Ignore(ghost x: Face, frame: Packet, check: I.Check, now: Instant, ghost other: N.Node)
      requires conn.Valid() && conn.session && owned.Valid() && owned.life != [] && Here().e.s.closed
      requires Tied(x, plain, Here()) && x.open && !x.closing && I.Verify(x.guard, frame, check).result.Ok?
      requires FaceOf(conn) == x.(guard := I.Verify(x.guard, frame, check).guard)
      modifies this, conn, conn.reader, conn.writer, owned, owned.session
      ensures Valid() && conn.heard == old(conn.heard)
      ensures Here() == old(Here()) || OneStep(old(Here()), Here(), other)
    {
      hide Connection.Valid, Owned.Valid, Life, OneStep, I.Verify, Tied;
      SessionIsGuarded(conn);
      TiedSlot(x, plain, Here());
      conn.Settle(true, now);
      if conn.open {
        DeafTied(x, FaceOf(conn), plain, Here(), frame, check);
      } else {
        Drop(None, other);
      }
    }

    method Pass(ghost x: Face, frame: Packet, check: I.Check, registry: map<Protocol, Owner>, now: Instant,
                admit: bool, admitError: bool, ghost other: N.Node)
      requires conn.Valid() && conn.session && owned.Valid() && owned.life != [] && !owned.session.closed
      requires Tied(x, plain, Here()) && x.open && !x.closing && I.Verify(x.guard, frame, check).result.Ok?
      requires FaceOf(conn) == x.(guard := I.Verify(x.guard, frame, check).guard)
      requires owned.Past().clock <= now && frame.Valid() && T.Ideal(check, party.minted + other.party.minted)
      modifies this, conn, conn.reader, conn.writer, owned, owned.session, owned.session.ids
      ensures Valid() && conn.heard == old(conn.heard) && Reaches(old(Here()), Here(), other)
      ensures PassedOn(old(Here()), Here(), N.Arriving(frame, check, registry, now, admit, admitError))
    {
      hide Connection.Valid, Owned.Valid, Life, OneStep, T.Ideal, I.Verify, Tied, Received, Ended;
      ghost var n := Here();
      Admit(x, frame, check, registry, now, admit, admitError, other);
      ghost var m := Here();
      Conclude(now, other);
      assert OneStep(n, m, other);
    }

    /** The session sees the frame just verified. */
    method Admit(ghost x: Face, frame: Packet, check: I.Check, registry: map<Protocol, Owner>, now: Instant,
                 admit: bool, admitError: bool, ghost other: N.Node)
      requires conn.Valid() && conn.session && owned.Valid() && owned.life != [] && !owned.session.closed
      requires Tied(x, plain, Here()) && x.open && !x.closing && I.Verify(x.guard, frame, check).result.Ok?
      requires FaceOf(conn) == x.(guard := I.Verify(x.guard, frame, check).guard)
      requires owned.Past().clock <= now && frame.Valid() && T.Ideal(check, party.minted + other.party.minted)
      modifies this, owned, owned.session, owned.session.ids
      ensures Valid() && OneStep(old(Here()), Here(), other)
      ensures Here() == Received(old(Here()), N.Arriving(frame, check, registry, now, admit, admitError))
    {
      hide Act, Life, Follow, Connection.Valid, OneStep, Tied, T.Ideal, I.Verify, T.Act;
      ghost var i := N.Arriving(frame, check, registry, now, admit, admitError);
      TakenTied(x, FaceOf(conn), plain, Here(), i, other);
      NewestActs(owned.life, Receiving(N.FrameOf(frame), registry, now, admit, admitError));
      var received := owned.Receive(N.FrameOf(frame), registry, now, admit, admitError);
      party := T.Act(party, T.Receiving(frame, check));
    }

    /** A session that is closed now stops the reading, or ends everything if a frame is half written. */
    method Conclude(now: Instant, ghost other: N.Node)
      requires Valid() && conn.open && !conn.closing
      modifies this, conn, conn.reader, conn.writer, owned, owned.session
      ensures conn.heard == old(conn.heard)
      ensures Valid()
              && (Here() == old(Here()) || (OneStep(old(Here()), Here(), other) && Here() == Ended(old(Here()), None)))
    {
      hide Life, Connection.Valid, OneStep;
      SessionIsGuarded(conn);
      conn.Settle(owned.session.closed, now);
      if !conn.open {
        Drop(None, other);
      }
    }

    /** Any call of a consumer, or of the clock. */
    method Call(a: Action, ghost other: N.Node)
      requires Valid() && Enabled(owned.Past(), a) && ByConsumer(a)
      modifies this, owned, owned.session, owned.session.ids
      ensures Valid() && OneStep(old(Here()), Here(), other)
    {
      hide Act, Life, Follow, Connection.Valid, OneStep, Tied, Kept;
      LifeKept(owned.life, |owned.life| - 1);
      if owned.session.closed {
        StaysClosed(Newest(owned.life), a);
      }
      CalledTied(FaceOf(conn), FaceOf(conn), plain, Here(), a, other);
      NewestActs(owned.life, a);
      Perform(owned, a);
    }
  }

  // ---------------------------------------------------------------- two of them

  lemma Extend(run: seq<N.World>, ab: I.DirectionKeys, ba: I.DirectionKeys, n2: N.Node, first: bool)
    returns (longer: seq<N.World>)
    requires N.Run(run, ab, ba)
    requires var w := run[|run| - 1];
             if first then OneStep(w.a, n2, w.b) else OneStep(w.b, n2, w.a)
    ensures N.Run(longer, ab, ba) && run <= longer
    ensures longer[|longer| - 1] == if first then N.World(n2, run[|run| - 1].b) else N.World(run[|run| - 1].a, n2)
  {
    hide N.Initial, N.Can, N.After;
    var w := run[|run| - 1];
    var v := if first then N.World(n2, w.b) else N.World(w.a, n2);
    assert N.Next(w, v);
    longer := run + [v];
    forall k | 0 < k < |longer|
      ensures N.Next(longer[k - 1], longer[k])
    {
      assert k < |run| ==> N.Next(run[k - 1], run[k]);
    }
  }

  /** A run of the network goes on with whatever one end reaches. */
  lemma GoesOn(run: seq<N.World>, ab: I.DirectionKeys, ba: I.DirectionKeys, n2: N.Node, first: bool)
    returns (longer: seq<N.World>)
    requires N.Run(run, ab, ba)
    requires var w := run[|run| - 1];
             if first then Reaches(w.a, n2, w.b) else Reaches(w.b, n2, w.a)
    ensures N.Run(longer, ab, ba) && run <= longer
    ensures longer[|longer| - 1] == if first then N.World(n2, run[|run| - 1].b) else N.World(run[|run| - 1].a, n2)
  {
    hide N.Run, OneStep;
    assert run != [] by { Runs(run, ab, ba); }
    var w := run[|run| - 1];
    var n, other := if first then w.a else w.b, if first then w.b else w.a;
    if n2 == n {
      longer := run;
    } else if OneStep(n, n2, other) {
      longer := Extend(run, ab, ba, n2, first);
    } else {
      var m: N.Node :| OneStep(n, m, other) && OneStep(m, n2, other);
      longer := Extend(run, ab, ba, m, first);
      longer := Extend(longer, ab, ba, n2, first);
    }
  }

  lemma Runs(run: seq<N.World>, ab: I.DirectionKeys, ba: I.DirectionKeys)
    requires N.Run(run, ab, ba)
    ensures run != []
  {
  }

  /** Two connections whose handshakes met begin a run of the network. */
  lemma AttachmentsStart(a: Attachment, b: Attachment, c: K.Primitives, meeting: seq<H.World>, m: nat, i: nat, j: nat)
    requires a.owned.life != [] && b.owned.life != []
    requires H.Run(c, meeting) && m < |meeting| && i < |meeting[m]| && j < |meeting[m]|
             && H.Met(meeting[m][i], meeting[m][j])
    requires meeting[m][i].facts != [] && meeting[m][j].facts != [] && meeting[m][i].facts[0].role == Initiator
    requires N.HandedOver(a.Here(), meeting[m][i].facts[0]) && N.HandedOver(b.Here(), meeting[m][j].facts[0])
    ensures var keys := meeting[m][i].facts[0].keys;
            N.Run([N.World(a.Here(), b.Here())], keys.send, keys.receive)
  {
    hide H.Run, H.Invariant, H.Met, N.HandedOver, N.Initial;
    H.RunKeeps(c, meeting, m);
    H.MetMeansMirrored(c, meeting[m], i, j);
    N.MirroredKeysStart(N.World(a.Here(), b.Here()), meeting[m][i].facts[0], meeting[m][j].facts[0]);
  }

  /**
   Real connections over real sockets: wherever the steps of two of them have led, every stream is an
   ordered byte channel between their sessions, whatever is queued can be emitted, and what their
   sockets took is a beginning of the handshake's lines and the frames sealed.
   */
  lemma AttachmentsDeliver(a: Attachment, b: Attachment, run: seq<N.World>, ab: I.DirectionKeys, ba: I.DirectionKeys,
                           id: u32)
    requires a.Valid() && b.Valid() && N.Run(run, ab, ba) && ab != ba && id != 0
    requires run[|run| - 1] == N.World(a.Here(), b.Here())
    ensures N.Faithful(a.owned.Past(), b.owned.Past(), id) && N.Faithful(b.owned.Past(), a.owned.Past(), id)
    ensures forall f :: f in a.owned.session.outbound || f in b.owned.session.outbound ==> N.Fits(f)
    ensures a.conn.outlet.written <= Parsing.Flat(a.plain + a.party.sealed)
    ensures b.conn.outlet.written <= Parsing.Flat(b.plain + b.party.sealed)
  {
    hide N.Run, N.Faithful, N.Fits, Connection.Valid, Life, Parsing.Flat;
    assert run != [] by { Runs(run, ab, ba); }
    var k := |run| - 1;
    N.DeliveredInOrder(run, k, ab, ba, id);
    forall f | f in a.owned.session.outbound || f in b.owned.session.outbound
      ensures N.Fits(f)
    {
      N.EveryFrameFits(run, k, ab, ba, f);
    }
    WrittenUnderDiscipline(a.conn);
    WrittenUnderDiscipline(b.conn);
  }
}
