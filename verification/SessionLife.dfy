/** The session object in the hands of its connection: every call it takes is a step of one life. */
module SessionLife {
  import opened Bytes
  import opened Codec
  import opened StreamNumbering
  import opened SessionTypes
  import opened SessionModel
  import opened SessionRun
  import opened LifeChanges
  import opened Lifecycle
  import opened LifePromises
  import opened SessionObject

  ghost function Newest(life: seq<History>): History
    requires life != []
  {
    life[|life| - 1]
  }

  /** The life ends in this state. */
  ghost predicate Leads(life: seq<History>, s: State) {
    Life(life) && Newest(life).e.s == s
  }

  lemma Begun(connection: nat, role: Role, limits: Limits)
    ensures Leads([History(Start(connection, role, limits), multiset{}, [])], NewSession(connection, role, limits))
  {
    var h := History(Start(connection, role, limits), multiset{}, []);
    assert [h][0] == h;
  }

  /** One more call at the end of a life. */
  lemma Lengthened(life: seq<History>, a: Action)
    requires Life(life) && Enabled(Newest(life).e, a)
    ensures Life(life + [Follow(Newest(life), a)])
    ensures Leads(life + [Follow(Newest(life), a)], Act(Newest(life).e, a).s)
  {
    hide Act, Enabled, Steps;
    var longer := Prolong(life, a);
    assert longer == life + [longer[|life|]];
  }

  /** The endpoint after one more call. */
  lemma NewestActs(life: seq<History>, a: Action)
    requires life != [] && Enabled(Newest(life).e, a)
    ensures Newest(life + [Follow(Newest(life), a)]).e == Act(Newest(life).e, a)
  {
    hide Act;
  }

  lemma NotEmpty(life: seq<History>)
    requires Life(life)
    ensures life != []
  {
  }

  class Owned {
    const session: Session
    ghost var life: seq<History>

    ghost predicate Valid()
      reads this, session, session.ids
    {
      session.Valid() && Leads(life, session.View())
    }

    /** What an observer of every call so far remembers. */
    ghost function Past(): Endpoint
      reads this
      requires life != []
    {
      Newest(life).e
    }

    constructor (connection: nat, role: Role, limits: Limits)
      ensures Valid() && fresh(session) && fresh(session.ids)
              && life == [History(Start(connection, role, limits), multiset{}, [])]
    {
      session := new Session(connection, role, limits);
      life := [History(Start(connection, role, limits), multiset{}, [])];
      new;
      Begun(connection, role, limits);
    }

    /** The call that was just made becomes part of the life. */
    ghost method Note(a: Action)
      requires Life(life) && Enabled(Newest(life).e, a) && Act(Newest(life).e, a).s == session.View()
      modifies `life
      ensures Leads(life, session.View()) && life == old(life) + [Follow(Newest(old(life)), a)]
    {
      hide Life, Act, Enabled, Follow;
      assert life != [] by { NotEmpty(life); }
      Lengthened(life, a);
      life := life + [Follow(Newest(life), a)];
    }

    method Open(owner: Owner, selection: Option<Protocol>, admit: bool, admitDrain: bool)
      returns (r: Result<Handle, SessionError>)
      requires Valid()
      modifies this, session, session.ids
      ensures Valid() && life == old(life) + [Follow(Newest(old(life)), Opening(owner, selection, admit, admitDrain))]
      ensures r == OpenStream(old(session.View()), owner, selection, admit, admitDrain).result
    {
      hide OpenStream, Follow, Steps;
      r := session.OpenOne(owner, selection, admit, admitDrain);
      Note(Opening(owner, selection, admit, admitDrain));
    }

    method Supply(owner: Owner, h: Handle, bytes: seq<byte>, admit: bool) returns (r: Result<(), SessionError>)
      requires Valid()
      modifies this, session
      ensures Valid() && life == old(life) + [Follow(Newest(old(life)), Sending(owner, h, bytes, admit))]
      ensures r == Send(old(session.View()), owner, h, bytes, admit).result
    {
      hide Send, Follow, Steps;
      r := session.SendBytes(owner, h, bytes, admit);
      Note(Sending(owner, h, bytes, admit));
    }

    method End(owner: Owner, h: Handle, admit: bool) returns (r: Result<(), SessionError>)
      requires Valid()
      modifies this, session
      ensures Valid() && life == old(life) + [Follow(Newest(old(life)), Ending(owner, h, admit))]
      ensures r == EndStream(old(session.View()), owner, h, admit).result
    {
      hide EndStream, Follow, Steps;
      r := session.EndOne(owner, h, admit);
      Note(Ending(owner, h, admit));
    }

    method Cancel(owner: Owner, h: Handle, reason: CancelReason, admit: bool) returns (r: Result<(), SessionError>)
      requires Valid()
      modifies this, session
      ensures Valid() && life == old(life) + [Follow(Newest(old(life)), Cancelling(owner, h, reason, admit))]
      ensures r == CancelStream(old(session.View()), owner, h, reason, admit).result
    {
      hide CancelStream, Follow, Steps;
      r := session.Cancel(owner, h, reason, admit);
      Note(Cancelling(owner, h, reason, admit));
    }

    /** Time is the caller's, and never runs backwards. */
    method Probe(token: Token, timeout: nat, at: Instant, admit: bool) returns (r: Result<(), SessionError>)
      requires Valid() && Past().clock <= at
      modifies this, session
      ensures Valid() && life == old(life) + [Follow(Newest(old(life)), Pinging(token, timeout, at, admit))]
      ensures r == SendPing(old(session.View()), token, timeout, at, admit).result
    {
      hide SendPing, Follow, Steps;
      r := session.Probe(token, timeout, at, admit);
      Note(Pinging(token, timeout, at, admit));
    }

    method TickTo(at: Instant)
      requires Valid() && Past().clock <= at
      modifies this, session
      ensures Valid() && life == old(life) + [Follow(Newest(old(life)), Ticking(at))]
    {
      hide Tick, Follow, Steps;
      session.TickTo(at);
      Note(Ticking(at));
    }

    method Drain(reason: ShutdownReason, admit: bool) returns (r: Result<(), SessionError>)
      requires Valid()
      modifies this, session
      ensures Valid() && life == old(life) + [Follow(Newest(old(life)), DrainingFor(reason, admit))]
      ensures r == SessionModel.Drain(old(session.View()), reason, admit).result
    {
      hide SessionModel.Drain, Follow, Steps;
      r := session.DrainFor(reason, admit);
      Note(DrainingFor(reason, admit));
    }

    method Close(failure: Option<Failure>, response: Option<ErrorCode>, admit: bool)
      requires Valid() && LocalCause(failure, response)
      modifies this, session
      ensures Valid() && life == old(life) + [Follow(Newest(old(life)), Closing(failure, response, admit))]
    {
      hide SessionModel.Close, Follow, Steps;
      session.CloseWith(failure, response, admit);
      Note(Closing(failure, response, admit));
    }

    /** Any frame at all, from any peer. */
    method Receive(f: Frame, registry: map<Protocol, Owner>, at: Instant, admit: bool, admitError: bool)
      returns (r: Result<(), SessionError>)
      requires Valid() && Past().clock <= at
      modifies this, session, session.ids
      ensures Valid() && life == old(life) + [Follow(Newest(old(life)), Receiving(f, registry, at, admit, admitError))]
      ensures r == SessionModel.Receive(old(session.View()), f, registry, at, admit, admitError).result
    {
      hide SessionModel.Receive, Follow, Steps;
      r := session.ReceiveFrame(f, registry, at, admit, admitError);
      Note(Receiving(f, registry, at, admit, admitError));
    }

    /** The next frame for an idle writer; it reaches the wire. */
    method NextOutput() returns (r: Option<Frame>)
      requires Valid() && Past().writing.None?
      modifies this, session
      ensures Valid() && r == PopOutbound(old(session.View())).1 && (r.None? <==> old(session.outbound) == [])
      ensures r.None? ==> life == old(life)
      ensures r.Some? ==> life == old(life) + [Follow(Newest(old(life)), TakingOutput)]
                          && Newest(life).wire == Newest(old(life)).wire + [r.value]
                          && Past().writing == Some((r.value.kind, r.value.id))
    {
      hide Steps;
      r := session.TakeOutput();
      if r.Some? {
        Note(TakingOutput);
      }
    }

    /** The writer is done with the frame it was given. */
    method OutputWritten(kind: Kind, id: u32)
      requires Valid() && Past().writing == Some((kind, id))
      modifies this, session
      ensures Valid() && life == old(life) + [Follow(Newest(old(life)), FinishingOutput)]
    {
      hide Sent, Follow, Steps;
      session.MarkSent(kind, id);
      Note(FinishingOutput);
    }

    method NextEvent() returns (r: Option<Event>)
      requires Valid()
      modifies this, session
      ensures Valid() && life == old(life) + [Follow(Newest(old(life)), TakingEvent)]
      ensures r == if old(session.events) == [] then None else Some(old(session.events)[0])
    {
      hide PopEvent, Follow, Steps;
      r := session.TakeEvent();
      Note(TakingEvent);
    }

    method NextStreamEvent(owner: Owner) returns (r: Option<Event>)
      requires Valid()
      modifies this, session
      ensures Valid() && life == old(life) + [Follow(Newest(old(life)), TakingStreamEvent(owner))]
      ensures r.Some? ==> VisibleTo(r.value, session.connection, owner)
    {
      hide PopStreamEvent, Follow, Steps;
      r := session.TakeStreamEvent(owner);
      Note(TakingStreamEvent(owner));
    }
  }

  /** What the object may hold at any time, whoever calls it and whatever the peer sends. */
  lemma ObjectIsBounded(o: Owned, id: u32)
    requires o.Valid()
    ensures var s := o.session;
            && |s.streams| <= s.limits.streams && |s.pings| <= MAX_PENDING_PINGS
            && Buffered(s.events, id) <= s.limits.bufferedPerStream
            && Load(s.events) <= EventLimit(s.limits) + s.limits.streams + 1
  {
    hide Life, Buffered, EventLimit, Load;
    assert o.life != [] by { NotEmpty(o.life); }
    BacklogIsBounded(o.life, |o.life| - 1, id);
  }

  /** What the object has told its consumers and its peer, and how that fits the fields it has now. */
  lemma ObjectKeepsItsPromises(o: Owned, id: u32, token: Token)
    requires o.Valid()
    ensures o.life != []
    ensures var log := o.Past().log;
            && Story(log, id)
            && (OpenedBy(log, |log|, id) ==> (ClosedIn(log, id) <==> id !in o.session.streams))
            && (o.session.closed <==> log != [] && log[|log| - 1].ConnectionClosed?)
            && Newest(o.life).accepted[token] == Results(log, token) + if token in o.session.pings then 1 else 0
    ensures var wire := Newest(o.life).wire;
            forall i, j :: 0 <= i < j < |wire| && wire[i].kind == GoAway ==> wire[j].kind != Kind.Open
  {
    hide Life, Story, OpenedBy, ClosedIn, Results;
    assert o.life != [] by { NotEmpty(o.life); }
    var k := |o.life| - 1;
    StreamsLiveInOrder(o.life, k, id);
    ClosureIsLast(o.life, k);
    EveryProbeIsAnswered(o.life, k, token);
    var wire := o.life[k].wire;
    forall i, j | 0 <= i < j < |wire| && wire[i].kind == GoAway
      ensures wire[j].kind != Kind.Open
    {
      NoOpenAfterGoaway(o.life, k, i, j);
    }
  }
}
