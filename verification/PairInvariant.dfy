/** What holds between two opposite-role sessions joined by FIFO links, direction by direction. */
module PairInvariant {
  import opened Bytes
  import opened Codec
  import opened StreamNumbering
  import opened SessionTypes
  import opened Lines
  import opened SessionModel
  import opened SessionRun
  import opened ChannelMoves

  ghost function OutHalf(s: State, id: u32): Half {
    if id in s.streams then (if s.streams[id].localOpen then Live else Ended)
    else if s.ids.WasCreated(id) then Gone
    else Absent
  }

  /** A closed session takes in nothing more, created or not. */
  ghost function InHalf(s: State, id: u32): Half {
    if id in s.streams then (if s.streams[id].remoteOpen then Live else Ended)
    else if s.ids.WasCreated(id) || s.closed then Gone
    else Absent
  }

  /** Bytes a session has handed out for one stream, over its whole life. */
  ghost function Got(log: seq<Event>, id: u32): seq<byte> {
    if log == [] then []
    else Got(log[..|log| - 1], id)
         + (var e := log[|log| - 1]; if e.DataReceived? && e.stream.id == id then e.bytes else [])
  }

  ghost predicate Finished(log: seq<Event>, id: u32) {
    exists i :: 0 <= i < |log| && log[i].RemoteEnd? && log[i].stream.id == id
  }

  /** Facts about one endpoint alone that the two-party argument uses. */
  ghost predicate Sound(e: Endpoint) {
    && e.s.ids.Valid()
    && (forall id :: id in e.s.streams ==> e.s.ids.WasCreated(id) && e.s.streams[id].handle.id == id)
    && (forall id :: id in e.s.streams && e.s.streams[id].endWritten ==> !e.s.streams[id].localOpen)
    && (e.s.closed ==> e.s.streams == map[] && e.s.pings == map[])
    && (forall t :: t in e.s.pings ==> e.s.pings[t].0 <= e.clock)
    && (e.s.acceptedRemote != 0 ==> e.s.ids.WasCreated(e.s.acceptedRemote) && !e.s.ids.IsLocal(e.s.acceptedRemote))
  }

  /** OPEN frames in flight announce exactly the numbers the receiver expects next. */
  ghost predicate Numbers(sender: State, receiver: State, opens: seq<u32>) {
    && sender.ids.localOdd == !receiver.ids.localOdd
    && receiver.ids.UpcomingRemote() + 2 * |opens| <= sender.ids.UpcomingLocal()
    && (!sender.closed && !receiver.closed ==>
          receiver.ids.UpcomingRemote() + 2 * |opens| == sender.ids.UpcomingLocal())
    && (!receiver.closed ==> forall k :: 0 <= k < |opens| ==> opens[k] == receiver.ids.UpcomingRemote() + 2 * k)
  }

  ghost predicate ControlFrame(sender: State, f: Frame) {
    match f.kind
    case Ping | Pong => DecodePing(f.payload).Ok?
    case Error => DecodeError(f.payload).Ok? && DecodeError(f.payload).value.code != RefusedStream
    case GoAway =>
      && sender.goawaySent
      && DecodeGoAway(f.payload).Ok?
      && DecodeGoAway(f.payload).value.0 == sender.acceptedRemote
      && DecodeGoAway(f.payload).value.1.code != RefusedStream
    case _ => false
  }

  /** Connection-level frames in flight: one GOAWAY at most, carrying the sender's bound. */
  ghost predicate Control(sender: State, receiver: State, line: seq<Frame>) {
    && (forall i :: 0 <= i < |line| ==> ControlFrame(sender, line[i]))
    && (forall i, j :: 0 <= i < j < |line| ==> !(line[i].kind == GoAway && line[j].kind == GoAway))
    && (receiver.peerGoaway.Some? ==> sender.goawaySent && forall i :: 0 <= i < |line| ==> line[i].kind != GoAway)
  }

  ghost predicate StreamChannel(p: Endpoint, q: Endpoint, flight: seq<Frame>, id: u32) {
    Channel(OutHalf(p.s, id), InHalf(q.s, id), Line(flight, id), p.SentBytes(id), Got(q.log, id), Finished(q.log, id))
  }

  /** Everything in flight from `p` to `q`: frames on the link, then frames still queued at `p`. */
  ghost predicate Direction(p: Endpoint, q: Endpoint, flight: seq<Frame>) {
    && Numbers(p.s, q.s, Opens(flight))
    && Control(p.s, q.s, Line(flight, 0))
    && (forall id: u32 :: id != 0 ==> StreamChannel(p, q, flight, id))
  }

  ghost function Flight(link: seq<Frame>, p: Endpoint): seq<Frame> {
    link + p.s.outbound
  }

  // ---------------------------------------------------------------- projections

  lemma {:induction false} GotConcat(a: seq<Event>, b: seq<Event>, id: u32)
    ensures Got(a + b, id) == Got(a, id) + Got(b, id)
  {
    if b == [] {
      assert a + b == a;
    } else {
      var n := |b| - 1;
      var own := if b[n].DataReceived? && b[n].stream.id == id then b[n].bytes else [];
      calc {
        Got(a + b, id);
        { assert (a + b)[|a + b| - 1] == b[n] && (a + b)[..|a + b| - 1] == a + b[..n]; }
        Got(a + b[..n], id) + own;
        { GotConcat(a, b[..n], id); }
        Got(a, id) + Got(b[..n], id) + own;
        Got(a, id) + (Got(b[..n], id) + own);
        Got(a, id) + Got(b, id);
      }
    }
  }

  /** Events that neither deliver bytes nor report an end. */
  ghost predicate Quiet(events: seq<Event>) {
    forall i :: 0 <= i < |events| ==> !events[i].DataReceived? && !events[i].RemoteEnd?
  }

  lemma {:induction false} QuietGot(events: seq<Event>, id: u32)
    requires Quiet(events)
    ensures Got(events, id) == []
  {
    if events != [] {
      QuietGot(events[..|events| - 1], id);
    }
  }

  lemma QuietLog(log: seq<Event>, events: seq<Event>, id: u32)
    requires Quiet(events)
    ensures Got(log + events, id) == Got(log, id)
    ensures Finished(log + events, id) == Finished(log, id)
  {
    GotConcat(log, events, id);
    QuietGot(events, id);
    if Finished(log, id) {
      var i :| 0 <= i < |log| && log[i].RemoteEnd? && log[i].stream.id == id;
      assert (log + events)[i] == log[i];
    }
    if Finished(log + events, id) {
      var i :| 0 <= i < |log + events| && (log + events)[i].RemoteEnd? && (log + events)[i].stream.id == id;
      assert i < |log|;
    }
  }

  lemma LineAppend(q: seq<Frame>, f: Frame, id: u32)
    ensures f.id == id ==> Line(q + [f], id) == Line(q, id) + [f]
    ensures f.id != id ==> Line(q + [f], id) == Line(q, id)
  {
    LineConcat(q, [f], id);
    assert Line([f], id) == (if f.id == id then [f] else []) + Line([f][1..], id);
  }

  lemma OpensAppend(q: seq<Frame>, f: Frame)
    ensures f.kind == Open ==> Opens(q + [f]) == Opens(q) + [f.id]
    ensures f.kind != Open ==> Opens(q + [f]) == Opens(q)
  {
    OpensConcat(q, [f]);
    assert Opens([f]) == (if f.kind == Open then [f.id] else []) + Opens([f][1..]);
  }

  lemma LineHead(q: seq<Frame>, id: u32)
    requires q != []
    ensures q[0].id == id ==> Line(q, id) != [] && Line(q, id)[0] == q[0] && Line(q[1..], id) == Line(q, id)[1..]
    ensures q[0].id != id ==> Line(q[1..], id) == Line(q, id)
  {
  }

  lemma OpensHead(q: seq<Frame>)
    requires q != []
    ensures q[0].kind == Open ==> Opens(q) != [] && Opens(q)[0] == q[0].id && Opens(q[1..]) == Opens(q)[1..]
    ensures q[0].kind != Open ==> Opens(q[1..]) == Opens(q)
  {
  }

  /** A number accepted by one end was allocated by the other. */
  lemma AcceptedWasAllocated(sender: State, receiver: State, opens: seq<u32>, id: u32)
    requires sender.ids.Valid() && receiver.ids.Valid() && Numbers(sender, receiver, opens)
    requires id != 0 && !receiver.ids.IsLocal(id)
    ensures receiver.ids.WasCreated(id) ==> sender.ids.WasCreated(id) && sender.ids.IsLocal(id)
  {
  }
}
