/** Effect of each elementary session move on the frames between two endpoints. */
module PairMoves {
  import opened Bytes
  import opened Codec
  import opened StreamNumbering
  import opened SessionTypes
  import opened Lines
  import opened Scheduler
  import opened SessionModel
  import opened SessionRun
  import opened ChannelMoves
  import opened PairInvariant

  // ---------------------------------------------------------------- sender side

  /** Sender half changes that need no frame: completion, and joining or refusing a peer's stream. */
  ghost predicate SilentChange(before: Half, after: Half, inn: Half) {
    || after == before
    || (before == Ended && after == Gone)
    || (before == Absent && (after == Live || after == Gone) && inn != Absent)
  }

  ghost predicate SameSending(p: Endpoint, p2: Endpoint) {
    && p2.s.ids.localOdd == p.s.ids.localOdd
    && p2.s.ids.greatestLocal == p.s.ids.greatestLocal
    && p2.s.closed == p.s.closed
    && p2.s.goawaySent == p.s.goawaySent
    && (p.s.goawaySent ==> p2.s.acceptedRemote == p.s.acceptedRemote)
    && p2.sent == p.sent
  }

  lemma SenderSilent(p: Endpoint, p2: Endpoint, q: Endpoint, flight: seq<Frame>)
    requires Direction(p, q, flight)
    requires SameSending(p, p2)
    requires forall id: u32 :: id != 0 ==> SilentChange(OutHalf(p.s, id), OutHalf(p2.s, id), InHalf(q.s, id))
    ensures Direction(p2, q, flight)
  {
    hide Channel;
    forall id: u32 | id != 0
      ensures StreamChannel(p2, q, flight, id)
    {
      assert StreamChannel(p, q, flight, id);
      var out, inn := OutHalf(p.s, id), InHalf(q.s, id);
      var line, sent, got, fin := Line(flight, id), p.SentBytes(id), Got(q.log, id), Finished(q.log, id);
      if OutHalf(p2.s, id) != out {
        if out == Ended {
          SenderSettles(inn, line, sent, got, fin);
        } else {
          SenderJoins(inn, line, sent, got, fin);
        }
      }
    }
  }

  /** Appending a connection-level frame. */
  lemma SenderControl(p: Endpoint, p2: Endpoint, q: Endpoint, flight: seq<Frame>, f: Frame)
    requires Direction(p, q, flight)
    requires f.id == 0 && f.kind != Open && ControlFrame(p2.s, f)
    requires if f.kind == GoAway then !p.s.goawaySent && p2.s == Enqueue(p.s, f).(goawaySent := true)
             else p2.s.ids == p.s.ids && p2.s.closed == p.s.closed && p2.s.streams == p.s.streams
                  && p2.s.goawaySent == p.s.goawaySent && p2.s.acceptedRemote == p.s.acceptedRemote
    requires p2.sent == p.sent
    ensures Direction(p2, q, flight + [f])
  {
    hide Channel;
    OpensAppend(flight, f);
    LineAppend(flight, f, 0);
    forall id: u32 | id != 0
      ensures StreamChannel(p2, q, flight + [f], id)
    {
      assert StreamChannel(p, q, flight, id);
      LineAppend(flight, f, id);
      assert OutHalf(p2.s, id) == OutHalf(p.s, id);
    }
  }

  /** Appending one frame to one stream, the sender's half moving as the frame says. */
  lemma SenderAppends(p: Endpoint, p2: Endpoint, q: Endpoint, flight: seq<Frame>, f: Frame)
    requires Direction(p, q, flight)
    requires f.id != 0 && f.kind != Open
    requires p2.s.ids == p.s.ids && p2.s.closed == p.s.closed
    requires p2.s.goawaySent == p.s.goawaySent && p2.s.acceptedRemote == p.s.acceptedRemote
    requires forall id: u32 :: id != f.id ==>
               OutHalf(p2.s, id) == OutHalf(p.s, id) && p2.SentBytes(id) == p.SentBytes(id)
    requires Channel(OutHalf(p2.s, f.id), InHalf(q.s, f.id), Line(flight, f.id) + [f], p2.SentBytes(f.id),
                     Got(q.log, f.id), Finished(q.log, f.id))
    ensures Direction(p2, q, flight + [f])
  {
    hide Channel;
    OpensAppend(flight, f);
    LineAppend(flight, f, 0);
    forall id: u32 | id != 0
      ensures StreamChannel(p2, q, flight + [f], id)
    {
      assert StreamChannel(p, q, flight, id);
      LineAppend(flight, f, id);
    }
  }

  /** A number not yet announced is unknown to the other end. */
  lemma NextIsUnknown(p: Endpoint, q: Endpoint, opens: seq<u32>, id: u32)
    requires Sound(q) && p.s.ids.Valid() && Numbers(p.s, q.s, opens)
    requires p.s.ids.nextLocal == Some(id)
    ensures !q.s.ids.WasCreated(id) && OutHalf(q.s, id) == Absent
    ensures InHalf(q.s, id) == if q.s.closed then Gone else Absent
  {
  }

  lemma AllocatedIsNew(p: Endpoint, id: u32)
    requires Sound(p) && Allocate(p.s.ids).Ok? && Allocate(p.s.ids).value.1 == id
    ensures p.s.ids.Valid() && p.s.ids.nextLocal == Some(id) && OutHalf(p.s, id) == Absent
  {
  }

  /** Announcing a new local stream. */
  lemma SenderOpensStream(p: Endpoint, p2: Endpoint, q: Endpoint, flight: seq<Frame>, f: Frame)
    requires Direction(p, q, flight) && Sound(p) && Sound(q) && !p.s.closed
    requires f.kind == Open && WellFormed(f) && Allocate(p.s.ids) == Ok((p2.s.ids, f.id))
    requires p2.s.closed == p.s.closed && p2.s.goawaySent == p.s.goawaySent && p2.s.acceptedRemote == p.s.acceptedRemote
    requires OutHalf(p2.s, f.id) == Live
    requires forall id: u32 :: id != f.id ==> OutHalf(p2.s, id) == OutHalf(p.s, id)
    requires p2.sent == p.sent
    ensures Direction(p2, q, flight + [f])
  {
    hide Channel, Opens, Line, Sound;
    OpensAppend(flight, f);
    LineAppend(flight, f, 0);
    AllocatedIsNew(p, f.id);
    NextIsUnknown(p, q, Opens(flight), f.id);
    forall id: u32 | id != 0
      ensures StreamChannel(p2, q, flight + [f], id)
    {
      assert StreamChannel(p, q, flight, id);
      LineAppend(flight, f, id);
      if id == f.id {
        SenderOpens(InHalf(q.s, id), p.SentBytes(id), Got(q.log, id), Finished(q.log, id), Line(flight, id), f);
      }
    }
  }

  /** Only the first frame of a line can be an OPEN. */
  lemma LateFramesAreNotOpen(line: seq<Frame>)
    requires Ordered(line)
    ensures forall k :: 0 < k < |line| ==> line[k].kind != Open
  {
    forall k | 0 < k < |line|
      ensures line[k].kind != Open
    {
      assert Rank(line[0].kind) < Rank(line[k].kind) || line[k].kind == Data;
    }
  }

  lemma OnlyOpenSurvives(back: seq<Frame>, id: u32)
    requires Ordered(back) && back != [] && back[0].kind == Open
    requires forall k :: 0 <= k < |back| ==> back[k].id == id
    ensures Surviving(back, id) == [back[0]]
  {
    LateFramesAreNotOpen(back);
    SurvivingNothing(back[1..], id);
  }

  lemma NothingSurvives(front: seq<Frame>, back: seq<Frame>, id: u32)
    requires Ordered(front + back)
    requires forall k :: 0 <= k < |back| ==> back[k].id == id
    requires front != [] || back == [] || back[0].kind != Open
    ensures Surviving(back, id) == []
  {
    hide Ordered;
    LateFramesAreNotOpen(front + back);
    forall k | 0 <= k < |back|
      ensures back[k].kind != Open
    {
      assert (front + back)[|front| + k] == back[k];
    }
    SurvivingNothing(back, id);
  }

  /** Of frames still queued behind `front`, an OPEN survives only if it leads the whole line. */
  lemma CutBehind(front: seq<Frame>, back: seq<Frame>, id: u32) returns (n: nat)
    requires Ordered(front + back)
    requires forall k :: 0 <= k < |back| ==> back[k].id == id
    ensures n <= |front + back| && front + Surviving(back, id) == (front + back)[..n]
    ensures front + back != [] && (front + back)[0].kind == Open ==> n > 0
  {
    hide Ordered;
    if front == [] && back != [] && back[0].kind == Open {
      assert front + back == back;
      OnlyOpenSurvives(back, id);
      n := 1;
    } else {
      NothingSurvives(front, back, id);
      n := |front|;
    }
  }

  /** Cutting a stream's unsent frames leaves a prefix of its line that still holds its OPEN. */
  lemma CutLine(link: seq<Frame>, queue: seq<Frame>, id: u32) returns (n: nat)
    requires Ordered(Line(link + queue, id))
    ensures n <= |Line(link + queue, id)|
    ensures Line(link + Surviving(queue, id), id) == Line(link + queue, id)[..n]
    ensures Line(link + queue, id) != [] && Line(link + queue, id)[0].kind == Open ==> n > 0
  {
    LineConcat(link, queue, id);
    LineConcat(link, Surviving(queue, id), id);
    SurvivingLine(queue, id);
    LineIds(queue, id);
    n := CutBehind(Line(link, id), Line(queue, id), id);
  }

  lemma LineShape(p: Endpoint, q: Endpoint, flight: seq<Frame>, id: u32)
    requires StreamChannel(p, q, flight, id)
    ensures Ordered(Line(flight, id))
    ensures OutHalf(p.s, id) == Absent ==> Line(flight, id) == []
    ensures InHalf(q.s, id) == Absent && (OutHalf(p.s, id) == Live || OutHalf(p.s, id) == Ended) ==>
              Line(flight, id) != [] && Line(flight, id)[0].kind == Open
  {
    hide Channel;
    ChannelShape(OutHalf(p.s, id), InHalf(q.s, id), Line(flight, id), p.SentBytes(id), Got(q.log, id),
                 Finished(q.log, id));
  }

  lemma CutChannel(p: Endpoint, q: Endpoint, link: seq<Frame>, id: u32)
    requires StreamChannel(p, q, Flight(link, p), id) && OutHalf(p.s, id) != Absent
    ensures Channel(Gone, InHalf(q.s, id), Line(link + Surviving(p.s.outbound, id), id),
                    p.SentBytes(id), Got(q.log, id), Finished(q.log, id))
  {
    hide Channel;
    LineShape(p, q, Flight(link, p), id);
    var n := CutLine(link, p.s.outbound, id);
    Abandons(OutHalf(p.s, id), InHalf(q.s, id), Line(Flight(link, p), id), p.SentBytes(id), Got(q.log, id),
             Finished(q.log, id), n);
  }

  /** A stream leaves the sender's table, its queued production cut. */
  lemma SenderTerminates(p: Endpoint, p2: Endpoint, q: Endpoint, link: seq<Frame>, id: u32)
    requires Direction(p, q, Flight(link, p)) && id != 0
    requires SameSending(p, p2) && p2.s.ids == p.s.ids
    requires p2.s.outbound == Surviving(p.s.outbound, id)
    requires OutHalf(p.s, id) != Absent && OutHalf(p2.s, id) == Gone
    requires forall j: u32 :: j != id ==> OutHalf(p2.s, j) == OutHalf(p.s, j)
    ensures Direction(p2, q, Flight(link, p2))
  {
    hide Channel;
    var flight, flight2 := Flight(link, p), Flight(link, p2);
    OpensConcat(link, p.s.outbound);
    OpensConcat(link, p2.s.outbound);
    SurvivingOpens(p.s.outbound, id);
    forall j: u32
      ensures j != id ==> Line(flight2, j) == Line(flight, j)
    {
      if j != id {
        LineConcat(link, p.s.outbound, j);
        LineConcat(link, p2.s.outbound, j);
        SurvivingLines(p.s.outbound, id, j);
      }
    }
    forall j: u32 | j != 0
      ensures StreamChannel(p2, q, flight2, j)
    {
      assert StreamChannel(p, q, flight, j);
      if j == id {
        CutChannel(p, q, link, id);
      }
    }
  }

  lemma LastFrame(p: Endpoint, q: Endpoint, link: seq<Frame>, f: Frame)
    requires StreamChannel(p, q, Flight(link, p), f.id)
    requires OutHalf(p.s, f.id) == Live || OutHalf(p.s, f.id) == Ended
    requires Rank(f.kind) == 3 && WellFormed(f)
    ensures Channel(Gone, InHalf(q.s, f.id), Line(link + Surviving(p.s.outbound, f.id), f.id) + [f],
                    p.SentBytes(f.id), Got(q.log, f.id), Finished(q.log, f.id))
  {
    hide Channel;
    LineShape(p, q, Flight(link, p), f.id);
    var n := CutLine(link, p.s.outbound, f.id);
    AbandonsWith(OutHalf(p.s, f.id), InHalf(q.s, f.id), Line(Flight(link, p), f.id), p.SentBytes(f.id),
                 Got(q.log, f.id), Finished(q.log, f.id), n, f);
  }

  /** The same, followed by a last CANCEL or ERROR. */
  lemma SenderTerminatesWith(p: Endpoint, p1: Endpoint, p2: Endpoint, q: Endpoint, link: seq<Frame>, f: Frame)
    requires Direction(p, q, Flight(link, p)) && Direction(p1, q, Flight(link, p1)) && f.id != 0
    requires p1.s.outbound == Surviving(p.s.outbound, f.id) && p1.sent == p.sent
    requires OutHalf(p.s, f.id) == Live || OutHalf(p.s, f.id) == Ended
    requires OutHalf(p1.s, f.id) == Gone
    requires Rank(f.kind) == 3 && WellFormed(f) && p2 == p1.(s := Enqueue(p1.s, f))
    ensures Direction(p2, q, Flight(link, p2))
  {
    hide Channel;
    LastFrame(p, q, link, f);
    assert Flight(link, p2) == Flight(link, p1) + [f];
    SenderAppends(p1, p2, q, Flight(link, p1), f);
  }

  lemma DroppedChannel(p: Endpoint, p1: Endpoint, q: Endpoint, link: seq<Frame>, id: u32)
    requires StreamChannel(p, q, Flight(link, p), id)
    requires OutHalf(p1.s, id) == if OutHalf(p.s, id) == Absent then Absent else Gone
    requires p1.sent == p.sent
    ensures StreamChannel(p1, q, link, id)
  {
    hide Channel;
    LineShape(p, q, Flight(link, p), id);
    LineConcat(link, p.s.outbound, id);
    var n := |Line(link, id)|;
    assert Line(Flight(link, p), id)[..n] == Line(link, id);
    if OutHalf(p.s, id) != Absent {
      Abandons(OutHalf(p.s, id), InHalf(q.s, id), Line(Flight(link, p), id), p.SentBytes(id), Got(q.log, id),
               Finished(q.log, id), n);
    }
  }

  /** Closing drops everything still queued. */
  lemma SenderDrops(p: Endpoint, p1: Endpoint, q: Endpoint, link: seq<Frame>)
    requires Direction(p, q, Flight(link, p))
    requires p1.s.closed && p1.s.streams == map[] && p1.s.ids == p.s.ids && p1.s.goawaySent == p.s.goawaySent
    requires p1.s.acceptedRemote == p.s.acceptedRemote && p1.sent == p.sent
    requires forall id :: id in p.s.streams ==> p.s.ids.WasCreated(id)
    ensures Direction(p1, q, link)
  {
    hide Channel;
    forall id: u32 | id != 0
      ensures StreamChannel(p1, q, link, id)
    {
      assert StreamChannel(p, q, Flight(link, p), id);
      DroppedChannel(p, p1, q, link, id);
    }
    ClosedControl(p, p1, q, link);
  }

  /** At most one connection ERROR follows. */
  lemma SenderCloses(p: Endpoint, p2: Endpoint, q: Endpoint, link: seq<Frame>, output: seq<Frame>)
    requires Direction(p, q, Flight(link, p))
    requires p2.s.closed && p2.s.streams == map[] && p2.s.ids == p.s.ids && p2.s.goawaySent == p.s.goawaySent
    requires p2.s.acceptedRemote == p.s.acceptedRemote && p2.sent == p.sent
    requires p2.s.outbound == output
    requires output == [] || exists f :: output == [f] && f.id == 0 && f.kind == Kind.Error && ControlFrame(p2.s, f)
    requires forall id :: id in p.s.streams ==> p.s.ids.WasCreated(id)
    ensures Direction(p2, q, Flight(link, p2))
  {
    hide Channel;
    SenderDrops(p, p2, q, link);
    if output != [] {
      var f :| output == [f] && f.id == 0 && f.kind == Kind.Error && ControlFrame(p2.s, f);
      SenderControl(p2, p2, q, link, f);
    } else {
      assert Flight(link, p2) == link;
    }
  }

  lemma ClosedControl(p: Endpoint, p1: Endpoint, q: Endpoint, link: seq<Frame>)
    requires Direction(p, q, Flight(link, p))
    requires p1.s.closed && p1.s.ids == p.s.ids && p1.s.goawaySent == p.s.goawaySent
    requires p1.s.acceptedRemote == p.s.acceptedRemote
    ensures Numbers(p1.s, q.s, Opens(link)) && Control(p1.s, q.s, Line(link, 0))
  {
    OpensConcat(link, p.s.outbound);
    LineConcat(link, p.s.outbound, 0);
    var line, front := Line(Flight(link, p), 0), Line(link, 0);
    assert forall i :: 0 <= i < |front| ==> front[i] == line[i];
    assert forall k :: 0 <= k < |Opens(link)| ==> Opens(link)[k] == Opens(Flight(link, p))[k];
  }

  /** Handing a scheduled frame to the writer changes no line and no OPEN order in flight. */
  lemma SenderPops(p: Endpoint, p2: Endpoint, q: Endpoint, link: seq<Frame>, i: nat)
    requires Direction(p, q, Flight(link, p))
    requires Eligible(p.s.outbound, i)
    requires SameSending(p, p2) && p2.s.ids == p.s.ids && p2.s.streams == p.s.streams
    requires p2.s.acceptedRemote == p.s.acceptedRemote
    requires p2.s.outbound == Without(p.s.outbound, i)
    ensures Direction(p2, q, Flight(link + [p.s.outbound[i]], p2))
  {
    hide Channel;
    var f, rest := p.s.outbound[i], Without(p.s.outbound, i);
    var flight2 := Flight(link + [f], p2);
    assert flight2 == link + ([f] + rest);
    EligibleKeepsOpens(p.s.outbound, i);
    OpensConcat(link, p.s.outbound);
    OpensConcat(link, [f] + rest);
    forall id: u32
      ensures Line(flight2, id) == Line(Flight(link, p), id)
    {
      EligibleKeepsLines(p.s.outbound, i, id);
      LineConcat(link, p.s.outbound, id);
      LineConcat(link, [f] + rest, id);
    }
    forall id: u32 | id != 0
      ensures StreamChannel(p2, q, flight2, id)
    {
      assert StreamChannel(p, q, Flight(link, p), id);
      assert OutHalf(p2.s, id) == OutHalf(p.s, id);
    }
  }

  // ---------------------------------------------------------------- receiver side

  /** Receiver half changes that consume nothing: leaving, or creating a local stream. */
  ghost predicate PassiveChange(before: Half, after: Half, out: Half) {
    || after == before
    || after == Gone
    || (before == Absent && after == Live && out == Absent)
  }

  ghost predicate SameReceiving(q: Endpoint, q2: Endpoint) {
    && q2.s.ids.localOdd == q.s.ids.localOdd
    && q2.s.ids.greatestRemote == q.s.ids.greatestRemote
    && q2.s.peerGoaway == q.s.peerGoaway
    && (q.s.closed ==> q2.s.closed)
  }

  ghost predicate SameDelivery(q: Endpoint, q2: Endpoint) {
    forall id: u32 :: Got(q2.log, id) == Got(q.log, id) && Finished(q2.log, id) == Finished(q.log, id)
  }

  lemma ReceiverPassive(p: Endpoint, q: Endpoint, q2: Endpoint, flight: seq<Frame>)
    requires Direction(p, q, flight)
    requires SameReceiving(q, q2) && SameDelivery(q, q2)
    requires forall id: u32 :: id != 0 ==> PassiveChange(InHalf(q.s, id), InHalf(q2.s, id), OutHalf(p.s, id))
    ensures Direction(p, q2, flight)
  {
    hide Channel;
    forall id: u32 | id != 0
      ensures StreamChannel(p, q2, flight, id)
    {
      assert StreamChannel(p, q, flight, id);
      var out, inn := OutHalf(p.s, id), InHalf(q.s, id);
      var line, sent, got, fin := Line(flight, id), p.SentBytes(id), Got(q.log, id), Finished(q.log, id);
      assert Got(q2.log, id) == got && Finished(q2.log, id) == fin;
      if InHalf(q2.s, id) != inn {
        if InHalf(q2.s, id) == Live {
          ReceiverCreates(inn, line, sent, got, fin);
        } else {
          ReceiverLeaves(out, inn, line, sent, got, fin, 0);
          assert line[0..] == line;
        }
      }
    }
  }

  /** Streams other than the one whose frame was taken see nothing of it. */
  lemma OtherChannel(p: Endpoint, q: Endpoint, q2: Endpoint, flight: seq<Frame>, id: u32)
    requires StreamChannel(p, q, flight, id) && flight != [] && flight[0].id != id
    requires InHalf(q2.s, id) == InHalf(q.s, id)
    requires Got(q2.log, id) == Got(q.log, id) && Finished(q2.log, id) == Finished(q.log, id)
    ensures StreamChannel(p, q2, flight[1..], id)
  {
    hide Channel;
    LineHead(flight, id);
  }

  lemma RestOfControl(p: Endpoint, q: Endpoint, q2: Endpoint, flight: seq<Frame>)
    requires Control(p.s, q.s, Line(flight, 0)) && flight != []
    requires q2.s.peerGoaway == q.s.peerGoaway || (flight[0].kind == GoAway && flight[0].id == 0)
    ensures Control(p.s, q2.s, Line(flight[1..], 0))
  {
    LineHead(flight, 0);
    var line, rest := Line(flight, 0), Line(flight[1..], 0);
    if flight[0].id == 0 {
      assert forall i :: 0 <= i < |rest| ==> rest[i] == line[i + 1];
    }
  }

  /** Taking a connection-level frame off the link. */
  lemma ReceiverControl(p: Endpoint, q: Endpoint, q2: Endpoint, flight: seq<Frame>)
    requires Direction(p, q, flight) && flight != [] && flight[0].id == 0 && flight[0].kind != Open
    requires q2.s.ids == q.s.ids && q2.s.streams == q.s.streams && q2.s.closed == q.s.closed && SameDelivery(q, q2)
    requires if flight[0].kind == GoAway then q2.s.peerGoaway.Some? else q2.s.peerGoaway == q.s.peerGoaway
    ensures Direction(p, q2, flight[1..])
  {
    hide Channel, Control;
    OpensHead(flight);
    RestOfControl(p, q, q2, flight);
    forall id: u32 | id != 0
      ensures StreamChannel(p, q2, flight[1..], id)
    {
      assert StreamChannel(p, q, flight, id);
      assert Got(q2.log, id) == Got(q.log, id);
      OtherChannel(p, q, q2, flight, id);
    }
  }

  /** `q2` differs from `q` at most on stream `x`. */
  ghost predicate SameElsewhere(q: Endpoint, q2: Endpoint, x: u32) {
    forall id: u32 :: id != x ==>
      && InHalf(q2.s, id) == InHalf(q.s, id) && Got(q2.log, id) == Got(q.log, id)
      && Finished(q2.log, id) == Finished(q.log, id)
  }

  /** Taking a stream frame off the link, the receiver's half moving as the frame says. */
  lemma ReceiverConsumes(p: Endpoint, q: Endpoint, q2: Endpoint, flight: seq<Frame>)
    requires Direction(p, q, flight) && flight != [] && flight[0].id != 0 && flight[0].kind != Open
    requires SameReceiving(q, q2) && q2.s.closed == q.s.closed && SameElsewhere(q, q2, flight[0].id)
    requires var id := flight[0].id;
             Channel(OutHalf(p.s, id), InHalf(q2.s, id), Line(flight, id)[1..], p.SentBytes(id), Got(q2.log, id),
                     Finished(q2.log, id))
    ensures Direction(p, q2, flight[1..])
  {
    hide Channel, Control;
    OpensHead(flight);
    RestOfControl(p, q, q2, flight);
    forall id: u32 | id != 0
      ensures StreamChannel(p, q2, flight[1..], id)
    {
      assert StreamChannel(p, q, flight, id);
      if id == flight[0].id {
        LineHead(flight, id);
      } else {
        assert InHalf(q2.s, id) == InHalf(q.s, id);
        OtherChannel(p, q, q2, flight, id);
      }
    }
  }

  lemma RestOfNumbers(sender: State, receiver: State, receiver2: State, flight: seq<Frame>)
    requires Numbers(sender, receiver, Opens(flight)) && receiver.ids.Valid()
    requires receiver2.closed == receiver.closed
    requires flight != [] && flight[0].kind == Open && Accept(receiver.ids, flight[0].id) == Ok(receiver2.ids)
    ensures Numbers(sender, receiver2, Opens(flight[1..]))
  {
    OpensHead(flight);
    var opens, rest := Opens(flight), Opens(flight[1..]);
    assert forall k :: 0 <= k < |rest| ==> rest[k] == opens[k + 1];
    assert receiver2.ids.UpcomingRemote() == receiver.ids.UpcomingRemote() + 2;
  }

  /** Taking an OPEN off the link: its number is the one expected, so it is accepted. */
  lemma ReceiverAccepts(p: Endpoint, q: Endpoint, q2: Endpoint, flight: seq<Frame>)
    requires Direction(p, q, flight) && Sound(q) && flight != [] && flight[0].kind == Open && flight[0].id != 0
    requires !q.s.closed && !q2.s.closed
    requires Accept(q.s.ids, flight[0].id) == Ok(q2.s.ids)
    requires q2.s.peerGoaway == q.s.peerGoaway && SameDelivery(q, q2)
    requires InHalf(q2.s, flight[0].id) == Live || InHalf(q2.s, flight[0].id) == Gone
    requires forall id: u32 :: id != flight[0].id ==> InHalf(q2.s, id) == InHalf(q.s, id)
    ensures Direction(p, q2, flight[1..])
  {
    hide Channel, Control, Numbers;
    RestOfNumbers(p.s, q.s, q2.s, flight);
    RestOfControl(p, q, q2, flight);
    forall id: u32 | id != 0
      ensures StreamChannel(p, q2, flight[1..], id)
    {
      assert StreamChannel(p, q, flight, id);
      assert Got(q2.log, id) == Got(q.log, id) && Finished(q2.log, id) == Finished(q.log, id);
      if id == flight[0].id {
        assert InHalf(q.s, id) == Absent;
        LineHead(flight, id);
        ReceivesOpen(OutHalf(p.s, id), Line(flight, id), p.SentBytes(id), Got(q.log, id), Finished(q.log, id));
      } else {
        OtherChannel(p, q, q2, flight, id);
      }
    }
  }

  /** A closed session may throw away the frame that closed it. */
  lemma ReceiverDiscards(p: Endpoint, q: Endpoint, flight: seq<Frame>)
    requires Direction(p, q, flight) && flight != [] && q.s.closed && q.s.streams == map[]
    ensures Direction(p, q, flight[1..])
  {
    hide Channel, Control;
    OpensHead(flight);
    RestOfControl(p, q, q, flight);
    forall id: u32 | id != 0
      ensures StreamChannel(p, q, flight[1..], id)
    {
      assert StreamChannel(p, q, flight, id);
      if id == flight[0].id {
        LineHead(flight, id);
        ReceiverLeaves(OutHalf(p.s, id), InHalf(q.s, id), Line(flight, id), p.SentBytes(id), Got(q.log, id),
                       Finished(q.log, id), 1);
      } else {
        OtherChannel(p, q, q, flight, id);
      }
    }
  }
}
