/** Per-stream projections of a frame sequence: what one stream sees of a shared queue. */
module Lines {
  import opened Bytes
  import opened Codec
  import opened SessionTypes

  /** The frames of one stream, in order. */
  ghost function Line(q: seq<Frame>, id: u32): seq<Frame> {
    if q == [] then []
    else (if q[0].id == id then [q[0]] else []) + Line(q[1..], id)
  }

  /** The stream numbers announced by OPEN frames, in order. */
  ghost function Opens(q: seq<Frame>): seq<u32> {
    if q == [] then []
    else (if q[0].kind == Open then [q[0].id] else []) + Opens(q[1..])
  }

  /** Bytes carried by DATA frames, concatenated. */
  ghost function DataBytes(q: seq<Frame>): seq<byte> {
    if q == [] then []
    else (if q[0].kind == Data then q[0].payload else []) + DataBytes(q[1..])
  }

  /** Removal of queued production for a terminated stream: everything of it but its OPEN goes. */
  ghost function Surviving(q: seq<Frame>, id: u32): seq<Frame> {
    if q == [] then []
    else (if q[0].id != id || q[0].kind == Open then [q[0]] else []) + Surviving(q[1..], id)
  }

  lemma {:induction false} LineConcat(a: seq<Frame>, b: seq<Frame>, id: u32)
    ensures Line(a + b, id) == Line(a, id) + Line(b, id)
  {
    if a == [] {
      assert a + b == b;
    } else {
      var own := if a[0].id == id then [a[0]] else [];
      calc {
        Line(a + b, id);
        { assert (a + b)[0] == a[0] && (a + b)[1..] == a[1..] + b; }
        own + Line(a[1..] + b, id);
        { LineConcat(a[1..], b, id); }
        own + (Line(a[1..], id) + Line(b, id));
        own + Line(a[1..], id) + Line(b, id);
        Line(a, id) + Line(b, id);
      }
    }
  }

  lemma {:induction false} OpensConcat(a: seq<Frame>, b: seq<Frame>)
    ensures Opens(a + b) == Opens(a) + Opens(b)
  {
    if a == [] {
      assert a + b == b;
    } else {
      var own := if a[0].kind == Open then [a[0].id] else [];
      calc {
        Opens(a + b);
        { assert (a + b)[0] == a[0] && (a + b)[1..] == a[1..] + b; }
        own + Opens(a[1..] + b);
        { OpensConcat(a[1..], b); }
        own + (Opens(a[1..]) + Opens(b));
        own + Opens(a[1..]) + Opens(b);
        Opens(a) + Opens(b);
      }
    }
  }

  lemma {:induction false} DataBytesConcat(a: seq<Frame>, b: seq<Frame>)
    ensures DataBytes(a + b) == DataBytes(a) + DataBytes(b)
  {
    if a == [] {
      assert a + b == b;
    } else {
      var own := if a[0].kind == Data then a[0].payload else [];
      calc {
        DataBytes(a + b);
        { assert (a + b)[0] == a[0] && (a + b)[1..] == a[1..] + b; }
        own + DataBytes(a[1..] + b);
        { DataBytesConcat(a[1..], b); }
        own + (DataBytes(a[1..]) + DataBytes(b));
        own + DataBytes(a[1..]) + DataBytes(b);
        DataBytes(a) + DataBytes(b);
      }
    }
  }

  lemma {:induction false} SurvivingConcat(a: seq<Frame>, b: seq<Frame>, id: u32)
    ensures Surviving(a + b, id) == Surviving(a, id) + Surviving(b, id)
  {
    if a == [] {
      assert a + b == b;
    } else {
      var own := if a[0].id != id || a[0].kind == Open then [a[0]] else [];
      calc {
        Surviving(a + b, id);
        { assert (a + b)[0] == a[0] && (a + b)[1..] == a[1..] + b; }
        own + Surviving(a[1..] + b, id);
        { SurvivingConcat(a[1..], b, id); }
        own + (Surviving(a[1..], id) + Surviving(b, id));
        own + Surviving(a[1..], id) + Surviving(b, id);
        Surviving(a, id) + Surviving(b, id);
      }
    }
  }

  lemma {:induction false} LineIds(q: seq<Frame>, id: u32)
    ensures forall k :: 0 <= k < |Line(q, id)| ==> Line(q, id)[k].id == id
  {
    if q != [] {
      LineIds(q[1..], id);
    }
  }

  lemma {:induction false} LineMembers(q: seq<Frame>, id: u32)
    ensures forall f :: f in Line(q, id) <==> f in q && f.id == id
  {
    if q != [] {
      LineMembers(q[1..], id);
      assert q == [q[0]] + q[1..];
    }
  }

  lemma {:induction false} SurvivingMembers(q: seq<Frame>, id: u32)
    ensures forall f :: f in Surviving(q, id) <==> f in q && (f.id != id || f.kind == Open)
  {
    if q != [] {
      SurvivingMembers(q[1..], id);
      assert q == [q[0]] + q[1..];
    }
  }

  /** Cutting a stream leaves other streams and every OPEN alone. */
  lemma {:induction false} SurvivingLines(q: seq<Frame>, id: u32, other: u32)
    requires other != id
    ensures Line(Surviving(q, id), other) == Line(q, other)
  {
    if q != [] {
      SurvivingLines(q[1..], id, other);
      var kept := if q[0].id != id || q[0].kind == Open then [q[0]] else [];
      LineConcat(kept, Surviving(q[1..], id), other);
    }
  }

  lemma {:induction false} SurvivingOpens(q: seq<Frame>, id: u32)
    ensures Opens(Surviving(q, id)) == Opens(q)
  {
    if q != [] {
      SurvivingOpens(q[1..], id);
      var kept := if q[0].id != id || q[0].kind == Open then [q[0]] else [];
      OpensConcat(kept, Surviving(q[1..], id));
    }
  }

  /** What survives of the cut stream itself is the OPEN part of its line. */
  lemma {:induction false} SurvivingLine(q: seq<Frame>, id: u32)
    ensures Line(Surviving(q, id), id) == Surviving(Line(q, id), id)
  {
    if q != [] {
      SurvivingLine(q[1..], id);
      var kept := if q[0].id != id || q[0].kind == Open then [q[0]] else [];
      LineConcat(kept, Surviving(q[1..], id), id);
      var own := if q[0].id == id then [q[0]] else [];
      SurvivingConcat(own, Line(q[1..], id), id);
    }
  }

  /** A line without OPEN disappears entirely when its stream is cut. */
  lemma {:induction false} SurvivingNothing(line: seq<Frame>, id: u32)
    requires forall k :: 0 <= k < |line| ==> line[k].id == id && line[k].kind != Open
    ensures Surviving(line, id) == []
  {
    if line != [] {
      assert forall k :: 0 <= k < |line[1..]| ==> line[1..][k] == line[k + 1];
      SurvivingNothing(line[1..], id);
    }
  }
}
