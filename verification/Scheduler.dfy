/** Whole-frame round robin over stream heads, with OPEN and GOAWAY barriers. */
module Scheduler {
  import opened Bytes
  import opened Codec
  import opened SessionTypes
  import opened Lines

  /** No earlier frame of the queue belongs to the same stream. */
  ghost predicate IsHead(q: seq<Frame>, i: nat) {
    i < |q| && forall j :: 0 <= j < i ==> q[j].id != q[i].id
  }

  ghost predicate NoOpenBefore(q: seq<Frame>, i: nat)
    requires i <= |q|
  {
    forall j :: 0 <= j < i ==> q[j].kind != Open
  }

  /** Heads may go, except OPEN and GOAWAY while an earlier OPEN is queued. */
  ghost predicate Eligible(q: seq<Frame>, i: nat) {
    IsHead(q, i) && (q[i].kind == Open || q[i].kind == GoAway ==> NoOpenBefore(q, i))
  }

  /** Steps from the stream served last to `id`, going up and wrapping past the largest number. */
  function Distance(last: Option<u32>, id: u32): nat {
    if last.None? then id
    else if id > last.value then id - last.value - 1
    else id + 0x1_0000_0000 - last.value - 1
  }

  ghost predicate Selected(last: Option<u32>, q: seq<Frame>, i: nat) {
    && Eligible(q, i)
    && forall j :: 0 <= j < |q| && Eligible(q, j) ==> Distance(last, q[i].id) <= Distance(last, q[j].id)
  }

  /** The oldest frame is always eligible, so a nonempty queue always has a next frame. */
  lemma SelectionExists(last: Option<u32>, q: seq<Frame>)
    requires q != []
    ensures exists i: nat :: Selected(last, q, i)
  {
    var distances: set<nat> := set i | 0 <= i < |q| && Eligible(q, i) :: Distance(last, q[i].id);
    assert Eligible(q, 0);
    assert Distance(last, q[0].id) in distances;
    var i :| 0 <= i < |q| && Eligible(q, i) && Distance(last, q[i].id) == Least(distances);
    forall j | 0 <= j < |q| && Eligible(q, j)
      ensures Distance(last, q[i].id) <= Distance(last, q[j].id)
    {
      var d: nat := Distance(last, q[j].id);
      assert d in distances;
      assert Least(distances) <= d;
    }
    assert Selected(last, q, i);
  }

  /** Heads carry distinct stream numbers, so the closest one is unique. */
  lemma SelectionUnique(last: Option<u32>, q: seq<Frame>, i: nat, j: nat)
    requires Selected(last, q, i) && Selected(last, q, j)
    ensures i == j
  {
    assert Distance(last, q[i].id) == Distance(last, q[j].id);
    assert q[i].id == q[j].id;
  }

  ghost function Choice(last: Option<u32>, q: seq<Frame>): (i: nat)
    requires q != []
    ensures Selected(last, q, i)
  {
    SelectionExists(last, q);
    var i: nat :| Selected(last, q, i);
    i
  }

  function Without(q: seq<Frame>, i: nat): seq<Frame>
    requires i < |q|
  {
    q[..i] + q[i + 1..]
  }

  lemma {:induction false} NoLineBefore(q: seq<Frame>, id: u32)
    requires forall j :: 0 <= j < |q| ==> q[j].id != id
    ensures Line(q, id) == []
  {
    if q != [] {
      NoLineBefore(q[1..], id);
    }
  }

  lemma {:induction false} NoOpensBefore(q: seq<Frame>)
    requires NoOpenBefore(q, |q|)
    ensures Opens(q) == []
  {
    if q != [] {
      assert forall j :: 0 <= j < |q[1..]| ==> q[1..][j] == q[j + 1];
      NoOpensBefore(q[1..]);
    }
  }

  /** Sending an eligible frame first keeps every stream's frame order. */
  lemma EligibleKeepsLines(q: seq<Frame>, i: nat, id: u32)
    requires Eligible(q, i)
    ensures Line([q[i]] + Without(q, i), id) == Line(q, id)
  {
    var before, own, after := q[..i], [q[i]], q[i + 1..];
    calc {
      Line(q, id);
      { assert q == before + own + after; }
      Line(before + own + after, id);
      { LineConcat(before + own, after, id); LineConcat(before, own, id); }
      Line(before, id) + Line(own, id) + Line(after, id);
      { if id == q[i].id { NoLineBefore(before, id); } else { NoLineBefore(own, id); } }
      Line(own, id) + Line(before, id) + Line(after, id);
      { LineConcat(own, before, id); LineConcat(own + before, after, id); }
      Line(own + before + after, id);
      { assert own + before + after == own + Without(q, i); }
      Line(own + Without(q, i), id);
    }
  }

  /** Sending an eligible frame first keeps the order of OPEN frames. */
  lemma EligibleKeepsOpens(q: seq<Frame>, i: nat)
    requires Eligible(q, i)
    ensures Opens([q[i]] + Without(q, i)) == Opens(q)
  {
    var before, own, after := q[..i], [q[i]], q[i + 1..];
    calc {
      Opens(q);
      { assert q == before + own + after; }
      Opens(before + own + after);
      { OpensConcat(before + own, after); OpensConcat(before, own); }
      Opens(before) + Opens(own) + Opens(after);
      { if q[i].kind == Open { NoOpensBefore(before); } else { assert Opens(own) == []; } }
      Opens(own) + Opens(before) + Opens(after);
      { OpensConcat(own, before); OpensConcat(own + before, after); }
      Opens(own + before + after);
      { assert own + before + after == own + Without(q, i); }
      Opens(own + Without(q, i));
    }
  }

  /** The wire order of a whole queue, drained frame by frame with nothing arriving. */
  ghost function DrainOrder(last: Option<u32>, q: seq<Frame>): seq<Frame>
    decreases |q|
  {
    if q == [] then []
    else
      var i := Choice(last, q);
      [q[i]] + DrainOrder(Some(q[i].id), Without(q, i))
  }

  lemma WithoutKeepsOthers(q: seq<Frame>, i: nat)
    requires i < |q|
    ensures multiset(q) == multiset([q[i]] + Without(q, i))
  {
    assert q == q[..i] + [q[i]] + q[i + 1..];
  }

  /** Draining sends every frame once, keeps each stream's order and keeps the order of OPENs. */
  lemma {:induction false} DrainKeepsOrder(last: Option<u32>, q: seq<Frame>, id: u32)
    ensures var wire := DrainOrder(last, q);
            multiset(wire) == multiset(q) && Line(wire, id) == Line(q, id) && Opens(wire) == Opens(q)
    decreases |q|
  {
    hide Line, Opens, NoOpenBefore;
    if q != [] {
      var i := Choice(last, q);
      var head, rest := [q[i]], Without(q, i);
      var tail := DrainOrder(Some(q[i].id), rest);
      DrainKeepsOrder(Some(q[i].id), rest, id);
      EligibleKeepsLines(q, i, id);
      EligibleKeepsOpens(q, i);
      LineConcat(head, rest, id);
      LineConcat(head, tail, id);
      OpensConcat(head, rest);
      OpensConcat(head, tail);
      WithoutKeepsOthers(q, i);
    }
  }

  /** A stream whose oldest frame is neither OPEN nor GOAWAY. */
  ghost predicate Waiting(q: seq<Frame>, id: u32) {
    exists i :: 0 <= i < |q| && IsHead(q, i) && q[i].id == id && q[i].kind != Open && q[i].kind != GoAway
  }

  /** Serving another stream brings the rotation strictly closer to every waiting one. */
  lemma RotationAdvances(last: Option<u32>, q: seq<Frame>, i: nat, id: u32)
    requires Waiting(q, id) && Selected(last, q, i) && q[i].id != id
    ensures Distance(Some(q[i].id), id) < Distance(last, id)
  {
    var j :| 0 <= j < |q| && IsHead(q, j) && q[j].id == id && q[j].kind != Open && q[j].kind != GoAway;
    assert Eligible(q, j);
  }

  /** One selection: the queue as it stood, the index taken and the rotation position before it. */
  datatype Turn = Turn(last: Option<u32>, queue: seq<Frame>, index: nat)
  {
    ghost predicate Valid() {
      Selected(last, queue, index)
    }

    function Served(): u32
      requires index < |queue|
    {
      queue[index].id
    }
  }

  /** Consecutive turns; between them the queue may change in any way that keeps `id` waiting. */
  ghost predicate Turns(t: seq<Turn>, id: u32) {
    && (forall k :: 0 <= k < |t| ==> t[k].Valid() && Waiting(t[k].queue, id))
    && (forall k :: 0 < k < |t| ==> t[k].last == Some(t[k - 1].Served()))
  }

  lemma {:induction false} RotationAdvancesTo(t: seq<Turn>, id: u32, i: nat, j: nat)
    requires Turns(t, id) && i < j < |t|
    requires forall k :: 0 <= k < |t| ==> t[k].Served() != id
    ensures Distance(Some(t[j].Served()), id) < Distance(Some(t[i].Served()), id)
  {
    if i + 1 < j {
      RotationAdvancesTo(t, id, i, j - 1);
    }
    RotationAdvances(t[j].last, t[j].queue, t[j].index, id);
    assert t[j].last == Some(t[j - 1].Served());
  }

  /** While a stream waits unserved, no other stream is served twice, whatever arrives meanwhile. */
  lemma NobodyServedTwice(t: seq<Turn>, id: u32)
    requires Turns(t, id)
    requires forall k :: 0 <= k < |t| ==> t[k].Served() != id
    ensures forall i, j :: 0 <= i < j < |t| ==> t[i].Served() != t[j].Served()
  {
    forall i, j | 0 <= i < j < |t|
      ensures t[i].Served() != t[j].Served()
    {
      RotationAdvancesTo(t, id, i, j);
    }
  }

  ghost predicate IsFirstOpen(q: seq<Frame>, r: Option<nat>) {
    match r
    case None => NoOpenBefore(q, |q|)
    case Some(i) => i < |q| && q[i].kind == Open && NoOpenBefore(q, i)
  }

  /** The queue position of the first OPEN, if any. */
  method FirstOpen(q: seq<Frame>) returns (r: Option<nat>)
    ensures IsFirstOpen(q, r)
  {
    for i := 0 to |q|
      invariant NoOpenBefore(q, i)
    {
      if q[i].kind == Open {
        return Some(i);
      }
    }
    return None;
  }

  /** Only the first OPEN may go, and GOAWAY never before an earlier OPEN. */
  predicate Barred(kind: Kind, firstOpen: Option<nat>, index: nat) {
    || (kind == Open && firstOpen != Some(index))
    || (kind == GoAway && firstOpen.Some? && firstOpen.value < index)
  }

  lemma BarredExactly(q: seq<Frame>, firstOpen: Option<nat>, index: nat)
    requires index < |q| && IsFirstOpen(q, firstOpen)
    ensures Barred(q[index].kind, firstOpen, index) <==>
            (q[index].kind == Open || q[index].kind == GoAway) && !NoOpenBefore(q, index)
  {
  }

  lemma SeenExactly(q: seq<Frame>, seen: set<u32>, index: nat)
    requires index < |q| && seen == set j | 0 <= j < index :: q[j].id
    ensures q[index].id in seen <==> !IsHead(q, index)
    ensures seen + {q[index].id} == set j | 0 <= j < index + 1 :: q[j].id
  {
  }

  datatype Candidate = Candidate(id: u32, index: nat)

  /** `eligible` lists exactly the eligible positions before `n`. */
  ghost predicate Lists(q: seq<Frame>, n: nat, eligible: seq<Candidate>) {
    && n <= |q|
    && (forall i :: 0 <= i < n && Eligible(q, i) ==> Candidate(q[i].id, i) in eligible)
    && (forall c :: c in eligible ==> c.index < n && Eligible(q, c.index) && c.id == q[c.index].id)
  }

  lemma ListsNext(q: seq<Frame>, n: nat, eligible: seq<Candidate>)
    requires n < |q| && Lists(q, n, eligible)
    ensures Lists(q, n + 1, if Eligible(q, n) then eligible + [Candidate(q[n].id, n)] else eligible)
  {
  }

  /** One candidate per stream, oldest first, skipping barred OPEN and GOAWAY frames. */
  method Candidates(q: seq<Frame>) returns (eligible: seq<Candidate>)
    ensures Lists(q, |q|, eligible)
  {
    var firstOpen := FirstOpen(q);
    var seen: set<u32> := {};
    eligible := [];
    for index := 0 to |q|
      invariant seen == set j | 0 <= j < index :: q[j].id
      invariant Lists(q, index, eligible)
    {
      ListsNext(q, index, eligible);
      BarredExactly(q, firstOpen, index);
      SeenExactly(q, seen, index);
      var id := q[index].id;
      if id in seen {
        assert seen + {id} == seen;
        continue;
      }
      seen := seen + {id};
      if Barred(q[index].kind, firstOpen, index) {
        continue;
      }
      eligible := eligible + [Candidate(id, index)];
    }
  }

  /** The smallest-numbered candidate above `last`, if one exists. */
  method SmallestAbove(eligible: seq<Candidate>, last: Option<u32>) returns (r: Option<Candidate>)
    ensures r.None? ==> forall c :: c in eligible ==> last.Some? && c.id <= last.value
    ensures r.Some? ==>
              && r.value in eligible
              && (last.Some? ==> r.value.id > last.value)
              && forall c :: c in eligible && (last.Some? ==> c.id > last.value) ==> r.value.id <= c.id
  {
    r := None;
    for i := 0 to |eligible|
      invariant r.None? ==> forall c :: c in eligible[..i] ==> last.Some? && c.id <= last.value
      invariant r.Some? ==>
                  && r.value in eligible[..i]
                  && (last.Some? ==> r.value.id > last.value)
                  && forall c :: c in eligible[..i] && (last.Some? ==> c.id > last.value) ==> r.value.id <= c.id
    {
      var c := eligible[i];
      assert eligible[..i + 1] == eligible[..i] + [c];
      if (last.None? || c.id > last.value) && (r.None? || c.id < r.value.id) {
        r := Some(c);
      }
    }
    assert eligible[..|eligible|] == eligible;
  }

  /** Round-robin selection: the next number above the last one served, else the smallest. */
  method SelectNext(last: Option<u32>, q: seq<Frame>) returns (r: Option<nat>)
    ensures r == if q == [] then None else Some(Choice(last, q))
  {
    var eligible := Candidates(q);
    var next := SmallestAbove(eligible, last);
    if next.None? {
      next := SmallestAbove(eligible, None);
    }
    if next.None? {
      if q != [] {
        assert Eligible(q, 0);
        assert false;
      }
      return None;
    }
    var chosen := next.value;
    assert Selected(last, q, chosen.index) by {
      forall j | 0 <= j < |q| && Eligible(q, j)
        ensures Distance(last, q[chosen.index].id) <= Distance(last, q[j].id)
      {
        assert Candidate(q[j].id, j) in eligible;
      }
    }
    SelectionUnique(last, q, chosen.index, Choice(last, q));
    return Some(chosen.index);
  }
}
