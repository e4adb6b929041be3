/** The scheduler's fairness, read off the wire of a session's whole life. */
module LifeFairness {
  import opened Bytes
  import opened Codec
  import opened StreamNumbering
  import opened SessionTypes
  import opened Scheduler
  import opened SessionModel
  import opened SessionRun
  import opened LifeChanges
  import opened Lifecycle

  lemma {:induction false} PathKeepsTurn(s: State, t: State, cs: seq<Change>)
    requires Path(s, t, cs)
    ensures t.lastOutput == s.lastOutput
    decreases |cs|
  {
    hide Possible, News, StreamsAfter, PingsAfter, Numbering, SameStreams, Tidy;
    if cs != [] {
      var u: State :| Changes(s, u, cs[0]) && Path(u, t, cs[1..]);
      PathKeepsTurn(u, t, cs[1..]);
    }
  }

  /** Only handing a frame to the writer moves the rotation on. */
  lemma OnlyOutputTurns(h: History, a: Action)
    requires Kept(h) && Enabled(h.e, a) && !a.TakingOutput?
    ensures Act(h.e, a).s.lastOutput == h.e.s.lastOutput
  {
    hide Orderly, Path, Founded, Owed, Accepts, FirstVisible;
    if !a.TakingEvent? && !a.TakingStreamEvent? {
      var before, t, cs := PathAct(h.e, a);
      PathKeepsTurn(h.e.s, t, cs);
    }
  }

  /** The turns taken between two points of a life are the frames that reached its wire in between. */
  ghost predicate Records(t: seq<Turn>, h: History, k: History, id: u32) {
    && Turns(t, id)
    && |h.wire| + |t| == |k.wire| && h.wire <= k.wire
    && (forall x :: 0 <= x < |t| ==> t[x].Served() == k.wire[|h.wire| + x].id)
    && (t != [] ==> k.e.s.lastOutput == Some(t[|t| - 1].Served()))
  }

  lemma TurnTaken(t: seq<Turn>, h: History, k: History, id: u32) returns (longer: seq<Turn>)
    requires Records(t, h, k, id) && Enabled(k.e, TakingOutput) && Waiting(k.e.s.outbound, id)
    ensures Records(longer, h, Follow(k, TakingOutput), id)
  {
    hide Waiting, Selected;
    var s := k.e.s;
    var turn := Turn(s.lastOutput, s.outbound, Choice(s.lastOutput, s.outbound));
    assert turn.Valid() && turn.index < |s.outbound| by { Chosen(s.lastOutput, s.outbound); }
    longer := t + [turn];
  }

  lemma Chosen(last: Option<u32>, q: seq<Frame>)
    requires q != []
    ensures Selected(last, q, Choice(last, q)) && Choice(last, q) < |q|
  {
  }

  lemma {:induction false} TurnsOfLife(life: seq<History>, m: nat, n: nat, id: u32) returns (t: seq<Turn>)
    requires Life(life) && m <= n < |life|
    requires forall k :: m <= k < n ==> Waiting(life[k].e.s.outbound, id)
    ensures Records(t, life[m], life[n], id)
  {
    hide Waiting, Records, Enabled, Follow, Kept;
    if n == m {
      t := [];
      NoTurns(life[m], id);
    } else {
      t := TurnsOfLife(life, m, n - 1, id);
      var k := life[n - 1];
      assert Steps(k, life[n]);
      var a: Action :| Enabled(k.e, a) && life[n] == Follow(k, a);
      if a.TakingOutput? {
        t := TurnTaken(t, life[m], k, id);
      } else {
        LifeKept(life, n - 1);
        NoTurnTaken(t, life[m], k, a, id);
      }
    }
  }

  lemma NoTurns(h: History, id: u32)
    ensures Records([], h, h, id)
  {
  }

  lemma NoTurnTaken(t: seq<Turn>, h: History, k: History, a: Action, id: u32)
    requires Records(t, h, k, id) && Kept(k) && Enabled(k.e, a) && !a.TakingOutput?
    ensures Records(t, h, Follow(k, a), id)
  {
    hide Act, Accepts, Turns, Waiting, Kept;
    OnlyOutputTurns(k, a);
  }

  /**
   Fairness on the wire: while a stream waits, with a frame that is neither OPEN nor GOAWAY at its head,
   and is not served, no other stream gets two frames onto the wire, whatever calls and frames come in between.
   */
  lemma EveryStreamGetsItsTurn(life: seq<History>, m: nat, n: nat, id: u32)
    requires Life(life) && m <= n < |life|
    requires forall k :: m <= k < n ==> Waiting(life[k].e.s.outbound, id)
    ensures life[m].wire <= life[n].wire
    ensures (forall i :: |life[m].wire| <= i < |life[n].wire| ==> life[n].wire[i].id != id) ==>
              forall i, j :: |life[m].wire| <= i < j < |life[n].wire| ==> life[n].wire[i].id != life[n].wire[j].id
  {
    hide Life, Waiting, NoOpenBefore;
    var t := TurnsOfLife(life, m, n, id);
    var from, wire := |life[m].wire|, life[n].wire;
    if forall i :: from <= i < |wire| ==> wire[i].id != id {
      assert forall x :: 0 <= x < |t| ==> t[x].Served() == wire[from + x].id && t[x].Served() != id;
      NobodyServedTwice(t, id);
      forall i, j | from <= i < j < |wire|
        ensures wire[i].id != wire[j].id
      {
        assert t[i - from].Served() != t[j - from].Served();
      }
    }
  }
}
