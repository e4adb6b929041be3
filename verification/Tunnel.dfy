/** Two guards and a network that may drop, repeat, reorder, redirect and forge at will. */
module Tunnel {
  import opened Bytes
  import opened Codec
  import opened Wire
  import opened Integrity

  /** One tag ever computed. */
  datatype Minted = Minted(key: Key, nonce: seq<byte>, covered: seq<byte>, tag: Tag)

  datatype Party = Party(guard: Guard, minted: seq<Minted>, sealed: seq<Packet>, released: seq<Packet>)

  datatype World = World(a: Party, b: Party)

  datatype Action =
    | Sealing(frame: Packet, mac: Mac)
    | Completing
    | Receiving(frame: Packet, check: Check)
    | Closing

  /** Ideal tags: only what was minted, by either party, under the very key and nonce verifies. */
  ghost predicate Ideal(check: Check, minted: seq<Minted>) {
    forall k: Key, n: seq<byte>, c: seq<byte>, t: Tag :: check(k, n, c, t).Ok? ==> Minted(k, n, c, t) in minted
  }

  ghost function Act(p: Party, a: Action): Party {
    match a
    case Sealing(f, mac) =>
      var r := Seal(p.guard, f, mac);
      if r.result.Ok? then
        var keys := p.guard.send.value;
        p.(guard := r.guard,
           minted := p.minted + [Minted(keys.key, Nonce(keys.prefix, p.guard.sendSequence),
                                        f.Covered(), r.result.value.tag.value)],
           sealed := p.sealed + [r.result.value])
      else p.(guard := r.guard)
    case Completing => p.(guard := Sent(p.guard).guard)
    case Receiving(f, check) =>
      var r := Verify(p.guard, f, check);
      p.(guard := r.guard, released := if r.result.Ok? then p.released + [r.result.value] else p.released)
    case Closing => p.(guard := Close(p.guard))
  }

  /** Frames are well formed; a received one is otherwise arbitrary. */
  ghost predicate Enabled(p: Party, q: Party, a: Action) {
    match a
    case Sealing(f, _) => f.Valid()
    case Receiving(f, check) => f.Valid() && Ideal(check, p.minted + q.minted)
    case _ => true
  }

  ghost predicate Next(w: World, v: World) {
    exists a: Action ::
      || (Enabled(w.a, w.b, a) && v.a == Act(w.a, a) && v.b == w.b)
      || (Enabled(w.b, w.a, a) && v.b == Act(w.b, a) && v.a == w.a)
  }

  ghost predicate Initial(w: World, ab: DirectionKeys, ba: DirectionKeys) {
    && w.a == Party(NewGuard(ab, ba), [], [], [])
    && w.b == Party(NewGuard(ba, ab), [], [], [])
  }

  ghost predicate Run(run: seq<World>, ab: DirectionKeys, ba: DirectionKeys) {
    && run != [] && Initial(run[0], ab, ba)
    && forall k :: 0 < k < |run| ==> Next(run[k - 1], run[k])
  }

  /** The sender's record: one tag per sealed frame, under consecutive sequence numbers. */
  ghost predicate Recorded(p: Party, keys: DirectionKeys) {
    && (p.guard.send.Some? ==> p.guard.send.value == keys)
    && (p.guard.send.Some? ==> |p.sealed| == p.guard.sendSequence + if p.guard.pending then 1 else 0)
    && |p.minted| == |p.sealed| <= MAX_U64
    && (p.guard.pending ==> p.guard.sendSequence < MAX_U64)
    && (forall i :: 0 <= i < |p.sealed| ==>
          && p.sealed[i].Valid() && p.sealed[i].tag.Some?
          && p.minted[i] == Minted(keys.key, Nonce(keys.prefix, i), p.sealed[i].Covered(), p.sealed[i].tag.value))
  }

  /** What one end released is exactly the beginning of what the other sealed. */
  ghost predicate Carried(p: Party, q: Party, keys: DirectionKeys) {
    && (q.guard.receive.Some? ==> q.guard.receive.value == keys)
    && q.guard.receiveSequence <= |p.sealed|
    && q.released == p.sealed[..q.guard.receiveSequence]
  }

  ghost predicate Invariant(p: Party, q: Party, pq: DirectionKeys, qp: DirectionKeys) {
    Recorded(p, pq) && Recorded(q, qp) && Carried(p, q, pq) && Carried(q, p, qp)
  }

  /** A verified frame is the one sealed under the expected number, whoever delivered it. */
  lemma Authentic(p: Party, q: Party, pq: DirectionKeys, qp: DirectionKeys, f: Packet, check: Check)
    requires Invariant(p, q, pq, qp) && pq != qp
    requires f.Valid() && Ideal(check, q.minted + p.minted)
    requires q.guard.receive.Some? && f.tag.Some?
    requires check(pq.key, Nonce(pq.prefix, q.guard.receiveSequence), f.Covered(), f.tag.value).Ok?
    ensures q.guard.receiveSequence < |p.sealed| && p.sealed[q.guard.receiveSequence] == f
  {
    var n := q.guard.receiveSequence;
    var m := Minted(pq.key, Nonce(pq.prefix, n), f.Covered(), f.tag.value);
    assert m in q.minted + p.minted;
    if m in q.minted {
      var j :| 0 <= j < |q.minted| && q.minted[j] == m;
      PrefixInjective(qp.prefix, j, pq.prefix, n);
    }
    var i :| 0 <= i < |p.minted| && p.minted[i] == m;
    NonceInjective(pq.prefix, i, n);
    CoveredExact(p.sealed[i], f);
  }

  lemma SealingKeeps(p: Party, q: Party, pq: DirectionKeys, qp: DirectionKeys, a: Action)
    requires Invariant(p, q, pq, qp) && a.Sealing? && Enabled(p, q, a)
    ensures Invariant(Act(p, a), q, pq, qp)
  {
    hide Nonce, BigEndian64;
    var p2 := Act(p, a);
    if p2.sealed != p.sealed {
      assert p2.sealed[..q.guard.receiveSequence] == p.sealed[..q.guard.receiveSequence];
    }
  }

  lemma ReceivingKeeps(p: Party, q: Party, pq: DirectionKeys, qp: DirectionKeys, a: Action)
    requires Invariant(p, q, pq, qp) && pq != qp && a.Receiving? && Enabled(q, p, a)
    ensures Invariant(p, Act(q, a), pq, qp)
    ensures Verify(q.guard, a.frame, a.check).result != Err(Exhausted)
  {
    hide Nonce, Ideal;
    if q.guard.receive.Some? && a.frame.tag.Some?
       && a.check(pq.key, Nonce(pq.prefix, q.guard.receiveSequence), a.frame.Covered(), a.frame.tag.value).Ok? {
      Authentic(p, q, pq, qp, a.frame, a.check);
      var n := q.guard.receiveSequence;
      assert p.sealed[..n + 1] == p.sealed[..n] + [p.sealed[n]];
    }
  }

  lemma StepKeeps(p: Party, q: Party, pq: DirectionKeys, qp: DirectionKeys, a: Action)
    requires Invariant(p, q, pq, qp) && pq != qp && Enabled(p, q, a)
    ensures Invariant(Act(p, a), q, pq, qp)
  {
    match a {
      case Sealing(_, _) => SealingKeeps(p, q, pq, qp, a);
      case Receiving(_, _) => ReceivingKeeps(q, p, qp, pq, a);
      case Completing =>
      case Closing =>
    }
  }

  lemma {:induction false} RunKeeps(run: seq<World>, k: nat, ab: DirectionKeys, ba: DirectionKeys)
    requires Run(run, ab, ba) && k < |run| && ab != ba
    ensures Invariant(run[k].a, run[k].b, ab, ba)
  {
    hide Act, Enabled, Recorded, Carried;
    if k == 0 {
      Begins(run[0], ab, ba);
    } else {
      RunKeeps(run, k - 1, ab, ba);
      var w, v := run[k - 1], run[k];
      assert Next(w, v);
      var a: Action :|
        || (Enabled(w.a, w.b, a) && v.a == Act(w.a, a) && v.b == w.b)
        || (Enabled(w.b, w.a, a) && v.b == Act(w.b, a) && v.a == w.a);
      if Enabled(w.a, w.b, a) && v.a == Act(w.a, a) && v.b == w.b {
        StepKeeps(w.a, w.b, ab, ba, a);
      } else {
        StepKeeps(w.b, w.a, ba, ab, a);
      }
    }
  }

  lemma Begins(w: World, ab: DirectionKeys, ba: DirectionKeys)
    requires Initial(w, ab, ba)
    ensures Invariant(w.a, w.b, ab, ba)
  {
  }

  /**
   Integrity over an arbitrary network: with ideal tags and distinct direction material, each end has
   released exactly the first frames its peer sealed, as many as its receive counter says.
   */
  lemma ReleasedIsWhatWasSealed(run: seq<World>, k: nat, ab: DirectionKeys, ba: DirectionKeys)
    requires Run(run, ab, ba) && k < |run| && ab != ba
    ensures var w := run[k];
            && w.b.guard.receiveSequence <= |w.a.sealed| && w.b.released == w.a.sealed[..w.b.guard.receiveSequence]
            && w.a.guard.receiveSequence <= |w.b.sealed| && w.a.released == w.b.sealed[..w.a.guard.receiveSequence]
  {
    hide Recorded;
    RunKeeps(run, k, ab, ba);
  }

  /** Every tag of a run was computed under its own key and nonce, by either end. */
  lemma NoncesAreFresh(run: seq<World>, k: nat, ab: DirectionKeys, ba: DirectionKeys)
    requires Run(run, ab, ba) && k < |run| && ab != ba
    ensures var all := run[k].a.minted + run[k].b.minted;
            forall i, j :: 0 <= i < j < |all| ==> !(all[i].key == all[j].key && all[i].nonce == all[j].nonce)
  {
    hide Carried, Nonce;
    RunKeeps(run, k, ab, ba);
    var w := run[k];
    var all := w.a.minted + w.b.minted;
    forall i, j | 0 <= i < j < |all| && all[i].key == all[j].key
      ensures all[i].nonce != all[j].nonce
    {
      var n := |w.a.minted|;
      if all[i].nonce == all[j].nonce {
        if j < n {
          NonceInjective(ab.prefix, i, j);
        } else if i >= n {
          NonceInjective(ba.prefix, i - n, j - n);
        } else {
          PrefixInjective(ab.prefix, i, ba.prefix, j - n);
        }
      }
    }
  }

  /** Counters never wrap: completing a pending write always fits, and no verified frame exhausts the counter. */
  lemma CountersNeverWrap(run: seq<World>, k: nat, ab: DirectionKeys, ba: DirectionKeys, f: Packet, check: Check)
    requires Run(run, ab, ba) && k < |run| && ab != ba
    requires f.Valid() && Ideal(check, run[k].a.minted + run[k].b.minted)
    ensures var w := run[k];
            && Sent(w.a.guard).result != Err(Exhausted) && Sent(w.b.guard).result != Err(Exhausted)
            && Verify(w.a.guard, f, check).result != Err(Exhausted)
            && Verify(w.b.guard, f, check).result != Err(Exhausted)
  {
    hide Nonce;
    RunKeeps(run, k, ab, ba);
    var w := run[k];
    assert Ideal(check, w.b.minted + w.a.minted) by {
      assert forall m :: m in w.a.minted + w.b.minted <==> m in w.b.minted + w.a.minted;
    }
    ReceivingKeeps(w.b, w.a, ba, ab, Receiving(f, check));
    ReceivingKeeps(w.a, w.b, ab, ba, Receiving(f, check));
  }

  /** Tags that were computed verify. */
  ghost predicate Correct(check: Check, minted: seq<Minted>) {
    forall m :: m in minted ==> check(m.key, m.nonce, m.covered, m.tag).Ok?
  }

  lemma NextVerifies(p: Party, q: Party, pq: DirectionKeys, qp: DirectionKeys, check: Check)
    requires Invariant(p, q, pq, qp) && Correct(check, p.minted)
    requires q.guard.receive.Some? && |q.released| < |p.sealed|
    ensures var f := p.sealed[|q.released|]; Verify(q.guard, f, check).result == Ok(f)
    ensures Act(q, Receiving(p.sealed[|q.released|], check)).released == q.released + [p.sealed[|q.released|]]
  {
    hide Nonce;
    var n := |q.released|;
    assert p.minted[n] in p.minted;
  }

  /**
   Progress: in every run the next sealed frame, delivered unharmed to an end that still has its keys, is
   released.
   */
  lemma NextFrameIsReleased(run: seq<World>, k: nat, ab: DirectionKeys, ba: DirectionKeys, check: Check)
    requires Run(run, ab, ba) && k < |run| && ab != ba && Correct(check, run[k].a.minted + run[k].b.minted)
    ensures var w := run[k];
            w.b.guard.receive.Some? && |w.b.released| < |w.a.sealed| ==>
              var f := w.a.sealed[|w.b.released|]; Verify(w.b.guard, f, check).result == Ok(f)
    ensures var w := run[k];
            w.a.guard.receive.Some? && |w.a.released| < |w.b.sealed| ==>
              var f := w.b.sealed[|w.a.released|]; Verify(w.a.guard, f, check).result == Ok(f)
  {
    hide Verify, Act, Recorded, Carried;
    RunKeeps(run, k, ab, ba);
    var w := run[k];
    assert Correct(check, w.a.minted) && Correct(check, w.b.minted);
    if w.b.guard.receive.Some? && |w.b.released| < |w.a.sealed| {
      NextVerifies(w.a, w.b, ab, ba, check);
    }
    if w.a.guard.receive.Some? && |w.a.released| < |w.b.sealed| {
      NextVerifies(w.b, w.a, ba, ab, check);
    }
  }
}
