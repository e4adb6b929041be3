/** Shared finite budgets: leases counted once however often their ownership is handed on. */
module Leases {
  import opened Bytes

  type LeaseId = nat

  /** One reservation and how many guards currently keep it alive. */
  datatype Lease = Lease(amount: nat, holders: nat)

  datatype Pool = Pool(limit: nat, used: nat, leases: map<LeaseId, Lease>, next: LeaseId)

  ghost function Total(m: map<LeaseId, Lease>): nat
    decreases |m|
  {
    if m == map[] then 0
    else
      var k :| k in m;
      assert |m - {k}| < |m| by { Fewer(m, k); }
      m[k].amount + Total(m - {k})
  }

  lemma Fewer(m: map<LeaseId, Lease>, k: LeaseId)
    requires k in m
    ensures |m - {k}| == |m| - 1
  {
    assert |m| == |m.Keys| && |m - {k}| == |(m - {k}).Keys|;
    assert (m - {k}).Keys == m.Keys - {k};
  }

  lemma {:induction false} TotalWithout(m: map<LeaseId, Lease>, k: LeaseId)
    requires k in m
    ensures Total(m) == m[k].amount + Total(m - {k})
    decreases |m|
  {
    var j :| j in m && Total(m) == m[j].amount + Total(m - {j});
    if j != k {
      Fewer(m, j);
      Fewer(m, k);
      TotalWithout(m - {j}, k);
      TotalWithout(m - {k}, j);
      assert m - {j} - {k} == m - {k} - {j};
    }
  }

  lemma TotalWith(m: map<LeaseId, Lease>, k: LeaseId, lease: Lease)
    ensures Total(m[k := lease]) == (if k in m then Total(m) - m[k].amount else Total(m)) + lease.amount
  {
    var after := m[k := lease];
    TotalWithout(after, k);
    if k in m {
      TotalWithout(m, k);
      assert after - {k} == m - {k};
    } else {
      assert after - {k} == m;
    }
  }

  ghost predicate Balanced(p: Pool) {
    && p.used == Total(p.leases) <= p.limit
    && (forall k :: k in p.leases ==> k < p.next && p.leases[k].holders >= 1)
  }

  function NewPool(limit: nat): Pool {
    Pool(limit, 0, map[], 0)
  }

  function Reserve(p: Pool, amount: nat): (Pool, Option<LeaseId>) {
    if p.used + amount > p.limit then (p, None)
    else (p.(used := p.used + amount, leases := p.leases[p.next := Lease(amount, 1)], next := p.next + 1), Some(p.next))
  }

  /** Keep a reservation alive across a hand-over. */
  function Retain(p: Pool, k: LeaseId): Pool
    requires k in p.leases
  {
    p.(leases := p.leases[k := p.leases[k].(holders := p.leases[k].holders + 1)])
  }

  /** The last guard to go gives the capacity back. */
  function Drop(p: Pool, k: LeaseId): Pool
    requires k in p.leases && Balanced(p)
  {
    TotalWithout(p.leases, k);
    var lease := p.leases[k];
    if lease.holders > 1 then p.(leases := p.leases[k := lease.(holders := lease.holders - 1)])
    else p.(used := p.used - lease.amount, leases := p.leases - {k})
  }

  lemma ReserveBalances(p: Pool, amount: nat)
    requires Balanced(p)
    ensures Balanced(Reserve(p, amount).0)
  {
    TotalWith(p.leases, p.next, Lease(amount, 1));
  }

  lemma RetainBalances(p: Pool, k: LeaseId)
    requires Balanced(p) && k in p.leases
    ensures Balanced(Retain(p, k)) && Retain(p, k).used == p.used
  {
    TotalWith(p.leases, k, p.leases[k].(holders := p.leases[k].holders + 1));
  }

  lemma DropBalances(p: Pool, k: LeaseId)
    requires Balanced(p) && k in p.leases
    ensures Balanced(Drop(p, k))
  {
    TotalWithout(p.leases, k);
    if p.leases[k].holders > 1 {
      TotalWith(p.leases, k, p.leases[k].(holders := p.leases[k].holders - 1));
    }
  }

  /** The shared counter as all owners see it, changed in place. */
  class Counter {
    const limit: nat
    var used: nat
    var leases: map<LeaseId, Lease>
    var next: LeaseId

    ghost function View(): Pool
      reads this
    {
      Pool(limit, used, leases, next)
    }

    constructor (limit: nat)
      ensures View() == NewPool(limit) && Balanced(View())
    {
      this.limit := limit;
      used, leases, next := 0, map[], 0;
      new;
      assert Total(map[]) == 0;
    }

    method Admit(amount: nat) returns (r: Option<LeaseId>)
      requires Balanced(View())
      modifies this
      ensures Balanced(View()) && View() == Reserve(old(View()), amount).0 && r == Reserve(old(View()), amount).1
      ensures r.Some? <==> old(used) + amount <= limit
      ensures used == old(used) + if r.Some? then amount else 0
      ensures r.Some? ==> r.value !in old(leases) && leases == old(leases)[r.value := Lease(amount, 1)]
    {
      ReserveBalances(View(), amount);
      if used + amount > limit {
        return None;
      }
      used := used + amount;
      leases := leases[next := Lease(amount, 1)];
      next := next + 1;
      return Some(next - 1);
    }

    method Share(k: LeaseId)
      requires Balanced(View()) && k in leases
      modifies this
      ensures Balanced(View()) && View() == Retain(old(View()), k)
      ensures used == old(used) && k in leases && leases[k].holders == old(leases)[k].holders + 1
    {
      RetainBalances(View(), k);
      leases := leases[k := leases[k].(holders := leases[k].holders + 1)];
    }

    method LetGo(k: LeaseId)
      requires Balanced(View()) && k in leases
      modifies this
      ensures Balanced(View()) && View() == Drop(old(View()), k)
      ensures used == old(used) - if old(leases)[k].holders == 1 then old(leases)[k].amount else 0
      ensures k in leases <==> old(leases)[k].holders > 1
    {
      DropBalances(View(), k);
      var lease := leases[k];
      if lease.holders > 1 {
        leases := leases[k := lease.(holders := lease.holders - 1)];
      } else {
        TotalWithout(leases, k);
        used := used - lease.amount;
        leases := leases - {k};
      }
    }
  }

  // ---------------------------------------------------------------- owners

  /** Where one connection keeps guards: queued frames, the frame popped for sealing, the sealed copy, the writer. */
  datatype Owner = Owner(queue: seq<LeaseId>, popped: Option<LeaseId>, sealed: Option<LeaseId>,
                         writing: Option<LeaseId>)

  const EMPTY_OWNER := Owner([], None, None, None)

  datatype World = World(pool: Pool, owners: seq<Owner>)

  function Times(o: Option<LeaseId>, k: LeaseId): nat {
    if o == Some(k) then 1 else 0
  }

  ghost function Guards(o: Owner, k: LeaseId): nat {
    multiset(o.queue)[k] + Times(o.popped, k) + Times(o.sealed, k) + Times(o.writing, k)
  }

  ghost function AllGuards(owners: seq<Owner>, k: LeaseId): nat {
    if owners == [] then 0 else Guards(owners[0], k) + AllGuards(owners[1..], k)
  }

  datatype Move =
    | Queueing(amount: nat)     // admit and queue a frame
    | Popping(index: nat)       // take a frame off the queue
    | Sealing                   // the sealed copy keeps the reservation
    | Sealed                    // the unsealed frame is gone
    | Starting                  // the writer keeps the reservation
    | Started                   // the sealed frame is gone
    | Written                   // the last byte is out
    | SealFails                 // the popped frame is lost with its failed seal
    | StartFails                // the sealed frame is lost because the writer did not take it
    | Discarding(index: nat)    // a queued frame is dropped

  ghost predicate Can(o: Owner, m: Move) {
    match m
    case Queueing(_) => true
    case Popping(i) => i < |o.queue| && o.popped.None? && o.sealed.None? && o.writing.None?
    case Sealing => o.popped.Some? && o.sealed.None?
    case Sealed => o.popped.Some? && o.sealed == o.popped
    case Starting => o.popped.None? && o.sealed.Some? && o.writing.None?
    case Started => o.sealed.Some? && o.writing == o.sealed
    case Written => o.sealed.None? && o.writing.Some?
    case SealFails => o.popped.Some? && o.sealed.None?
    case StartFails => o.popped.None? && o.sealed.Some? && o.writing.None?
    case Discarding(i) => i < |o.queue|
  }

  function Cut(q: seq<LeaseId>, i: nat): seq<LeaseId>
    requires i < |q|
  {
    q[..i] + q[i + 1..]
  }

  ghost function OwnerAfter(p: Pool, o: Owner, m: Move): Owner
    requires Can(o, m)
  {
    match m
    case Queueing(amount) =>
      var (_, lease) := Reserve(p, amount);
      if lease.Some? then o.(queue := o.queue + [lease.value]) else o
    case Popping(i) => o.(queue := Cut(o.queue, i), popped := Some(o.queue[i]))
    case Sealing => o.(sealed := o.popped)
    case Sealed => o.(popped := None)
    case Starting => o.(writing := o.sealed)
    case Started => o.(sealed := None)
    case Written => o.(writing := None)
    case SealFails => o.(popped := None)
    case StartFails => o.(sealed := None)
    case Discarding(i) => o.(queue := Cut(o.queue, i))
  }

  /** The lease whose guard a move drops, if any. */
  ghost function Dropped(o: Owner, m: Move): Option<LeaseId>
    requires Can(o, m)
  {
    match m
    case Sealed | SealFails => o.popped
    case Started | StartFails => o.sealed
    case Written => o.writing
    case Discarding(i) => Some(o.queue[i])
    case _ => None
  }

  ghost function Kept(o: Owner, m: Move): Option<LeaseId>
    requires Can(o, m)
  {
    match m
    case Sealing => o.popped
    case Starting => o.sealed
    case _ => None
  }

  ghost function HoldersOf(p: Pool, k: LeaseId): nat {
    if k in p.leases then p.leases[k].holders else 0
  }

  /** Every guard is somewhere, and every lease is as shared as it has guards. */
  ghost predicate Conserved(w: World) {
    && Balanced(w.pool)
    && forall k: LeaseId :: AllGuards(w.owners, k) == HoldersOf(w.pool, k)
  }

  ghost function PoolAfter(p: Pool, o: Owner, m: Move): Pool
    requires Can(o, m) && Balanced(p)
    requires Kept(o, m).Some? ==> Kept(o, m).value in p.leases
    requires Dropped(o, m).Some? ==> Dropped(o, m).value in p.leases
  {
    if m.Queueing? then Reserve(p, m.amount).0
    else if Kept(o, m).Some? then Retain(p, Kept(o, m).value)
    else if Dropped(o, m).Some? then Drop(p, Dropped(o, m).value)
    else p
  }

  lemma {:induction false} GuardsAt(owners: seq<Owner>, i: nat, o: Owner, k: LeaseId)
    requires i < |owners|
    ensures AllGuards(owners[i := o], k) + Guards(owners[i], k) == AllGuards(owners, k) + Guards(o, k)
    ensures Guards(owners[i], k) <= AllGuards(owners, k)
  {
    if i == 0 {
      assert owners[0 := o][1..] == owners[1..];
    } else {
      GuardsAt(owners[1..], i - 1, o, k);
      assert owners[i := o][1..] == owners[1..][i - 1 := o];
    }
  }

  lemma CutOut(q: seq<LeaseId>, i: nat, k: LeaseId)
    requires i < |q|
    ensures multiset(Cut(q, i))[k] + (if q[i] == k then 1 else 0) == multiset(q)[k]
  {
    assert q == q[..i] + [q[i]] + q[i + 1..];
  }

  /** A guard an owner holds belongs to a live lease. */
  lemma HeldIsLive(w: World, i: nat, k: LeaseId)
    requires Conserved(w) && i < |w.owners| && Guards(w.owners[i], k) >= 1
    ensures k in w.pool.leases
  {
    GuardsAt(w.owners, i, w.owners[i], k);
  }

  /** What a move does to the guards of its owner. */
  lemma GuardsAfter(p: Pool, o: Owner, m: Move, k: LeaseId)
    requires Can(o, m)
    ensures Guards(OwnerAfter(p, o, m), k) + Times(Dropped(o, m), k)
            == Guards(o, k) + Times(Kept(o, m), k) + (if m.Queueing? then Times(Reserve(p, m.amount).1, k) else 0)
  {
    match m {
      case Popping(i) => CutOut(o.queue, i, k);
      case Discarding(i) => CutOut(o.queue, i, k);
      case _ =>
    }
  }

  ghost predicate Moves(w: World, v: World, i: nat, m: Move) {
    && i < |w.owners| && Can(w.owners[i], m) && Balanced(w.pool)
    && (Kept(w.owners[i], m).Some? ==> Kept(w.owners[i], m).value in w.pool.leases)
    && (Dropped(w.owners[i], m).Some? ==> Dropped(w.owners[i], m).value in w.pool.leases)
    && v == World(PoolAfter(w.pool, w.owners[i], m), w.owners[i := OwnerAfter(w.pool, w.owners[i], m)])
  }

  /** Moves never find the lease they touch gone. */
  lemma MovesArePossible(w: World, i: nat, m: Move)
    requires Conserved(w) && i < |w.owners| && Can(w.owners[i], m)
    ensures Kept(w.owners[i], m).Some? ==> Kept(w.owners[i], m).value in w.pool.leases
    ensures Dropped(w.owners[i], m).Some? ==> Dropped(w.owners[i], m).value in w.pool.leases
  {
    var o := w.owners[i];
    if Kept(o, m).Some? {
      HeldIsLive(w, i, Kept(o, m).value);
    }
    if Dropped(o, m).Some? {
      HeldIsLive(w, i, Dropped(o, m).value);
    }
  }

  lemma PoolBalances(p: Pool, o: Owner, m: Move)
    requires Can(o, m) && Balanced(p)
    requires Kept(o, m).Some? ==> Kept(o, m).value in p.leases
    requires Dropped(o, m).Some? ==> Dropped(o, m).value in p.leases
    ensures Balanced(PoolAfter(p, o, m))
  {
    if m.Queueing? {
      ReserveBalances(p, m.amount);
    } else if Kept(o, m).Some? {
      RetainBalances(p, Kept(o, m).value);
    } else if Dropped(o, m).Some? {
      DropBalances(p, Dropped(o, m).value);
    }
  }

  /** What a move does to the share count of any lease. */
  lemma HoldersAfter(p: Pool, o: Owner, m: Move, k: LeaseId)
    requires Can(o, m) && Balanced(p)
    requires Kept(o, m).Some? ==> Kept(o, m).value in p.leases
    requires Dropped(o, m).Some? ==> Dropped(o, m).value in p.leases
    ensures HoldersOf(PoolAfter(p, o, m), k) + Times(Dropped(o, m), k)
            == HoldersOf(p, k) + Times(Kept(o, m), k) + (if m.Queueing? then Times(Reserve(p, m.amount).1, k) else 0)
  {
    hide Total;
  }

  lemma MoveConserves(w: World, v: World, i: nat, m: Move)
    requires Conserved(w) && Moves(w, v, i, m)
    ensures Conserved(v)
  {
    hide Balanced, Guards, OwnerAfter, PoolAfter, Kept, Dropped, HoldersOf, Can;
    var o := w.owners[i];
    PoolBalances(w.pool, o, m);
    forall k: LeaseId
      ensures AllGuards(v.owners, k) == HoldersOf(v.pool, k)
    {
      GuardsAt(w.owners, i, OwnerAfter(w.pool, o, m), k);
      GuardsAfter(w.pool, o, m, k);
      HoldersAfter(w.pool, o, m, k);
    }
  }

  /** `q` is `p` with some guards dropped and nothing else changed. */
  ghost predicate Within(q: Pool, p: Pool) {
    && Balanced(q) && q.limit == p.limit && q.next == p.next
    && (forall k :: k in q.leases ==> k in p.leases && q.leases[k].amount == p.leases[k].amount)
  }

  /** A pool after all guards of one owner are gone and nothing else has changed. */
  ghost predicate Relinquished(p: Pool, q: Pool, o: Owner) {
    Within(q, p) && forall k: LeaseId :: HoldersOf(q, k) + Guards(o, k) == HoldersOf(p, k)
  }

  ghost predicate Releases(w: World, v: World, i: nat) {
    i < |w.owners| && Relinquished(w.pool, v.pool, w.owners[i]) && v.owners == w.owners[i := EMPTY_OWNER]
  }

  /** A connection that goes away takes exactly its own guards with it. */
  lemma ReleaseConserves(w: World, v: World, i: nat)
    requires Conserved(w) && Releases(w, v, i)
    ensures Conserved(v)
  {
    hide Balanced, HoldersOf;
    forall k: LeaseId
      ensures AllGuards(v.owners, k) == HoldersOf(v.pool, k)
    {
      GuardsAt(w.owners, i, EMPTY_OWNER, k);
    }
  }

  ghost predicate Next(w: World, v: World) {
    (exists i: nat, m: Move :: Moves(w, v, i, m)) || exists i: nat :: Releases(w, v, i)
  }

  ghost predicate Run(run: seq<World>) {
    && run != [] && run[0].pool == NewPool(run[0].pool.limit)
    && (forall i :: 0 <= i < |run[0].owners| ==> run[0].owners[i] == EMPTY_OWNER)
    && (forall k :: 0 < k < |run| ==> Next(run[k - 1], run[k]))
  }

  lemma {:induction false} NobodyGuards(owners: seq<Owner>, k: LeaseId)
    requires forall i :: 0 <= i < |owners| ==> owners[i] == EMPTY_OWNER
    ensures AllGuards(owners, k) == 0
  {
    if owners != [] {
      NobodyGuards(owners[1..], k);
    }
  }

  lemma {:induction false} RunConserves(run: seq<World>, k: nat)
    requires Run(run) && k < |run|
    ensures Conserved(run[k]) && run[k].pool.limit == run[0].pool.limit
  {
    hide Moves;
    if k == 0 {
      assert Total(map[]) == 0;
      forall id: LeaseId
        ensures AllGuards(run[0].owners, id) == 0
      {
        NobodyGuards(run[0].owners, id);
      }
    } else {
      RunConserves(run, k - 1);
      var w, v := run[k - 1], run[k];
      assert Next(w, v);
      if exists i: nat, m: Move :: Moves(w, v, i, m) {
        var i: nat, m: Move :| Moves(w, v, i, m);
        MoveConserves(w, v, i, m);
        LimitStays(w, v, i, m);
      } else {
        var i: nat :| Releases(w, v, i);
        ReleaseConserves(w, v, i);
      }
    }
  }

  lemma LimitStays(w: World, v: World, i: nat, m: Move)
    requires Moves(w, v, i, m)
    ensures v.pool.limit == w.pool.limit
  {
  }

  /**
   Lease conservation: at every point of every run the counter is the sum of the live leases and
   within its limit, and a lease is live exactly while some owner keeps a guard of it, counted once
   however many guards there are.
   */
  lemma LeasesAreConserved(run: seq<World>, k: nat, id: LeaseId)
    requires Run(run) && k < |run|
    ensures var w := run[k];
            && w.pool.used == Total(w.pool.leases) <= run[0].pool.limit
            && (id in w.pool.leases <==> AllGuards(w.owners, id) > 0)
  {
    RunConserves(run, k);
  }

  /** When no owner keeps anything, nothing is charged. */
  lemma NothingHeldNothingCharged(run: seq<World>, k: nat)
    requires Run(run) && k < |run|
    requires forall i :: 0 <= i < |run[k].owners| ==> run[k].owners[i] == EMPTY_OWNER
    ensures run[k].pool.used == 0
  {
    RunConserves(run, k);
    var leases := run[k].pool.leases;
    forall id: LeaseId
      ensures id !in leases
    {
      NobodyGuards(run[k].owners, id);
    }
    assert leases == map[];
  }

  lemma DropOne(p: Pool, k: LeaseId, j: LeaseId)
    requires Balanced(p) && k in p.leases
    ensures HoldersOf(Drop(p, k), j) == HoldersOf(p, j) - if j == k then 1 else 0
    ensures Within(Drop(p, k), p)
  {
    DropBalances(p, k);
  }

  method LetGoOf(counter: Counter, held: Option<LeaseId>)
    requires Balanced(counter.View()) && (held.Some? ==> held.value in counter.leases)
    modifies counter
    ensures Within(counter.View(), old(counter.View()))
    ensures forall k: LeaseId :: HoldersOf(counter.View(), k) == old(HoldersOf(counter.View(), k)) - Times(held, k)
  {
    hide Balanced;
    if held.Some? {
      forall k: LeaseId
        ensures HoldersOf(Drop(counter.View(), held.value), k) == HoldersOf(counter.View(), k) - Times(held, k)
        ensures Within(Drop(counter.View(), held.value), counter.View())
      {
        DropOne(counter.View(), held.value, k);
      }
      counter.LetGo(held.value);
    }
  }

  /** Releasing a connection: its queue is drained to the end, its writer and any frame in hand let go. */
  method ReleaseAll(counter: Counter, owners: seq<Owner>, i: nat) returns (left: seq<Owner>)
    requires i < |owners| && Conserved(World(counter.View(), owners))
    modifies counter
    ensures left == owners[i := EMPTY_OWNER] && Conserved(World(counter.View(), left))
    ensures Relinquished(old(counter.View()), counter.View(), owners[i])
  {
    hide Balanced;
    ghost var before := World(counter.View(), owners);
    forall k: LeaseId
      ensures Guards(owners[i], k) <= HoldersOf(counter.View(), k)
    {
      GuardsAt(owners, i, owners[i], k);
    }
    DropGuards(counter, owners[i]);
    left := owners[i := EMPTY_OWNER];
    ReleaseConserves(before, World(counter.View(), left), i);
  }

  method DropGuards(counter: Counter, o: Owner)
    requires Balanced(counter.View())
    requires forall k: LeaseId :: Guards(o, k) <= HoldersOf(counter.View(), k)
    modifies counter
    ensures Relinquished(old(counter.View()), counter.View(), o)
  {
    hide Balanced;
    ghost var start := counter.View();
    var queue: seq<LeaseId> := o.queue;
    while queue != []
      invariant Within(counter.View(), start)
      invariant forall k: LeaseId ::
                  HoldersOf(counter.View(), k) + multiset(o.queue)[k] == HoldersOf(start, k) + multiset(queue)[k]
      decreases |queue|
    {
      var head: LeaseId := queue[0];
      assert queue == [head] + queue[1..];
      Guarded(o, start, counter.View(), head);
      LetGoOf(counter, Some(head));
      queue := queue[1..];
    }
    if o.popped.Some? {
      Guarded(o, start, counter.View(), o.popped.value);
    }
    LetGoOf(counter, o.popped);
    if o.sealed.Some? {
      Guarded(o, start, counter.View(), o.sealed.value);
    }
    LetGoOf(counter, o.sealed);
    if o.writing.Some? {
      Guarded(o, start, counter.View(), o.writing.value);
    }
    LetGoOf(counter, o.writing);
  }

  /** A guard still to be dropped is still counted. */
  lemma Guarded(o: Owner, start: Pool, now: Pool, k: LeaseId)
    requires Guards(o, k) <= HoldersOf(start, k)
    requires HoldersOf(now, k) + Guards(o, k) > HoldersOf(start, k)
    ensures k in now.leases
  {
  }
}
