/** Receipts of remote Boards: bounded, attributed, expiring, and never mixed between revisions. */
module BoardCache {
  import opened Bytes
  import opened BoardRecords
  import opened BoardPins

  datatype Provenance = Direct(peer: Publisher) | Forwarded(peer: Publisher)

  /** Direct and forwarded receipts never share an entry. */
  datatype Key = Key(peer: Publisher, direct: bool)

  function KeyOf(p: Provenance): Key {
    Key(p.peer, p.Direct?)
  }

  /** Which cache made a receipt, and which of its revisions: together, the identity of a shared pointer. */
  datatype Remote = Remote(
    origin: nat,
    board: seq<byte>,
    provenance: Provenance,
    received: u64,
    expires: u64,
    revision: Revision,
    definitions: map<OfferingId, seq<byte>>)

  predicate Fresh(r: Remote, now: u64) {
    r.received <= now < r.expires
  }

  /** The receipt is the very one filed under its provenance, and still fresh. */
  ghost predicate Filed(entries: map<Key, Remote>, r: Remote, now: u64) {
    KeyOf(r.provenance) in entries && entries[KeyOf(r.provenance)] == r && Fresh(r, now)
  }

  function Unexpired(entries: map<Key, Remote>, now: u64): map<Key, Remote> {
    map k | k in entries && entries[k].expires > now :: entries[k]
  }

  /** Revisions of the entries, and of the receipts in consumers' hands. */
  ghost function Revisions(entries: map<Key, Remote>): set<Revision> {
    set k | k in entries :: entries[k].revision
  }

  ghost function Alive(entries: map<Key, Remote>, handles: multiset<Revision>): set<Revision> {
    Revisions(entries) + set r | r in handles
  }

  /** The revision an insertion under this key would let go. */
  ghost function LetGo(entries: map<Key, Remote>, handles: multiset<Revision>, k: Key): set<Revision> {
    if k in entries && entries[k].revision !in handles then {entries[k].revision} else {}
  }

  /** Entries are filed under their own provenance, each with a revision and a lifetime of its own. */
  ghost predicate WellFiled(entries: map<Key, Remote>, limits: Limits) {
    && (forall k :: k in entries ==> KeyOf(entries[k].provenance) == k
                                     && entries[k].expires == entries[k].received + limits.cacheSeconds)
    && (forall j, k :: j in entries && k in entries && entries[j].revision == entries[k].revision ==> j == k)
    && |entries| <= limits.cacheEntries
  }

  lemma FilesSubset(before: map<Key, Remote>, after: map<Key, Remote>, limits: Limits)
    requires WellFiled(before, limits) && after.Keys <= before.Keys && forall k :: k in after ==> after[k] == before[k]
    ensures WellFiled(after, limits) && Revisions(after) <= Revisions(before)
  {
    Fewer(after.Keys, before.Keys);
    assert |after| == |after.Keys| && |before| == |before.Keys|;
    forall x | x in Revisions(after)
      ensures x in Revisions(before)
    {
      var k :| k in after && after[k].revision == x;
      assert before[k].revision == x;
    }
  }

  lemma FilesOneMore(before: map<Key, Remote>, k: Key, r: Remote, limits: Limits)
    requires WellFiled(before, limits) && (k in before || |before| < limits.cacheEntries)
    requires KeyOf(r.provenance) == k && r.expires == r.received + limits.cacheSeconds
             && r.revision !in Revisions(before)
    ensures WellFiled(before[k := r], limits)
  {
    var after := before[k := r];
    OneMoreEntry(before, k, r);
    forall i, j | i in after && j in after && after[i].revision == after[j].revision
      ensures i == j
    {
      assert i != k ==> before[i].revision in Revisions(before);
      assert j != k ==> before[j].revision in Revisions(before);
    }
  }

  lemma OneMoreEntry(before: map<Key, Remote>, k: Key, r: Remote)
    ensures |before[k := r]| == if k in before then |before| else |before| + 1
  {
    var after := before[k := r];
    assert after.Keys == before.Keys + {k};
    assert |after| == |after.Keys| && |before| == |before.Keys|;
  }

  lemma FiledLifetime(entries: map<Key, Remote>, limits: Limits, k: Key)
    requires WellFiled(entries, limits) && k in entries
    ensures entries[k].expires == entries[k].received + limits.cacheSeconds
  {
  }

  /** Receipts ever made, by revision; entries are among them. */
  ghost predicate Issues(issued: map<Revision, Remote>, entries: map<Key, Remote>, origin: nat, next: Revision) {
    && (forall r :: r in issued ==> r < next && issued[r].revision == r && issued[r].origin == origin)
    && (forall k :: k in entries ==> entries[k].revision in issued && issued[entries[k].revision] == entries[k])
  }

  lemma IssuesOneMore(issued: map<Revision, Remote>, entries: map<Key, Remote>, origin: nat, next: Revision, k: Key,
                      r: Remote)
    requires Issues(issued, entries, origin, next) && r.revision == next && r.origin == origin
    ensures Issues(issued[next := r], entries[k := r], origin, next + 1)
  {
  }

  class Cache {
    const limits: Limits
    const origin: nat
    var entries: map<Key, Remote>
    var pins: seq<Revision>
    var handles: multiset<Revision>
    var next: Revision
    ghost var issued: map<Revision, Remote>

    /** Receipts are opaque to their holders: one that claims to be from this cache was made by it. */
    ghost predicate Genuine(r: Remote)
      reads `issued
    {
      r.origin == origin ==> r.revision in issued && issued[r.revision] == r
    }

    ghost function Live(): set<Revision>
      reads `entries, `handles
    {
      Alive(entries, handles)
    }

    ghost predicate Bounded()
      reads `entries, `pins, `handles, `next
    {
      Pinned(pins, Live(), next, limits.snapshots)
    }

    ghost predicate Valid()
      reads this
    {
      ValidLimits(limits) && WellFiled(entries, limits) && Bounded() && Issues(issued, entries, origin, next)
    }

    constructor (limits: Limits, origin: nat)
      requires ValidLimits(limits)
      ensures Valid() && entries == map[] && handles == multiset{} && this.limits == limits && this.origin == origin
    {
      this.limits, this.origin, issued := limits, origin, map[];
      entries, pins, handles, next := map[], [], multiset{}, 0;
    }

    method CloneHandle(r: Revision)
      requires Valid() && r in handles
      modifies `handles
      ensures Valid() && handles == old(handles) + multiset{r}
    {
      hide Pinned, Revisions;
      ghost var live := Live();
      handles := handles + multiset{r};
      assert Live() == live;
    }

    method DropHandle(r: Revision)
      requires Valid() && r in handles
      modifies `handles
      ensures Valid() && handles == old(handles) - multiset{r}
    {
      hide Pinned, Revisions;
      ghost var live := Live();
      handles := handles - multiset{r};
      PinnedFewer(pins, live, Live(), next, limits.snapshots);
    }

    /** Expired receipts leave the cache; pinned ones live on with their consumers. */
    method Expire(now: u64)
      requires Valid()
      modifies `entries
      ensures Valid() && entries == Unexpired(old(entries), now)
    {
      hide Pinned, WellFiled, Revisions;
      ghost var live := Live();
      ghost var before := entries;
      entries := Unexpired(entries, now);
      FilesSubset(before, entries, limits);
      PinnedFewer(pins, live, Live(), next, limits.snapshots);
    }

    ghost function Freed(k: Key): set<Revision>
      reads `entries, `handles
    {
      LetGo(entries, handles, k)
    }

    /** Dead weak references go; what remains are exactly the live revisions. */
    method Prune()
      requires Valid()
      modifies `pins
      ensures Valid() && Listed(pins) == Live() && |pins| == |Live()|
    {
      hide Listed, Distinct, Revisions;
      ghost var live := Live();
      var alive: set<Revision> := (set k | k in entries :: entries[k].revision) + set r | r in handles;
      assert alive == live by { AliveIsLive(); }
      ghost var before := pins;
      pins := KeepLive(pins, alive);
      PinnedPruned(before, pins, live, next, limits.snapshots);
    }

    lemma AliveIsLive()
      ensures Live() == (set k | k in entries :: entries[k].revision) + set r | r in handles
    {
    }

    /** File a receipt under a fresh revision. */
    method Insert(k: Key, receipt: Remote) returns (r: Remote)
      requires Valid() && Listed(pins) == Live() && KeyOf(receipt.provenance) == k && receipt.origin == origin
      requires receipt.expires == receipt.received + limits.cacheSeconds
      requires k in entries || |entries| < limits.cacheEntries
      requires |Live() - Freed(k)| < limits.snapshots
      modifies this
      ensures Valid() && r == receipt.(revision := old(next))
      ensures entries == old(entries)[k := r] && handles == old(handles) + multiset{r.revision}
      ensures issued == old(issued)[r.revision := r]
    {
      hide Pinned, WellFiled, Alive, LetGo, Listed, Issues;
      ghost var live, kept := Live(), Live() - Freed(k);
      r := receipt.(revision := next);
      NextIsNew(next, pins, live, limits.snapshots, entries, handles);
      FilesOneMore(entries, k, r, limits);
      IssuesOneMore(issued, entries, origin, next, k, r);
      InsertedLive(entries, k, r, handles, handles + multiset{next}, limits);
      PinnedNext(pins, live, kept, Alive(entries[k := r], handles + multiset{next}), next, limits.snapshots);
      pins := pins + [next];
      entries := entries[k := r];
      handles := handles + multiset{next};
      issued := issued[next := r];
      next := next + 1;
    }

    /** Whether one more receipt under this key fits beside these entries and what consumers hold. */
    ghost predicate RoomFor(k: Key, left: map<Key, Remote>)
      reads `handles
    {
      && (k in left || |left| < limits.cacheEntries)
      && |Alive(left, handles) - LetGo(left, handles, k)| < limits.snapshots
    }

    /** Install a receipt, replacing the one under the same provenance. */
    method Store(provenance: Provenance, bytes: seq<byte>, parsed: Result<(), BoardError>,
                 denied: seq<Option<BoardError>>, now: u64)
      returns (r: Result<Remote, BoardError>)
      requires Valid() && |denied| == 2
      modifies this
      ensures Valid()
      ensures r.Ok? <==>
                && denied[0].None? && denied[1].None? && parsed.Ok? && now + limits.cacheSeconds <= MAX_U64
                && old(RoomFor(KeyOf(provenance), Unexpired(entries, now)))
      ensures match r
              case Ok(receipt) =>
                && receipt == Remote(origin, bytes, provenance, now, now + limits.cacheSeconds, old(next), map[])
                && entries == Unexpired(old(entries), now)[KeyOf(provenance) := receipt]
                && handles == old(handles) + multiset{receipt.revision}
                && issued == old(issued)[receipt.revision := receipt]
              case Err(_) =>
                && handles == old(handles) && issued == old(issued)
                && (entries == old(entries) || entries == Unexpired(old(entries), now))
    {
      hide Distinct, WellFiled, Revisions, Listed;
      var k := KeyOf(provenance);
      if denied[0].Some? {
        return Err(denied[0].value);
      }
      if parsed.Err? {
        return Err(parsed.error);
      }
      if now + limits.cacheSeconds > MAX_U64 {
        return Err(Limit);
      }
      if denied[1].Some? {
        return Err(denied[1].value);
      }
      Expire(now);
      Prune();
      var releases := k in entries && entries[k].revision !in handles;
      var n := if releases then |pins| - 1 else |pins|;
      FreedCount(k);
      if (k !in entries && |entries| >= limits.cacheEntries) || n >= limits.snapshots {
        return Err(Limit);
      }
      var receipt := Insert(k, Remote(origin, bytes, provenance, now, now + limits.cacheSeconds, next, map[]));
      return Ok(receipt);
    }

    lemma FreedCount(k: Key)
      requires Valid()
      ensures |Live() - Freed(k)| == |Live()| - if k in entries && entries[k].revision !in handles then 1 else 0
    {
      hide Distinct, Listed, WellFiled;
      if k in entries {
        assert entries[k].revision in Revisions(entries);
      }
    }

    /** A fresh receipt, or the exact reason there is none. */
    method Receipt(provenance: Provenance, denied: seq<Option<BoardError>>, now: u64)
      returns (r: Result<Remote, BoardError>)
      requires Valid() && |denied| == 2
      modifies `handles
      ensures Valid()
      ensures match r
              case Ok(receipt) =>
                && receipt.provenance == provenance && Fresh(receipt, now)
                && KeyOf(provenance) in entries && entries[KeyOf(provenance)] == receipt
                && handles == old(handles) + multiset{receipt.revision}
              case Err(e) =>
                && handles == old(handles)
                && (denied[0].None? && denied[1].None? ==>
                      e == if KeyOf(provenance) !in entries then Missing else Stale)
      ensures denied[0].None? && denied[1].None? ==>
                (r.Ok? <==> KeyOf(provenance) in entries && Fresh(entries[KeyOf(provenance)], now))
    {
      var k := KeyOf(provenance);
      if denied[0].Some? {
        return Err(denied[0].value);
      }
      if k !in entries {
        return Err(Missing);
      }
      var receipt := entries[k];
      if now < receipt.received || now >= receipt.expires {
        return Err(Stale);
      }
      if denied[1].Some? {
        return Err(denied[1].value);
      }
      HandOut(k);
      return Ok(receipt);
    }

    method HandOut(k: Key)
      requires Valid() && k in entries
      modifies `handles
      ensures Valid() && handles == old(handles) + multiset{entries[k].revision}
    {
      hide Pinned, WellFiled;
      ghost var live := Live();
      handles := handles + multiset{entries[k].revision};
      assert Live() == live;
    }

    /** Whether a receipt is the very one the cache holds, and still fresh; pointers are compared, not contents. */
    method Current(receipt: Remote, now: u64) returns (r: Result<(), BoardError>)
      requires Valid() && Genuine(receipt)
      ensures r.Ok? <==> Filed(entries, receipt, now)
      ensures r.Err? ==> r.error == if KeyOf(receipt.provenance) !in entries then Missing else Stale
    {
      hide Bounded, WellFiled;
      var k := KeyOf(receipt.provenance);
      if k !in entries {
        return Err(Missing);
      }
      if entries[k].revision != receipt.revision || entries[k].origin != receipt.origin
         || now < receipt.received || now >= receipt.expires {
        return Err(Stale);
      }
      return Ok(());
    }

    /** A definition joins the very receipt it was fetched for; the result is a new revision of it. */
    method Attach(receipt: Remote, id: OfferingId, bytes: seq<byte>, parsed: Result<(), BoardError>,
                  denied: seq<Option<BoardError>>, now: u64) returns (r: Result<Remote, BoardError>)
      requires Valid() && Genuine(receipt) && |denied| == 2
      modifies this
      ensures Valid()
      ensures r.Ok? <==>
                && denied[0].None? && denied[1].None? && parsed.Ok? && old(Filed(entries, receipt, now))
                && |receipt.board| + DefinitionBytes(receipt.definitions[id := bytes]) <= limits.publicationBytes
                && old(|Live()|) < limits.snapshots
      ensures match r
              case Ok(next) =>
                && next == receipt.(definitions := receipt.definitions[id := bytes], revision := old(this.next))
                && entries == old(entries)[KeyOf(receipt.provenance) := next]
                && handles == old(handles) + multiset{next.revision} && issued == old(issued)[next.revision := next]
              case Err(_) => entries == old(entries) && handles == old(handles) && issued == old(issued)
    {
      hide Distinct, WellFiled, Revisions, Listed, DefinitionBytes;
      var k := KeyOf(receipt.provenance);
      if denied[0].Some? {
        return Err(denied[0].value);
      }
      var known := Current(receipt, now);
      if known.Err? {
        return Err(known.error);
      }
      if parsed.Err? {
        return Err(parsed.error);
      }
      var total := TotalBytes(Record(receipt.provenance.peer, receipt.board, receipt.definitions[id := bytes]));
      if total > limits.publicationBytes {
        return Err(Limit);
      }
      Prune();
      if |pins| >= limits.snapshots {
        return Err(Limit);
      }
      if denied[1].Some? {
        return Err(denied[1].value);
      }
      FreedCount(k);
      assert receipt.expires == receipt.received + limits.cacheSeconds by { FiledLifetime(entries, limits, k); }
      var successor := Insert(k, receipt.(definitions := receipt.definitions[id := bytes]));
      return Ok(successor);
    }

    /** A definition of the receipt itself, never of a nearby revision. */
    method Definition(receipt: Remote, id: OfferingId, denied: seq<Option<BoardError>>, now: u64)
      returns (r: Result<seq<byte>, BoardError>)
      requires Valid() && Genuine(receipt) && |denied| == 2
      ensures r.Ok? <==>
                denied[0].None? && denied[1].None? && Filed(entries, receipt, now) && id in receipt.definitions
      ensures r.Ok? ==> r.value == entries[KeyOf(receipt.provenance)].definitions[id]
    {
      if denied[0].Some? {
        return Err(denied[0].value);
      }
      var known := Current(receipt, now);
      if known.Err? {
        return Err(known.error);
      }
      if id !in receipt.definitions {
        return Err(Missing);
      }
      if denied[1].Some? {
        return Err(denied[1].value);
      }
      return Ok(receipt.definitions[id]);
    }
  }

  lemma NextIsNew(next: Revision, pins: seq<Revision>, live: set<Revision>, limit: nat,
                  entries: map<Key, Remote>, handles: multiset<Revision>)
    requires Pinned(pins, live, next, limit) && live == Alive(entries, handles)
    ensures next !in Revisions(entries)
  {
  }

  /** What an insertion leaves alive. */
  lemma InsertedLive(before: map<Key, Remote>, k: Key, r: Remote, held: multiset<Revision>, after: multiset<Revision>,
                     limits: Limits)
    requires WellFiled(before, limits)
    requires after == held + multiset{r.revision}
    ensures Alive(before[k := r], after) <= Alive(before, held) - LetGo(before, held, k) + {r.revision}
  {
    var entries := before[k := r];
    forall x | x in Revisions(entries) && x != r.revision
      ensures x in Revisions(before) && (k in before && before[k].revision == x ==> x in held)
    {
      var j :| j in entries && entries[j].revision == x;
      assert j != k && before[j].revision == x;
    }
  }
}
