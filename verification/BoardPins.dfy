/** Weak references to shared revisions, and which of them are still alive. */
module BoardPins {
  /** A shared immutable revision is known by its number, as a reference-counted pointer is by its address. */
  type Revision = nat

  /** Distinct revisions behind a list of weak references. */
  ghost predicate Distinct(pins: seq<Revision>) {
    forall i, j :: 0 <= i < j < |pins| ==> pins[i] != pins[j]
  }

  ghost function Listed(pins: seq<Revision>): set<Revision> {
    set i | 0 <= i < |pins| :: pins[i]
  }

  lemma {:induction false} ListedSize(pins: seq<Revision>)
    requires Distinct(pins)
    ensures |Listed(pins)| == |pins|
  {
    if pins != [] {
      var n := |pins| - 1;
      ListedSize(pins[..n]);
      assert Listed(pins) == Listed(pins[..n]) + {pins[n]};
      assert pins[n] !in Listed(pins[..n]);
    }
  }

  lemma ListedPush(pins: seq<Revision>, r: Revision)
    ensures Listed(pins + [r]) == Listed(pins) + {r}
  {
    var all := pins + [r];
    forall x
      ensures x in Listed(all) <==> x in Listed(pins) + {r}
    {
      if x in Listed(pins) {
        var i :| 0 <= i < |pins| && pins[i] == x;
        assert all[i] == x;
      }
      if x == r {
        assert all[|pins|] == r;
      }
      if x in Listed(all) {
        var i :| 0 <= i < |all| && all[i] == x;
        assert i < |pins| ==> pins[i] == x;
      }
    }
  }

  lemma Fewer<T>(a: set<T>, b: set<T>)
    requires a <= b
    ensures |a| <= |b|
  {
    assert b == a + (b - a);
  }

  /** Forget weak references to revisions nobody holds. */
  method KeepLive(pins: seq<Revision>, live: set<Revision>) returns (kept: seq<Revision>)
    requires Distinct(pins)
    ensures Distinct(kept) && Listed(kept) == Listed(pins) * live && |kept| == |Listed(kept)|
  {
    kept := [];
    for i := 0 to |pins|
      invariant Distinct(kept) && Listed(kept) == Listed(pins[..i]) * live
    {
      KeptNext(pins, i, kept, live);
      if pins[i] in live {
        kept := kept + [pins[i]];
      }
    }
    assert pins[..|pins|] == pins;
    ListedSize(kept);
  }

  lemma KeptNext(pins: seq<Revision>, i: nat, kept: seq<Revision>, live: set<Revision>)
    requires Distinct(pins) && i < |pins| && Distinct(kept) && Listed(kept) == Listed(pins[..i]) * live
    ensures Listed(pins[..i + 1]) * live == if pins[i] in live then Listed(kept + [pins[i]]) else Listed(kept)
    ensures Distinct(kept + [pins[i]])
  {
    assert pins[..i + 1] == pins[..i] + [pins[i]];
    ListedPush(pins[..i], pins[i]);
    ListedPush(kept, pins[i]);
    assert pins[i] !in Listed(pins[..i]);
    assert pins[i] !in Listed(kept);
    DistinctPush(kept, pins[i]);
  }

  lemma DistinctPush(pins: seq<Revision>, r: Revision)
    requires Distinct(pins) && r !in Listed(pins)
    ensures Distinct(pins + [r])
  {
    var all := pins + [r];
    forall i, j | 0 <= i < j < |all|
      ensures all[i] != all[j]
    {
      assert all[i] == pins[i] && pins[i] in Listed(pins);
    }
  }

  /** Every live revision is pinned once, numbers are never used again, and there are no more alive than allowed. */
  ghost predicate Pinned(pins: seq<Revision>, live: set<Revision>, next: Revision, limit: nat) {
    && Distinct(pins) && live <= Listed(pins)
    && (forall r :: r in Listed(pins) ==> r < next)
    && |live| <= limit
  }

  lemma PinnedFewer(pins: seq<Revision>, live: set<Revision>, fewer: set<Revision>, next: Revision, limit: nat)
    requires Pinned(pins, live, next, limit) && fewer <= live
    ensures Pinned(pins, fewer, next, limit)
  {
    Fewer(fewer, live);
  }

  lemma PinnedPruned(pins: seq<Revision>, kept: seq<Revision>, live: set<Revision>, next: Revision, limit: nat)
    requires Pinned(pins, live, next, limit) && Distinct(kept) && Listed(kept) == Listed(pins) * live
    ensures Pinned(kept, live, next, limit) && Listed(kept) == live
  {
  }

  /** One more revision takes the place of those it lets go. */
  lemma PinnedNext(pins: seq<Revision>, live: set<Revision>, kept: set<Revision>, after: set<Revision>, next: Revision,
                   limit: nat)
    requires Pinned(pins, live, next, limit)
    requires kept <= live && |kept| < limit && after <= kept + {next}
    ensures Pinned(pins + [next], after, next + 1, limit)
  {
    ListedPush(pins, next);
    assert next !in Listed(pins);
    DistinctPush(pins, next);
    Fewer(after, kept + {next});
  }
}
