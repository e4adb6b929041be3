/** The live owner of one publication over a storage port whose commit may be uncertain. */
module BoardProvider {
  import opened Bytes
  import opened BoardRecords
  import opened BoardPins

  datatype Snapshot = Snapshot(revision: Revision, record: Record)

  /** What the port may answer: done, surely not done, or nobody knows. */
  datatype Commit = Done | FailedBefore(error: BoardError) | Unclear(took: bool)

  datatype Load = Loaded | LoadFails(error: BoardError)

  class Provider {
    const limits: Limits
    const publisher: Publisher
    var stored: Option<Record>          // what the port holds
    var uncertain: bool
    var current: Option<Snapshot>
    var pins: seq<Revision>             // weak references, dead ones included
    var handles: multiset<Revision>     // references in consumers' hands
    var next: Revision

    /** Revisions somebody still references. */
    function Live(): set<Revision>
      reads `handles, `current
    {
      (set r | r in handles) + if current.Some? then {current.value.revision} else {}
    }

    /** Unless the last write is unresolved, what is live is what is stored. */
    ghost predicate Agrees()
      reads `uncertain, `current, `stored
    {
      !uncertain ==> if current.Some? then stored == Some(current.value.record) else stored.None?
    }

    ghost predicate Bounded()
      reads `pins, `handles, `current, `next
    {
      Pinned(pins, Live(), next, limits.snapshots)
    }

    ghost predicate Valid()
      reads this
    {
      ValidLimits(limits) && Agrees() && Bounded()
    }

    /** An empty owner over an empty volatile port. */
    constructor (publisher: Publisher, limits: Limits)
      requires ValidLimits(limits)
      ensures Valid() && current.None? && stored.None? && !uncertain && handles == multiset{}
      ensures Listed(pins) == Live() && Room()
      ensures this.publisher == publisher && this.limits == limits
    {
      this.publisher, this.limits := publisher, limits;
      stored, uncertain, current, pins, handles, next := None, false, None, [], multiset{}, 0;
    }

    /** A consumer clones a snapshot; no call on the owner is needed for that. */
    method CloneHandle(r: Revision)
      requires Valid() && r in handles
      modifies `handles
      ensures Valid() && handles == old(handles) + multiset{r}
    {
      hide Pinned;
      ghost var live := Live();
      handles := handles + multiset{r};
      assert Live() == live;
    }

    method DropHandle(r: Revision)
      requires Valid() && r in handles
      modifies `handles
      ensures Valid() && handles == old(handles) - multiset{r}
    {
      hide Pinned;
      ghost var live := Live();
      handles := handles - multiset{r};
      PinnedFewer(pins, live, Live(), next, limits.snapshots);
    }

    method Prune()
      requires Valid()
      modifies `pins
      ensures Valid() && Listed(pins) == Live() && |pins| == |Live()|
    {
      hide Listed, Distinct;
      ghost var before := pins;
      pins := KeepLive(pins, Live());
      PinnedPruned(before, pins, Live(), next, limits.snapshots);
    }

    /** Whether replacing the current revision frees it, because only the owner holds it. */
    method ReleasesCurrent() returns (r: bool)
      ensures r <==> Freed() != {}
    {
      return current.Some? && current.value.revision !in handles;
    }

    /** Room for one more revision, counting the one it would replace. */
    method HasRoom() returns (r: bool)
      requires Valid()
      modifies `pins
      ensures Valid() && Listed(pins) == Live()
      ensures r <==> Room()
    {
      Prune();
      var releases := ReleasesCurrent();
      var n := if releases then |pins| - 1 else |pins|;
      assert releases ==> Freed() <= Live() && |Freed()| == 1;
      assert |Live() - Freed()| == n;
      return n < limits.snapshots;
    }

    /** The current revision, if replacing it lets it go. */
    ghost function Freed(): set<Revision>
      reads `handles, `current
    {
      if current.Some? && current.value.revision !in handles
      then {current.value.revision} else {}
    }

    /** Install a new revision in place of the current one. */
    method Install(record: Record) returns (s: Snapshot)
      requires ValidLimits(limits) && Bounded() && Listed(pins) == Live() && Room()
      modifies `pins, `current, `next
      ensures Bounded() && current == Some(s) && s.record == record
      ensures s.revision == old(next)
    {
      s := Snapshot(next, record);
      hide Pinned, Listed;
      ghost var live, kept := Live(), Live() - Freed();
      PinnedNext(pins, live, kept, (set r | r in handles) + {next}, next, limits.snapshots);
      pins := pins + [next];
      current := Some(s);
      next := next + 1;
    }

    /** Replacing the current revision leaves room for one more. */
    ghost predicate Room()
      reads `handles, `current
    {
      |Live() - Freed()| < limits.snapshots
    }

    /** Every condition on a publication before the port is asked to commit it. */
    ghost predicate Reaches(candidate: Prepared, denied: seq<Option<BoardError>>, judge: Judge, later: Judge)
      reads `handles, `current, `uncertain
    {
      && (forall i :: 0 <= i < |denied| ==> denied[i].None?)
      && candidate.publisher == publisher && candidate.bytes <= limits.publicationBytes
      && Publishable(FromPrepared(candidate), limits, judge)
      && !uncertain && Room()
      && later.assessment(candidate.board, candidate.definitions).None?
    }

    /**
     Replace the whole publication. Capabilities may change between preparation and the check before
     the commit, so there are two judges.
     */
    method Publish(candidate: Prepared, denied: seq<Option<BoardError>>, judge: Judge, later: Judge, commit: Commit)
      returns (r: Result<Snapshot, BoardError>)
      requires Valid() && |denied| == 3 && (commit.FailedBefore? ==> commit.error != Unknown)
      modifies this
      ensures Valid()
      ensures r.Ok? <==> old(Reaches(candidate, denied, judge, later)) && commit.Done?
      ensures r.Ok? ==>
                && r.value.record == FromPrepared(candidate) && stored == Some(r.value.record) && !uncertain
                && current == Some(r.value) && handles == old(handles) + multiset{r.value.revision}
      ensures r.Err? ==> current == old(current) && handles == old(handles)
      ensures uncertain <==> old(uncertain) || (old(Reaches(candidate, denied, judge, later)) && commit.Unclear?)
      ensures r.Err? ==>
                stored == if old(Reaches(candidate, denied, judge, later)) && commit.Unclear? && commit.took
                          then Some(FromPrepared(candidate)) else old(stored)
      ensures old(Reaches(candidate, denied, judge, later)) && commit.Unclear? ==> r == Err(Unknown)
    {
      hide Bounded, Live, Freed, Listed, Publishable, Distinct;
      if denied[0].Some? {
        return Err(denied[0].value);
      }
      if candidate.publisher != publisher {
        return Err(Denied);
      }
      if candidate.bytes > limits.publicationBytes {
        return Err(Limit);
      }
      var prepared := Prepare(FromPrepared(candidate), limits, judge);
      if prepared.Err? {
        return Err(prepared.error);
      }
      if denied[1].Some? {
        return Err(denied[1].value);
      }
      if uncertain {
        return Err(Unknown);
      }
      var room := HasRoom();
      if !room {
        return Err(Limit);
      }
      var verdict := later.assessment(prepared.value.board, prepared.value.definitions);
      if verdict.Some? {
        return Err(verdict.value);
      }
      if denied[2].Some? {
        return Err(denied[2].value);
      }
      r := Settle(FromPrepared(prepared.value), commit);
    }

    /** The port's answer decides what is stored, what is live and whether anybody knows. */
    method Settle(record: Record, commit: Commit) returns (r: Result<Snapshot, BoardError>)
      requires Valid() && !uncertain && Listed(pins) == Live() && Room()
      requires commit.FailedBefore? ==> commit.error != Unknown
      modifies this
      ensures Valid()
      ensures match commit
              case Done =>
                && r.Ok? && r.value.record == record && !uncertain
                && stored == Some(record) && current == Some(r.value)
                && handles == old(handles) + multiset{r.value.revision}
              case FailedBefore(e) =>
                r == Err(e) && !uncertain && current == old(current) && handles == old(handles) && stored == old(stored)
              case Unclear(took) =>
                && r == Err(Unknown) && uncertain && current == old(current) && handles == old(handles)
                && stored == if took then Some(record) else old(stored)
    {
      hide Bounded, Live, Freed, Listed;
      match commit {
        case FailedBefore(error) => return Err(error);
        case Unclear(took) =>
          if took {
            stored := Some(record);
          }
          uncertain := true;
          return Err(Unknown);
        case Done =>
          stored := Some(record);
          var s := Install(record);
          HandOut(s);
          return Ok(s);
      }
    }

    /** Give a consumer its own reference to the current revision. */
    method HandOut(s: Snapshot)
      requires Valid() && current == Some(s)
      modifies `handles
      ensures Valid() && handles == old(handles) + multiset{s.revision}
    {
      hide Pinned;
      ghost var live := Live();
      handles := handles + multiset{s.revision};
      assert Live() == live;
    }

    /** Reconcile with the port without replaying any write. */
    method Recover(load: Load, denied: seq<Option<BoardError>>, judge: Judge) returns (r: Result<(), BoardError>)
      requires Valid() && |denied| == 2
      modifies `current, `uncertain, `pins, `next
      ensures Valid() && stored == old(stored)
      ensures r.Ok? ==>
                && !uncertain
                && if stored.Some? then current.Some? && current.value.record == stored.value else current.None?
      ensures r.Err? ==> current == old(current) && uncertain == old(uncertain)
      ensures r.Ok? <==>
                && denied[0].None? && denied[1].None? && load.Loaded?
                && (stored.Some? ==>
                      stored.value.publisher == publisher && Publishable(stored.value, limits, judge) && old(Room()))
    {
      hide Bounded, Live, Freed, Listed, Publishable;
      if denied[0].Some? {
        return Err(denied[0].value);
      }
      if load.LoadFails? {
        return Err(load.error);
      }
      if stored.None? {
        if denied[1].Some? {
          return Err(denied[1].value);
        }
        Clear();
        return Ok(());
      }
      var record := stored.value;
      if record.publisher != publisher {
        return Err(Denied);
      }
      var prepared := Prepare(record, limits, judge);
      if prepared.Err? {
        return Err(prepared.error);
      }
      var room := HasRoom();
      if !room {
        return Err(Limit);
      }
      if denied[1].Some? {
        return Err(denied[1].value);
      }
      var s := Install(FromPrepared(prepared.value));
      uncertain := false;
      return Ok(());
    }

    /** Nothing is stored, so nothing is live. */
    method Clear()
      requires Valid() && stored.None?
      modifies `current, `uncertain
      ensures Valid() && current.None? && !uncertain
    {
      hide Pinned;
      ghost var live := Live();
      current, uncertain := None, false;
      PinnedFewer(pins, live, Live(), next, limits.snapshots);
    }

    /** Pin the current revision; what a reader gets is the stored publication. */
    method Read(denied: seq<Option<BoardError>>) returns (r: Result<Snapshot, BoardError>)
      requires Valid() && |denied| == 2
      modifies `handles
      ensures Valid()
      ensures match r
              case Ok(s) =>
                && !uncertain && stored == Some(s.record) && current == Some(s)
                && handles == old(handles) + multiset{s.revision}
              case Err(_) => handles == old(handles)
      ensures denied[0].None? && denied[1].None? ==>
                && (r.Ok? <==> !uncertain && stored.Some?)
                && (r == Err(Missing) <==> !uncertain && stored.None?)
                && (r == Err(Unknown) <==> uncertain)
      ensures denied[0].Some? || denied[1].Some? ==> r.Err?
    {
      if denied[0].Some? {
        return Err(denied[0].value);
      }
      if uncertain {
        return Err(Unknown);
      }
      if current.None? {
        return Err(Missing);
      }
      if denied[1].Some? {
        return Err(denied[1].value);
      }
      HandOut(current.value);
      return Ok(current.value);
    }
  }

  /** Open a port and serve nothing before its whole content has been validated. */
  method Open(publisher: Publisher, limits: Limits, content: Option<Record>, load: Load, judge: Judge)
    returns (r: Result<Provider, BoardError>)
    ensures r.Ok? ==>
              && fresh(r.value) && r.value.Valid() && !r.value.uncertain && r.value.stored == content
              && r.value.publisher == publisher && (content.Some? ==> content.value.publisher == publisher)
    ensures r.Ok? <==>
              && ValidLimits(limits) && load.Loaded?
              && (content.Some? ==> content.value.publisher == publisher && Publishable(content.value, limits, judge))
  {
    hide Publishable;
    if !ValidLimits(limits) {
      return Err(Invalid);
    }
    var owner := new Provider(publisher, limits);
    if load.LoadFails? {
      return Err(load.error);
    }
    if content.Some? {
      if content.value.publisher != publisher {
        return Err(Denied);
      }
      var prepared := Prepare(content.value, limits, judge);
      if prepared.Err? {
        return Err(prepared.error);
      }
      owner.stored := content;
      var s := owner.Install(FromPrepared(prepared.value));
    }
    return Ok(owner);
  }
}
