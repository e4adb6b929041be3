/** Constant-space stream numbering: two watermarks stand for the whole allocation history. */
module StreamNumbering {
  import opened Bytes

  datatype Role = Initiator | Acceptor

  datatype IdError = Exhausted | Unexpected

  datatype Ids = Ids(
    localOdd: bool,
    nextLocal: Option<u32>,
    nextRemote: Option<u32>,
    greatestLocal: u32,
    greatestRemote: u32)
  {
    /** Zero belongs to neither endpoint. */
    predicate IsLocal(id: u32) {
      id != 0 && (id % 2 == 1) == localOdd
    }

    predicate WasCreated(id: u32) {
      id != 0 && id <= if IsLocal(id) then greatestLocal else greatestRemote
    }

    ghost predicate Valid() {
      && Numbered(localOdd, nextLocal, greatestLocal)
      && Numbered(!localOdd, nextRemote, greatestRemote)
    }

    /** The number the next local OPEN takes, continued past the 32-bit range when exhausted. */
    ghost function UpcomingLocal(): nat {
      Upcoming(localOdd, greatestLocal)
    }

    ghost function UpcomingRemote(): nat {
      Upcoming(!localOdd, greatestRemote)
    }
  }

  function First(odd: bool): u32 {
    if odd then 1 else 2
  }

  ghost function Upcoming(odd: bool, greatest: u32): nat {
    if greatest == 0 then First(odd) else greatest + 2
  }

  /** `next` is the successor of `greatest` in its parity class, absent once it no longer fits. */
  ghost predicate Numbered(odd: bool, next: Option<u32>, greatest: u32) {
    && (greatest != 0 ==> (greatest % 2 == 1) == odd)
    && next == if Upcoming(odd, greatest) <= MAX_U32 then Some(Upcoming(odd, greatest)) else None
  }

  function NewIds(role: Role): (r: Ids)
    ensures r.Valid()
    ensures forall id: u32 :: !r.WasCreated(id)
  {
    var odd := role == Initiator;
    Ids(odd, Some(First(odd)), Some(First(!odd)), 0, 0)
  }

  /** `checked_add(2)` of the source. */
  function Successor(id: u32): Option<u32> {
    if id + 2 <= MAX_U32 then Some(id + 2) else None
  }

  function Allocate(ids: Ids): (r: Result<(Ids, u32), IdError>)
    ensures ids.Valid() && r.Ok? ==>
              && r.value.0.Valid()
              && ids.IsLocal(r.value.1) && !ids.WasCreated(r.value.1)
              && (forall id: u32 :: r.value.0.WasCreated(id) <==> ids.WasCreated(id) || id == r.value.1)
    ensures ids.Valid() && r.Err? ==> forall id: u32 :: ids.IsLocal(id) ==> ids.WasCreated(id)
  {
    match ids.nextLocal
    case None => Err(Exhausted)
    case Some(id) => Ok((ids.(nextLocal := Successor(id), greatestLocal := id), id))
  }

  function Accept(ids: Ids, id: u32): (r: Result<Ids, IdError>)
    ensures ids.Valid() && r.Ok? ==>
              && r.value.Valid()
              && id != 0 && !ids.IsLocal(id) && !ids.WasCreated(id)
              && (forall j: u32 :: r.value.WasCreated(j) <==> ids.WasCreated(j) || j == id)
    ensures ids.Valid() ==> (r.Ok? <==> id == ids.UpcomingRemote())
  {
    if ids.nextRemote != Some(id) then Err(Unexpected)
    else Ok(ids.(nextRemote := Successor(id), greatestRemote := id))
  }

  datatype Creation = Allocated(id: u32) | Accepted(id: u32)

  ghost predicate Creates(before: Ids, step: Creation, after: Ids) {
    if step.Allocated? then Allocate(before) == Ok((after, step.id))
    else Accept(before, step.id) == Ok(after)
  }

  /** `history` lists, oldest first, every successful allocation and acceptance that led to `ids`. */
  ghost predicate Recorded(role: Role, history: seq<Creation>, ids: Ids) {
    if history == [] then ids == NewIds(role)
    else
      var last := history[|history| - 1];
      exists before: Ids ::
        Recorded(role, history[..|history| - 1], before) && Creates(before, last, ids)
  }

  /** Watermarks answer exactly like the full set of identifiers ever created. */
  lemma {:induction false} WatermarksAreExact(role: Role, history: seq<Creation>, ids: Ids)
    requires Recorded(role, history, ids)
    ensures ids.Valid()
    ensures forall id: u32 :: ids.WasCreated(id) <==> exists k :: 0 <= k < |history| && history[k].id == id
    ensures forall i, j :: 0 <= i < j < |history| ==> history[i].id != history[j].id
  {
    if history != [] {
      var n := |history| - 1;
      var last := history[n];
      var before: Ids :| Recorded(role, history[..n], before) && Creates(before, last, ids);
      WatermarksAreExact(role, history[..n], before);
      forall id: u32
        ensures ids.WasCreated(id) <==> exists k :: 0 <= k < |history| && history[k].id == id
      {
        if before.WasCreated(id) {
          var k :| 0 <= k < n && history[..n][k].id == id;
          assert history[k].id == id;
        }
        if id == last.id {
          assert history[n].id == id;
        }
        if k :| 0 <= k < |history| && history[k].id == id {
          assert k < n ==> history[..n][k].id == id;
        }
      }
      forall i, j | 0 <= i < j < |history|
        ensures history[i].id != history[j].id
      {
        assert history[..n][i].id == history[i].id;
        assert before.WasCreated(history[i].id);
        if j < n {
          assert history[..n][j] == history[j];
        }
      }
    }
  }

  /** The owned numbering state, updated in place; `created` is its history. */
  class StreamIds {
    var localOdd: bool
    var nextLocal: Option<u32>
    var nextRemote: Option<u32>
    var greatestLocal: u32
    var greatestRemote: u32
    ghost var created: set<u32>

    ghost function View(): Ids
      reads this
    {
      Ids(localOdd, nextLocal, nextRemote, greatestLocal, greatestRemote)
    }

    ghost predicate Valid()
      reads this
    {
      View().Valid() && forall id: u32 :: id in created <==> View().WasCreated(id)
    }

    constructor (role: Role)
      ensures Valid() && created == {} && View() == NewIds(role)
    {
      localOdd := role == Initiator;
      nextLocal := Some(if role == Initiator then 1 else 2);
      nextRemote := Some(if role == Initiator then 2 else 1);
      greatestLocal, greatestRemote := 0, 0;
      created := {};
    }

    method AllocateNext() returns (r: Result<u32, IdError>)
      requires Valid()
      modifies this
      ensures Valid()
      ensures match Allocate(old(View()))
              case Err(e) => r == Err(e) && View() == old(View()) && created == old(created)
              case Ok(pair) => r == Ok(pair.1) && View() == pair.0
                               && pair.1 !in old(created) && created == old(created) + {pair.1}
    {
      if nextLocal.None? {
        return Err(Exhausted);
      }
      var id := nextLocal.value;
      nextLocal := if id + 2 <= MAX_U32 then Some(id + 2) else None;
      greatestLocal := id;
      created := created + {id};
      return Ok(id);
    }

    method AcceptNext(id: u32) returns (r: Result<(), IdError>)
      requires Valid()
      modifies this
      ensures Valid()
      ensures match Accept(old(View()), id)
              case Err(e) => r == Err(e) && View() == old(View()) && created == old(created)
              case Ok(ids) => r == Ok(()) && View() == ids
                              && id !in old(created) && created == old(created) + {id}
    {
      if nextRemote != Some(id) {
        return Err(Unexpected);
      }
      nextRemote := if id + 2 <= MAX_U32 then Some(id + 2) else None;
      greatestRemote := id;
      created := created + {id};
      return Ok(());
    }
  }
}
