/** Durable Board records, preparation of publications and the finite policy behind both. */
module BoardRecords {
  import opened Bytes

  type Publisher = nat
  type OfferingId = seq<byte>

  datatype BoardError = Denied | Cancelled | Limit | Invalid | Missing | Stale | Storage | Unknown | Unavailable

  datatype Limits = Limits(
    documentBytes: nat,
    depth: nat,
    nodes: nat,
    stringBytes: nat,
    arrayElements: nat,
    definitions: nat,
    publicationBytes: nat,
    cacheEntries: nat,
    snapshots: nat,
    cacheSeconds: nat)

  const RECORD_FIXED_BYTES := 64
  const RECORD_ENTRY_BYTES := 12

  /** Largest private record: board and definitions, identifiers at most as long, and length fields. */
  function Envelope(l: Limits): nat {
    2 * l.publicationBytes + l.definitions * RECORD_ENTRY_BYTES + RECORD_FIXED_BYTES
  }

  /** Machine words are 64 bits wide. */
  predicate ValidLimits(l: Limits) {
    && Envelope(l) <= MAX_U64
    && 0 < l.documentBytes <= 1_048_576
    && 0 < l.depth <= 31
    && l.nodes > 0 && l.arrayElements > 0 && l.definitions > 0 && l.cacheEntries > 0 && l.snapshots > 0
    && 0 < l.stringBytes <= l.documentBytes
    && l.documentBytes <= l.publicationBytes
    && l.cacheSeconds > 0
  }

  datatype Record = Record(publisher: Publisher, board: seq<byte>, definitions: map<OfferingId, seq<byte>>)

  /** A validated publication; every definition keeps its original bytes. */
  datatype Prepared = Prepared(publisher: Publisher, board: seq<byte>, definitions: map<OfferingId, seq<byte>>,
                               bytes: nat)

  /** Document parsing and semantic assessment, which are not modelled: any answers are possible. */
  datatype Judge = Judge(
    offerings: seq<byte> -> Result<set<OfferingId>, BoardError>,
    definition: (OfferingId, seq<byte>) -> Option<BoardError>,
    contracts: map<OfferingId, seq<byte>> -> Option<BoardError>,
    assessment: (seq<byte>, map<OfferingId, seq<byte>>) -> Option<BoardError>)

  ghost function DefinitionBytes(m: map<OfferingId, seq<byte>>): nat
    decreases |m|
  {
    if m == map[] then 0
    else
      var k :| k in m;
      assert |m - {k}| < |m| by { FewerDefinitions(m, k); }
      |m[k]| + DefinitionBytes(m - {k})
  }

  lemma FewerDefinitions(m: map<OfferingId, seq<byte>>, k: OfferingId)
    requires k in m
    ensures |m - {k}| == |m| - 1
  {
    assert |m| == |m.Keys| && |m - {k}| == |(m - {k}).Keys|;
    assert (m - {k}).Keys == m.Keys - {k};
  }

  lemma {:induction false} DefinitionBytesWithout(m: map<OfferingId, seq<byte>>, k: OfferingId)
    requires k in m
    ensures DefinitionBytes(m) == |m[k]| + DefinitionBytes(m - {k})
    decreases |m|
  {
    var j :| j in m && DefinitionBytes(m) == |m[j]| + DefinitionBytes(m - {j});
    if j != k {
      FewerDefinitions(m, j);
      FewerDefinitions(m, k);
      DefinitionBytesWithout(m - {j}, k);
      DefinitionBytesWithout(m - {k}, j);
      assert m - {j} - {k} == m - {k} - {j};
    }
  }

  /** Every offering has a definition, and the parser takes it. */
  ghost predicate DefinitionsAccepted(ids: set<OfferingId>, definitions: map<OfferingId, seq<byte>>, judge: Judge) {
    forall id :: id in ids ==> id in definitions && judge.definition(id, definitions[id]).None?
  }

  ghost predicate Publishable(r: Record, l: Limits, judge: Judge) {
    && ValidLimits(l)
    && |r.definitions| <= l.definitions
    && |r.board| + DefinitionBytes(r.definitions) <= l.publicationBytes
    && judge.offerings(r.board).Ok?
    && |r.definitions| == |judge.offerings(r.board).value|
    && DefinitionsAccepted(judge.offerings(r.board).value, r.definitions, judge)
    && judge.contracts(r.definitions).None?
    && judge.assessment(r.board, r.definitions).None?
  }

  function FromPrepared(p: Prepared): Record {
    Record(p.publisher, p.board, p.definitions)
  }

  /** A set inside another of the same size is that set. */
  lemma SameSize<T>(a: set<T>, b: set<T>)
    requires a <= b && |a| == |b|
    ensures a == b
  {
    assert b == a + (b - a);
    assert |b - a| == 0;
  }

  method TotalBytes(r: Record) returns (total: nat)
    ensures total == |r.board| + DefinitionBytes(r.definitions)
  {
    total := |r.board|;
    var rest := r.definitions;
    while rest != map[]
      invariant total + DefinitionBytes(rest) == |r.board| + DefinitionBytes(r.definitions)
      decreases |rest|
    {
      var id :| id in rest;
      DefinitionBytesWithout(rest, id);
      FewerDefinitions(rest, id);
      total := total + |rest[id]|;
      rest := rest - {id};
    }
  }

  /** Each offering's definition in turn; the result keeps their original bytes. */
  method Validate(offerings: set<OfferingId>, definitions: map<OfferingId, seq<byte>>, judge: Judge)
    returns (r: Result<map<OfferingId, seq<byte>>, BoardError>)
    ensures r.Ok? <==> DefinitionsAccepted(offerings, definitions, judge)
    ensures r.Ok? ==> r.value.Keys == offerings && offerings <= definitions.Keys
                      && forall id :: id in offerings ==> r.value[id] == definitions[id]
  {
    var validated: map<OfferingId, seq<byte>> := map[];
    var rest := offerings;
    while rest != {}
      invariant rest <= offerings
      invariant validated.Keys == offerings - rest && validated.Keys <= definitions.Keys
      invariant forall id :: id in validated ==>
                  validated[id] == definitions[id] && judge.definition(id, definitions[id]).None?
      decreases |rest|
    {
      var id :| id in rest;
      if id !in definitions {
        return Err(Missing);
      }
      var verdict := judge.definition(id, definitions[id]);
      if verdict.Some? {
        return Err(verdict.value);
      }
      validated := validated[id := definitions[id]];
      rest := rest - {id};
    }
    return Ok(validated);
  }

  /** Preparation of a whole publication: each offering's definition in turn, then the whole. */
  method Prepare(r: Record, l: Limits, judge: Judge) returns (p: Result<Prepared, BoardError>)
    ensures p.Ok? <==> Publishable(r, l, judge)
    ensures p.Ok? ==> FromPrepared(p.value) == r && p.value.bytes == |r.board| + DefinitionBytes(r.definitions)
  {
    hide DefinitionBytes, ValidLimits, DefinitionsAccepted;
    if !ValidLimits(l) {
      return Err(Invalid);
    }
    if |r.definitions| > l.definitions {
      return Err(Limit);
    }
    var total := TotalBytes(r);
    if total > l.publicationBytes {
      return Err(Limit);
    }
    var offerings := judge.offerings(r.board);
    if offerings.Err? {
      return Err(offerings.error);
    }
    if |r.definitions| != |offerings.value| {
      return Err(Invalid);
    }
    var checked := Validate(offerings.value, r.definitions, judge);
    if checked.Err? {
      return Err(checked.error);
    }
    var validated := checked.value;
    assert validated == r.definitions by {
      assert |r.definitions| == |r.definitions.Keys|;
      SameSize(offerings.value, r.definitions.Keys);
    }
    var verdict := judge.contracts(validated);
    if verdict.Some? {
      return Err(verdict.value);
    }
    verdict := judge.assessment(r.board, validated);
    if verdict.Some? {
      return Err(verdict.value);
    }
    return Ok(Prepared(r.publisher, r.board, validated, total));
  }
}
