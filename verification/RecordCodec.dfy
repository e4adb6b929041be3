/** The private length-delimited encoding of a stored publication. */
module RecordCodec {
  import opened Bytes
  import opened BoardRecords

  type PublisherBytes = s: seq<byte> | |s| == 32 witness seq(32, _ => 0)

  /** A stored publication; identifiers are strings, so their bytes are well-formed UTF-8. */
  datatype Stored = Stored(publisher: PublisherBytes, board: seq<byte>, definitions: map<OfferingId, seq<byte>>)

  datatype Entry = Entry(id: OfferingId, data: seq<byte>)

  /** ASCII of "TSBOARD1". */
  const MAGIC: seq<byte> := [0x54, 0x53, 0x42, 0x4F, 0x41, 0x52, 0x44, 0x31]

  // ---------------------------------------------------------------- layout

  ghost function Delimited(b: seq<byte>): seq<byte>
    requires |b| <= MAX_U32
  {
    BigEndian32(|b|) + b
  }

  ghost predicate Small(entries: seq<Entry>) {
    forall i :: 0 <= i < |entries| ==> |entries[i].id| <= MAX_U32 && |entries[i].data| <= MAX_U32
  }

  ghost function LayEntries(entries: seq<Entry>): seq<byte>
    requires Small(entries)
  {
    if entries == [] then []
    else Delimited(entries[0].id) + Delimited(entries[0].data) + LayEntries(entries[1..])
  }

  /** The definitions a list of entries adds up to. */
  ghost function Collect(entries: seq<Entry>, m: map<OfferingId, seq<byte>>): map<OfferingId, seq<byte>> {
    if entries == [] then m else Collect(entries[1..], m[entries[0].id := entries[0].data])
  }

  ghost function DataBytes(entries: seq<Entry>): nat {
    if entries == [] then 0 else |entries[0].data| + DataBytes(entries[1..])
  }

  ghost function Layout(r: Stored, entries: seq<Entry>): seq<byte>
    requires |r.board| <= MAX_U32 && |entries| <= MAX_U32 && Small(entries)
  {
    MAGIC + r.publisher + Delimited(r.board) + BigEndian32(|entries|) + LayEntries(entries)
  }

  // ---------------------------------------------------------------- the parser, as a function of the remaining bytes

  datatype Piece<+T> = Piece(value: T, rest: seq<byte>)

  function Take(s: seq<byte>, n: nat): Result<Piece<seq<byte>>, BoardError> {
    if |s| < n then Err(Invalid) else Ok(Piece(s[..n], s[n..]))
  }

  function Number(s: seq<byte>): Result<Piece<u32>, BoardError> {
    if |s| < 4 then Err(Invalid) else Ok(Piece(FromBigEndian32(s[..4]), s[4..]))
  }

  /** An excessive length is rejected before its payload is looked at. */
  function Field(s: seq<byte>, maximum: nat): Result<Piece<seq<byte>>, BoardError> {
    match Number(s)
    case Err(e) => Err(e)
    case Ok(n) => if n.value > maximum then Err(Limit) else Take(n.rest, n.value)
  }

  datatype Progress = Progress(definitions: map<OfferingId, seq<byte>>, total: nat, rest: seq<byte>)

  function NextEntry(p: Progress, l: Limits): Result<Progress, BoardError> {
    match Field(p.rest, l.stringBytes)
    case Err(e) => Err(e)
    case Ok(id) =>
      if !ValidUtf8(id.value) then Err(Invalid)
      else match Field(id.rest, l.documentBytes)
           case Err(e) => Err(e)
           case Ok(d) =>
             if p.total + |d.value| > l.publicationBytes then Err(Limit)
             else if id.value in p.definitions then Err(Invalid)
             else Ok(Progress(p.definitions[id.value := d.value], p.total + |d.value|, d.rest))
  }

  function Entries(p: Progress, n: nat, l: Limits): Result<Progress, BoardError>
    decreases n
  {
    if n == 0 then Ok(p)
    else match NextEntry(p, l)
         case Err(e) => Err(e)
         case Ok(q) => Entries(q, n - 1, l)
  }

  function Decoded(bytes: seq<byte>, l: Limits): Result<Stored, BoardError> {
    if !ValidLimits(l) then Err(Invalid)
    else if |bytes| > Envelope(l) then Err(Limit)
    else match DecodedPart(bytes, l)
         case Err(e) => Err(e)
         case Ok(p) => if p.rest != [] then Err(Invalid) else Ok(p.value)
  }

  /** Everything but the check that nothing follows. */
  function DecodedPart(bytes: seq<byte>, l: Limits): Result<Piece<Stored>, BoardError> {
    if |bytes| < 8 || bytes[..8] != MAGIC then Err(Invalid)
    else if |bytes| < 40 then Err(Invalid)
    else match Field(bytes[40..], l.documentBytes)
         case Err(e) => Err(e)
         case Ok(board) =>
           match Number(board.rest)
           case Err(e) => Err(e)
           case Ok(count) =>
             if count.value > l.definitions then Err(Limit)
             else match Entries(Progress(map[], |board.value|, count.rest), count.value, l)
                  case Err(e) => Err(e)
                  case Ok(p) => Ok(Piece(Stored(bytes[8..40], board.value, p.definitions), p.rest))
  }

  // ---------------------------------------------------------------- both directions, piece by piece

  lemma NumberExact(s: seq<byte>, n: u32, rest: seq<byte>)
    ensures Number(s) == Ok(Piece(n, rest)) <==> s == BigEndian32(n) + rest
  {
    hide BigEndian32, FromBigEndian32;
    if s == BigEndian32(n) + rest {
      assert s[..4] == BigEndian32(n) && s[4..] == rest;
      RoundTrip32(n);
    }
    if Number(s) == Ok(Piece(n, rest)) {
      Canonical32(s[..4]);
      assert s == s[..4] + s[4..];
    }
  }

  lemma FieldExact(s: seq<byte>, maximum: nat, b: seq<byte>, rest: seq<byte>)
    ensures Field(s, maximum) == Ok(Piece(b, rest)) <==> |b| <= maximum && |b| <= MAX_U32 && s == Delimited(b) + rest
  {
    hide Number, BigEndian32;
    if |b| <= maximum && |b| <= MAX_U32 && s == Delimited(b) + rest {
      NumberExact(s, |b|, b + rest);
      assert s == BigEndian32(|b|) + (b + rest);
      assert (b + rest)[..|b|] == b && (b + rest)[|b|..] == rest;
    }
    if Field(s, maximum) == Ok(Piece(b, rest)) {
      var n := Number(s).value;
      NumberExact(s, n.value, n.rest);
      assert n.rest == b + rest;
      assert s == BigEndian32(|b|) + b + rest;
    }
  }

  ghost function After(p: Progress, e: Entry, rest: seq<byte>): Progress {
    Progress(p.definitions[e.id := e.data], p.total + |e.data|, rest)
  }

  ghost predicate Fits(p: Progress, e: Entry, l: Limits) {
    && |e.id| <= MAX_U32 && |e.data| <= MAX_U32
    && |e.id| <= l.stringBytes && |e.data| <= l.documentBytes && ValidUtf8(e.id)
    && e.id !in p.definitions && p.total + |e.data| <= l.publicationBytes
  }

  lemma EntryWritten(p: Progress, e: Entry, rest: seq<byte>, l: Limits)
    requires Fits(p, e, l) && p.rest == Delimited(e.id) + Delimited(e.data) + rest
    ensures NextEntry(p, l) == Ok(After(p, e, rest))
  {
    hide Field, ValidUtf8, Delimited;
    assert p.rest == Delimited(e.id) + (Delimited(e.data) + rest);
    FieldExact(p.rest, l.stringBytes, e.id, Delimited(e.data) + rest);
    FieldExact(Delimited(e.data) + rest, l.documentBytes, e.data, rest);
  }

  lemma EntryRead(p: Progress, q: Progress, l: Limits) returns (e: Entry)
    requires NextEntry(p, l) == Ok(q)
    ensures Fits(p, e, l) && q == After(p, e, q.rest) && p.rest == Delimited(e.id) + Delimited(e.data) + q.rest
  {
    hide Field, ValidUtf8, Delimited;
    var id := Field(p.rest, l.stringBytes).value;
    var d := Field(id.rest, l.documentBytes).value;
    e := Entry(id.value, d.value);
    FieldExact(p.rest, l.stringBytes, id.value, id.rest);
    FieldExact(id.rest, l.documentBytes, d.value, d.rest);
    assert Delimited(e.id) + (Delimited(e.data) + q.rest) == Delimited(e.id) + Delimited(e.data) + q.rest;
  }

  /** What reading a list of entries asks of them. */
  ghost predicate AllFit(p: Progress, entries: seq<Entry>, l: Limits)
    decreases |entries|
  {
    entries == [] || (Fits(p, entries[0], l) && AllFit(After(p, entries[0], p.rest), entries[1..], l))
  }

  ghost function AfterAll(p: Progress, entries: seq<Entry>, rest: seq<byte>): Progress {
    Progress(Collect(entries, p.definitions), p.total + DataBytes(entries), rest)
  }

  lemma {:induction false} AllFitSmall(p: Progress, entries: seq<Entry>, l: Limits)
    requires AllFit(p, entries, l)
    ensures Small(entries)
    decreases |entries|
  {
    if entries != [] {
      AllFitSmall(After(p, entries[0], p.rest), entries[1..], l);
      forall i | 0 <= i < |entries|
        ensures |entries[i].id| <= MAX_U32 && |entries[i].data| <= MAX_U32
      {
        assert i == 0 || entries[i] == entries[1..][i - 1];
      }
    }
  }

  /** Only the table and the running total matter for what fits. */
  lemma {:induction false} FitsAnywhere(p: Progress, q: Progress, entries: seq<Entry>, l: Limits)
    requires AllFit(p, entries, l) && q.definitions == p.definitions && q.total == p.total
    ensures AllFit(q, entries, l)
    decreases |entries|
  {
    if entries != [] {
      FitsAnywhere(After(p, entries[0], p.rest), After(q, entries[0], q.rest), entries[1..], l);
    }
  }

  lemma {:induction false} EntriesWritten(p: Progress, entries: seq<Entry>, rest: seq<byte>, l: Limits)
    requires AllFit(p, entries, l) && Small(entries) && p.rest == LayEntries(entries) + rest
    ensures Entries(p, |entries|, l) == Ok(AfterAll(p, entries, rest))
    decreases |entries|
  {
    hide NextEntry, Fits, Delimited;
    if entries == [] {
      assert p.rest == rest;
    } else {
      var e, tail := entries[0], entries[1..];
      var later := LayEntries(tail) + rest;
      assert p.rest == Delimited(e.id) + Delimited(e.data) + later;
      EntryWritten(p, e, later, l);
      FitsAnywhere(After(p, e, p.rest), After(p, e, later), tail, l);
      EntriesWritten(After(p, e, later), tail, rest, l);
    }
  }

  lemma {:induction false} EntriesRead(p: Progress, n: nat, q: Progress, l: Limits) returns (entries: seq<Entry>)
    requires Entries(p, n, l) == Ok(q)
    ensures |entries| == n && AllFit(p, entries, l) && Small(entries)
    ensures q == AfterAll(p, entries, q.rest) && p.rest == LayEntries(entries) + q.rest
    decreases n
  {
    hide NextEntry, Fits, Delimited;
    if n == 0 {
      entries := [];
      assert p.rest == [] + p.rest;
    } else {
      var mid := NextEntry(p, l).value;
      var e := EntryRead(p, mid, l);
      var tail := EntriesRead(mid, n - 1, q, l);
      entries := [e] + tail;
      FitsAnywhere(mid, After(p, e, p.rest), tail, l);
      AllFitSmall(p, entries, l);
      assert entries[1..] == tail;
      assert p.rest == Delimited(e.id) + Delimited(e.data) + (LayEntries(tail) + q.rest);
    }
  }

  // ---------------------------------------------------------------- the whole record

  /** A record in some order of its definitions, within every limit. */
  ghost predicate Encodes(r: Stored, entries: seq<Entry>, l: Limits) {
    && |r.board| <= l.documentBytes && |r.board| <= MAX_U32
    && |entries| <= l.definitions && |entries| <= MAX_U32
    && AllFit(Progress(map[], |r.board|, []), entries, l) && Small(entries)
    && Collect(entries, map[]) == r.definitions
  }

  ghost predicate IsLayout(bytes: seq<byte>, r: Stored, entries: seq<Entry>, l: Limits) {
    Encodes(r, entries, l) && bytes == Layout(r, entries)
  }

  lemma PartWritten(r: Stored, entries: seq<Entry>, rest: seq<byte>, l: Limits)
    requires Encodes(r, entries, l)
    ensures DecodedPart(Layout(r, entries) + rest, l) == Ok(Piece(r, rest))
  {
    hide Field, Number, Entries, AllFit, Delimited, BigEndian32, Collect;
    var counted := BigEndian32(|entries|) + (LayEntries(entries) + rest);
    var s := Layout(r, entries) + rest;
    assert s[..8] == MAGIC && s[8..40] == r.publisher;
    assert s[40..] == Delimited(r.board) + counted;
    FieldExact(s[40..], l.documentBytes, r.board, counted);
    NumberExact(counted, |entries|, LayEntries(entries) + rest);
    var p := Progress(map[], |r.board|, LayEntries(entries) + rest);
    FitsAnywhere(Progress(map[], |r.board|, []), p, entries, l);
    EntriesWritten(p, entries, rest, l);
  }

  lemma PartRead(s: seq<byte>, r: Stored, rest: seq<byte>, l: Limits) returns (entries: seq<Entry>)
    requires DecodedPart(s, l) == Ok(Piece(r, rest))
    ensures Encodes(r, entries, l) && s == Layout(r, entries) + rest
  {
    hide Field, Number, Entries, AllFit, Delimited, BigEndian32, Collect;
    var board := Field(s[40..], l.documentBytes).value;
    FieldExact(s[40..], l.documentBytes, board.value, board.rest);
    var count := Number(board.rest).value;
    NumberExact(board.rest, count.value, count.rest);
    var p := Progress(map[], |board.value|, count.rest);
    var q := Entries(p, count.value, l).value;
    entries := EntriesRead(p, count.value, q, l);
    FitsAnywhere(p, Progress(map[], |board.value|, []), entries, l);
    assert s == s[..8] + s[8..40] + s[40..];
    Rejoined(s, MAGIC + r.publisher, Delimited(r.board), BigEndian32(|entries|), LayEntries(entries), rest);
  }

  lemma Rejoined(s: seq<byte>, a: seq<byte>, b: seq<byte>, c: seq<byte>, d: seq<byte>, e: seq<byte>)
    requires s == a + (b + (c + (d + e)))
    ensures s == a + b + c + d + e
  {
    assert a + (b + (c + (d + e))) == a + b + c + d + e;
  }

  /** Decoding accepts exactly the layouts, in any order of definitions, of records within the limits. */
  lemma DecodedExactly(bytes: seq<byte>, r: Stored, l: Limits)
    ensures Decoded(bytes, l) == Ok(r) <==>
            && ValidLimits(l) && |bytes| <= Envelope(l)
            && exists entries :: IsLayout(bytes, r, entries, l)
  {
    hide DecodedPart, ValidLimits, Envelope, AllFit, Layout;
    if Decoded(bytes, l) == Ok(r) {
      var entries := PartRead(bytes, r, [], l);
      LayoutIsAll(r, entries, l);
      assert IsLayout(bytes, r, entries, l);
    }
    if entries :| IsLayout(bytes, r, entries, l) {
      PartWritten(r, entries, [], l);
      LayoutIsAll(r, entries, l);
    }
  }

  lemma LayoutIsAll(r: Stored, entries: seq<Entry>, l: Limits)
    requires Encodes(r, entries, l)
    ensures Layout(r, entries) + [] == Layout(r, entries)
  {
  }

  /** Nothing shorter and nothing longer than an encoding decodes. */
  lemma NeighboursAreRejected(bytes: seq<byte>, r: Stored, l: Limits, cut: nat, more: seq<byte>)
    requires Decoded(bytes, l) == Ok(r) && cut < |bytes| && more != []
    ensures Decoded(bytes[..cut], l).Err?
    ensures Decoded(bytes + more, l).Err?
  {
    hide DecodedPart, ValidLimits, Envelope;
    var entries := PartRead(bytes, r, [], l);
    LayoutIsAll(r, entries, l);
    PartWritten(r, entries, more, l);
    assert bytes == bytes[..cut] + bytes[cut..];
    if Decoded(bytes[..cut], l).Ok? {
      var shorter := Decoded(bytes[..cut], l).value;
      var fewer := PartRead(bytes[..cut], shorter, [], l);
      LayoutIsAll(shorter, fewer, l);
      PartWritten(shorter, fewer, bytes[cut..], l);
    }
  }

  // ---------------------------------------------------------------- limits

  ghost predicate FieldsWithin(m: map<OfferingId, seq<byte>>, l: Limits) {
    forall id :: id in m ==> |id| <= l.stringBytes && |m[id]| <= l.documentBytes && ValidUtf8(id)
  }

  lemma DefinitionBytesWith(m: map<OfferingId, seq<byte>>, id: OfferingId, d: seq<byte>)
    requires id !in m
    ensures DefinitionBytes(m[id := d]) == DefinitionBytes(m) + |d| && |m[id := d]| == |m| + 1
  {
    var after := m[id := d];
    DefinitionBytesWithout(after, id);
    FewerDefinitions(after, id);
    assert after - {id} == m;
  }

  /** Entries that fit add exactly their own number and bytes to the table. */
  lemma {:induction false} CollectedWithin(p: Progress, entries: seq<Entry>, l: Limits)
    requires AllFit(p, entries, l) && FieldsWithin(p.definitions, l) && p.total <= l.publicationBytes
    ensures var m := Collect(entries, p.definitions);
            && FieldsWithin(m, l) && |m| == |p.definitions| + |entries|
            && DefinitionBytes(m) == DefinitionBytes(p.definitions) + DataBytes(entries)
            && p.total + DataBytes(entries) <= l.publicationBytes
    decreases |entries|
  {
    hide DefinitionBytes, ValidUtf8;
    if entries != [] {
      var e := entries[0];
      DefinitionBytesWith(p.definitions, e.id, e.data);
      CollectedWithin(After(p, e, p.rest), entries[1..], l);
    }
  }

  /** Whatever decodes respects every field, count and aggregate limit. */
  lemma DecodedWithinLimits(bytes: seq<byte>, l: Limits)
    requires Decoded(bytes, l).Ok?
    ensures var r := Decoded(bytes, l).value;
            && |r.board| <= l.documentBytes
            && |r.definitions| <= l.definitions && FieldsWithin(r.definitions, l)
            && |r.board| + DefinitionBytes(r.definitions) <= l.publicationBytes
            && |bytes| <= Envelope(l)
  {
    hide DecodedPart, FieldsWithin, DefinitionBytes, AllFit;
    var r := Decoded(bytes, l).value;
    var entries := PartRead(bytes, r, [], l);
    EmptyTable(l);
    CollectedWithin(Progress(map[], |r.board|, []), entries, l);
  }

  lemma EmptyTable(l: Limits)
    ensures FieldsWithin(map[], l) && DefinitionBytes(map[]) == 0
  {
  }

  // ---------------------------------------------------------------- writing

  lemma {:induction false} LayPush(entries: seq<Entry>, e: Entry)
    requires Small(entries) && |e.id| <= MAX_U32 && |e.data| <= MAX_U32
    ensures Small(entries + [e])
    ensures LayEntries(entries + [e]) == LayEntries(entries) + Delimited(e.id) + Delimited(e.data)
  {
    hide Delimited;
    var all := entries + [e];
    if entries == [] {
      assert LayEntries(all) == Delimited(e.id) + Delimited(e.data) + LayEntries(all[1..]);
    } else {
      assert all[1..] == entries[1..] + [e] && all[0] == entries[0];
      LayPush(entries[1..], e);
      var a, b, c := Delimited(entries[0].id) + Delimited(entries[0].data), LayEntries(entries[1..]), Delimited(e.id);
      assert a + (b + c + Delimited(e.data)) == a + b + c + Delimited(e.data);
    }
  }

  lemma {:induction false} FitPush(p: Progress, entries: seq<Entry>, e: Entry, l: Limits)
    requires AllFit(p, entries, l) && Fits(AfterAll(p, entries, p.rest), e, l)
    ensures AllFit(p, entries + [e], l)
    ensures Collect(entries + [e], p.definitions) == Collect(entries, p.definitions)[e.id := e.data]
    ensures DataBytes(entries + [e]) == DataBytes(entries) + |e.data|
    decreases |entries|
  {
    hide ValidUtf8;
    var all := entries + [e];
    if entries == [] {
      assert all[1..] == [] && all[0] == e;
    } else {
      assert all[1..] == entries[1..] + [e] && all[0] == entries[0];
      FitPush(After(p, entries[0], p.rest), entries[1..], e, l);
    }
  }

  ghost function Names(m: map<OfferingId, seq<byte>>): map<OfferingId, seq<byte>> {
    map id | id in m :: id
  }

  /** Bytes all definitions take up with their identifiers and length fields, in any order. */
  ghost function BodyBytes(m: map<OfferingId, seq<byte>>): nat {
    8 * |m| + DefinitionBytes(m) + DefinitionBytes(Names(m))
  }

  lemma BodyBytesWithout(m: map<OfferingId, seq<byte>>, id: OfferingId)
    requires id in m
    ensures BodyBytes(m) == 8 + |id| + |m[id]| + BodyBytes(m - {id})
  {
    hide DefinitionBytes;
    DefinitionBytesWithout(m, id);
    DefinitionBytesWithout(Names(m), id);
    FewerDefinitions(m, id);
    assert Names(m) - {id} == Names(m - {id});
  }

  /** What can be written at all. */
  ghost predicate Storable(r: Stored, l: Limits) {
    && ValidLimits(l)
    && |r.board| <= l.documentBytes && |r.definitions| <= l.definitions && |r.definitions| <= MAX_U32
    && FieldsWithin(r.definitions, l)
    && |r.board| + DefinitionBytes(r.definitions) <= l.publicationBytes
    && 48 + |r.board| + BodyBytes(r.definitions) <= Envelope(l)
  }

  method Put(out: seq<byte>, bytes: seq<byte>, maximum: nat) returns (r: Result<seq<byte>, BoardError>)
    ensures r.Ok? <==> |bytes| <= maximum && |bytes| <= MAX_U32
    ensures r.Ok? ==> r.value == out + Delimited(bytes)
  {
    if |bytes| > maximum || |bytes| > MAX_U32 {
      return Err(Limit);
    }
    assert out + BigEndian32(|bytes|) + bytes == out + (BigEndian32(|bytes|) + bytes);
    return Ok(out + BigEndian32(|bytes|) + bytes);
  }

  /** Some definitions are written, the rest are not. */
  ghost predicate Midway(out: seq<byte>, output: seq<byte>, definitions: map<OfferingId, seq<byte>>,
                         rest: map<OfferingId, seq<byte>>, entries: seq<Entry>, l: Limits, start: Progress)
  {
    && rest.Keys <= definitions.Keys && (forall id :: id in rest ==> rest[id] == definitions[id])
    && AllFit(start, entries, l) && Small(entries) && |entries| + |rest| == |definitions|
    && Collect(entries, map[]) == definitions - rest.Keys
    && DataBytes(entries) + DefinitionBytes(rest) == DefinitionBytes(definitions)
    && output == out + LayEntries(entries) && |output| + BodyBytes(rest) == |out| + BodyBytes(definitions)
    && (forall id :: id in definitions && id !in rest ==> |id| <= l.stringBytes && |definitions[id]| <= l.documentBytes)
  }

  lemma WriteOne(out: seq<byte>, output: seq<byte>, definitions: map<OfferingId, seq<byte>>,
                 rest: map<OfferingId, seq<byte>>, entries: seq<Entry>, l: Limits, start: Progress, id: OfferingId)
    requires Midway(out, output, definitions, rest, entries, l, start) && id in rest && ValidUtf8(id)
    requires start.definitions == map[] && start.total + DefinitionBytes(definitions) <= l.publicationBytes
    requires |id| <= l.stringBytes <= MAX_U32 && |rest[id]| <= l.documentBytes <= MAX_U32
    ensures Midway(out, output + Delimited(id) + Delimited(rest[id]), definitions, rest - {id},
                   entries + [Entry(id, rest[id])], l, start)
  {
    hide DefinitionBytes, ValidUtf8, Delimited, Collect, AllFit, LayEntries, DataBytes, BodyBytes;
    var e, less := Entry(id, rest[id]), rest - {id};
    DefinitionBytesWithout(rest, id);
    BodyBytesWithout(rest, id);
    FewerDefinitions(rest, id);
    DelimitedLength(id);
    DelimitedLength(rest[id]);
    FitPush(start, entries, e, l);
    LayPush(entries, e);
    Appended(out, LayEntries(entries), Delimited(id), Delimited(rest[id]));
    assert definitions - less.Keys == (definitions - rest.Keys)[id := definitions[id]];
  }

  lemma Appended(a: seq<byte>, b: seq<byte>, c: seq<byte>, d: seq<byte>)
    ensures a + b + c + d == a + (b + c + d)
  {
    assert a + b + c + d == a + (b + c + d);
  }

  /** Append every definition, whatever order the table is walked in. */
  method PutAll(out: seq<byte>, definitions: map<OfferingId, seq<byte>>, l: Limits, ghost start: Progress)
    returns (r: Result<seq<byte>, BoardError>, ghost entries: seq<Entry>)
    requires start.definitions == map[] && start.total + DefinitionBytes(definitions) <= l.publicationBytes
    requires l.stringBytes <= MAX_U32 && l.documentBytes <= MAX_U32
    requires forall id :: id in definitions ==> ValidUtf8(id)
    ensures r.Ok? ==>
              && AllFit(start, entries, l) && Small(entries) && |entries| == |definitions|
              && Collect(entries, map[]) == definitions && r.value == out + LayEntries(entries)
              && |r.value| == |out| + BodyBytes(definitions) && FieldsWithin(definitions, l)
    ensures r.Err? ==> !FieldsWithin(definitions, l)
  {
    hide DefinitionBytes, ValidUtf8, Delimited, Collect, AllFit, LayEntries, DataBytes, BodyBytes;
    var output, rest := out, definitions;
    entries := [];
    NothingYet(start, l);
    while rest != map[]
      invariant Midway(out, output, definitions, rest, entries, l, start)
      decreases |rest|
    {
      var id :| id in rest;
      FewerDefinitions(rest, id);
      var named := Put(output, id, l.stringBytes);
      if named.Err? {
        return Err(named.error), entries;
      }
      var filled := Put(named.value, rest[id], l.documentBytes);
      if filled.Err? {
        return Err(filled.error), entries;
      }
      WriteOne(out, output, definitions, rest, entries, l, start, id);
      entries := entries + [Entry(id, rest[id])];
      output := filled.value;
      rest := rest - {id};
    }
    EmptyBody();
    return Ok(output), entries;
  }

  lemma EmptyBody()
    ensures BodyBytes(map[]) == 0
  {
    assert Names(map[]) == map[];
  }

  lemma DelimitedLength(b: seq<byte>)
    requires |b| <= MAX_U32
    ensures |Delimited(b)| == 4 + |b|
  {
  }

  lemma NothingYet(p: Progress, l: Limits)
    ensures AllFit(p, [], l) && Collect([], map[]) == map[] && DataBytes([]) == 0 && LayEntries([]) == []
  {
  }

  /** Only complete records within every limit are written, and what is written decodes to the same record. */
  method Encode(r: Stored, l: Limits) returns (out: Result<seq<byte>, BoardError>)
    requires forall id :: id in r.definitions ==> ValidUtf8(id)
    ensures out.Ok? <==> Storable(r, l)
    ensures out.Ok? ==> Decoded(out.value, l) == Ok(r)
  {
    hide DefinitionBytes, ValidUtf8, Delimited, AllFit, LayEntries, Collect, Decoded, BodyBytes, FieldsWithin;
    if !ValidLimits(l) {
      return Err(Invalid);
    }
    if |r.definitions| > l.definitions {
      return Err(Limit);
    }
    var total := TotalBytes(Record(0, r.board, r.definitions));
    if total > l.publicationBytes {
      return Err(Limit);
    }
    var board := Put(MAGIC + r.publisher, r.board, l.documentBytes);
    if board.Err? {
      return Err(board.error);
    }
    if |r.definitions| > MAX_U32 {
      return Err(Limit);
    }
    DelimitedLength(r.board);
    var head := board.value + BigEndian32(|r.definitions|);
    var body;
    ghost var entries;
    body, entries := PutAll(head, r.definitions, l, Progress(map[], |r.board|, []));
    if body.Err? {
      return Err(body.error);
    }
    if |body.value| > Envelope(l) {
      return Err(Limit);
    }
    assert IsLayout(body.value, r, entries, l);
    DecodedExactly(body.value, r, l);
    return body;
  }

  /** The reader: a cursor that advances field by field over the input. */
  method Decode(bytes: seq<byte>, l: Limits) returns (r: Result<Stored, BoardError>)
    ensures r == Decoded(bytes, l)
  {
    hide Field, Number, NextEntry, ValidUtf8;
    if !ValidLimits(l) {
      return Err(Invalid);
    }
    if |bytes| > Envelope(l) {
      return Err(Limit);
    }
    if |bytes| < 8 || bytes[..8] != MAGIC {
      return Err(Invalid);
    }
    var rest := bytes[8..];
    if |rest| < 32 {
      return Err(Invalid);
    }
    var publisher := rest[..32];
    rest := rest[32..];
    assert publisher == bytes[8..40] && rest == bytes[40..];
    var board := Field(rest, l.documentBytes);
    if board.Err? {
      return Err(board.error);
    }
    var count := Number(board.value.rest);
    if count.Err? {
      return Err(count.error);
    }
    if count.value.value > l.definitions {
      return Err(Limit);
    }
    var state := Progress(map[], |board.value.value|, count.value.rest);
    var n := count.value.value;
    ghost var start := state;
    for i := 0 to n
      invariant Entries(start, n, l) == Entries(state, n - i, l)
    {
      var next := NextEntry(state, l);
      if next.Err? {
        return Err(next.error);
      }
      state := next.value;
    }
    if state.rest != [] {
      return Err(Invalid);
    }
    return Ok(Stored(publisher, board.value.value, state.definitions));
  }
}
