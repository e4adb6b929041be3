/** Identity text: 32 bytes as 52 Base32 symbols (section 6 of RFC 4648) behind a fixed prefix. */
module Base32 {
  import opened Bytes

  const ID_BYTES := 32
  const SYMBOLS := 52
  const TEXT_BYTES := 58

  /** ASCII of "cr2se:". */
  const PREFIX: seq<byte> := [0x63, 0x72, 0x32, 0x73, 0x65, 0x3A]

  // ---------------------------------------------------------------- positional notation

  ghost function Power(b: nat, n: nat): nat {
    if n == 0 then 1 else b * Power(b, n - 1)
  }

  ghost predicate Below(ds: seq<nat>, b: nat) {
    forall i :: 0 <= i < |ds| ==> ds[i] < b
  }

  /** Most significant digit first. */
  ghost function Value(ds: seq<nat>, b: nat): nat {
    if ds == [] then 0 else Value(ds[..|ds| - 1], b) * b + ds[|ds| - 1]
  }

  /** The two bases in use: symbols and bytes. */
  predicate Base(b: nat) {
    b == 32 || b == 256
  }

  ghost function Quotient(v: nat, b: nat): nat
    requires Base(b)
  {
    if b == 32 then v / 32 else v / 256
  }

  ghost function Remainder(v: nat, b: nat): (r: nat)
    requires Base(b)
    ensures r < b && Quotient(v, b) * b + r == v
  {
    if b == 32 then v % 32 else v % 256
  }

  ghost function Notation(v: nat, b: nat, n: nat): (ds: seq<nat>)
    requires Base(b)
    ensures |ds| == n && Below(ds, b)
  {
    if n == 0 then [] else Notation(Quotient(v, b), b, n - 1) + [Remainder(v, b)]
  }

  lemma {:induction false} PowerSum(b: nat, m: nat, n: nat)
    ensures Power(b, m + n) == Power(b, m) * Power(b, n)
  {
    if m > 0 {
      PowerSum(b, m - 1, n);
      assert Power(b, m + n) == b * Power(b, m - 1 + n);
      Associates(b, Power(b, m - 1), Power(b, n));
    }
  }

  lemma Associates(a: nat, b: nat, c: nat)
    ensures a * (b * c) == a * b * c
  {
  }

  lemma {:induction false} ValueBound(ds: seq<nat>, b: nat)
    requires Below(ds, b)
    ensures Value(ds, b) < Power(b, |ds|)
  {
    if ds != [] {
      var n := |ds| - 1;
      var v, d, p := Value(ds[..n], b), ds[n], Power(b, n);
      ValueBound(ds[..n], b);
      assert v * b + d < (v + 1) * b;
      assert (v + 1) * b <= p * b by { Times(v + 1, p, b); }
      assert p * b == b * p;
    }
  }

  lemma Times(a: nat, c: nat, b: nat)
    requires a <= c
    ensures a * b <= c * b
  {
  }

  /** Every number below the bound is the value of its notation. */
  lemma {:induction false} ValueOfNotation(v: nat, b: nat, n: nat)
    requires Base(b) && v < Power(b, n)
    ensures Value(Notation(v, b, n), b) == v
  {
    hide Quotient, Remainder;
    if n > 0 {
      var q, r := Quotient(v, b), Remainder(v, b);
      assert q < Power(b, n - 1) by { Shrinks(q, r, b, Power(b, n - 1)); }
      ValueOfNotation(q, b, n - 1);
      var ds := Notation(v, b, n);
      assert ds[..n - 1] == Notation(q, b, n - 1) && ds[n - 1] == r;
    }
  }

  lemma Shrinks(q: nat, r: nat, b: nat, p: nat)
    requires q * b + r < b * p
    ensures q < p
  {
    if q >= p {
      Times(p, q, b);
    }
  }

  /** Digits are determined by their value and number. */
  lemma {:induction false} NotationOfValue(ds: seq<nat>, b: nat)
    requires Base(b) && Below(ds, b)
    ensures Notation(Value(ds, b), b, |ds|) == ds
  {
    if ds != [] {
      var n := |ds| - 1;
      NotationOfValue(ds[..n], b);
      SplitOff(Value(ds[..n], b), b, ds[n]);
      assert ds == ds[..n] + [ds[n]];
    }
  }

  lemma SplitOff(v: nat, b: nat, d: nat)
    requires Base(b) && d < b
    ensures Quotient(v * b + d, b) == v && Remainder(v * b + d, b) == d
  {
    var q, r := Quotient(v * b + d, b), Remainder(v * b + d, b);
    Unique(q, r, v, d, b);
  }

  lemma Unique(q: nat, r: nat, v: nat, d: nat, b: nat)
    requires r < b && d < b && q * b + r == v * b + d
    ensures q == v && r == d
  {
    if q > v {
      Times(1, q - v, b);
    } else if q < v {
      Times(1, v - q, b);
    }
  }

  /** 256 bits and four zero bits fill 52 symbols exactly. */
  lemma Capacity()
    ensures Power(256, ID_BYTES) * 16 == Power(32, SYMBOLS)
  {
    PowerOfPower(8, ID_BYTES);
    PowerOfPower(5, SYMBOLS);
    assert Power(2, 8) == 256 && Power(2, 5) == 32 && Power(2, 4) == 16;
    PowerSum(2, 256, 4);
  }

  lemma {:induction false} PowerOfPower(k: nat, n: nat)
    ensures Power(Power(2, k), n) == Power(2, k * n)
  {
    if n > 0 {
      PowerOfPower(k, n - 1);
      assert k * n == k + k * (n - 1);
      PowerSum(2, k, k * (n - 1));
    }
  }

  // ---------------------------------------------------------------- symbols and the reference codec

  type Id = s: seq<byte> | |s| == 32 witness seq(32, _ => 0)

  function Symbol(d: nat): byte
    requires d < 32
  {
    if d < 26 then 0x41 + d else 0x32 + d - 26
  }

  /** Letters count in either case. */
  function SymbolValue(b: byte): (r: Option<nat>)
    ensures r.Some? ==> r.value < 32
  {
    if 0x41 <= b <= 0x5A then Some(b - 0x41)
    else if 0x61 <= b <= 0x7A then Some(b - 0x61)
    else if 0x32 <= b <= 0x37 then Some(b - 0x32 + 26)
    else None
  }

  ghost function Spelled(ds: seq<nat>): (r: seq<byte>)
    requires Below(ds, 32)
    ensures |r| == |ds| && forall i :: 0 <= i < |ds| ==> r[i] == Symbol(ds[i])
  {
    seq(|ds|, i requires 0 <= i < |ds| => Symbol(ds[i]))
  }

  ghost predicate AllSymbols(t: seq<byte>) {
    forall i :: 0 <= i < |t| ==> SymbolValue(t[i]).Some?
  }

  ghost function Read(t: seq<byte>): (ds: seq<nat>)
    requires AllSymbols(t)
    ensures |ds| == |t| && Below(ds, 32) && forall i :: 0 <= i < |t| ==> SymbolValue(t[i]) == Some(ds[i])
  {
    seq(|t|, i requires 0 <= i < |t| => SymbolValue(t[i]).value)
  }

  /** The canonical text: the identity's 256 bits and four zero bits in 52 symbols. */
  ghost function Text(id: Id): (t: seq<byte>)
    ensures |t| == TEXT_BYTES && t[..6] == PREFIX
  {
    PREFIX + Spelled(Notation(Value(id, 256) * 16, 32, SYMBOLS))
  }

  ghost predicate Readable(t: seq<byte>) {
    |t| == TEXT_BYTES && t[..6] == PREFIX && AllSymbols(t[6..]) && Value(Read(t[6..]), 32) % 16 == 0
  }

  /** The identity a text stands for: symbols only, and the four spare bits zero. */
  ghost function Parsed(t: seq<byte>): Option<Id> {
    if Readable(t) then Some(AsId(Notation(Value(Read(t[6..]), 32) / 16, 256, ID_BYTES))) else None
  }

  ghost function AsId(ds: seq<nat>): (id: Id)
    requires |ds| == ID_BYTES && Below(ds, 256)
    ensures id == ds
  {
    var id: seq<byte> := seq(|ds|, i requires 0 <= i < |ds| => ds[i]);
    assert id == ds;
    id
  }

  /** Equal up to the case of letters behind the prefix. */
  ghost predicate SameLetters(t: seq<byte>, u: seq<byte>) {
    && |t| == |u| && (|t| >= 6 ==> t[..6] == u[..6])
    && forall i :: 6 <= i < |t| ==> t[i] == u[i] || (0x41 <= u[i] <= 0x5A && t[i] == u[i] + 0x20)
  }

  lemma IdBound(id: Id)
    ensures Value(id, 256) * 16 < Power(32, SYMBOLS)
  {
    ValueBound(id, 256);
    Capacity();
    Times(Value(id, 256) + 1, Power(256, ID_BYTES), 16);
  }

  /** The digits of the canonical text read back as exactly the identity's value. */
  lemma TextReads(id: Id)
    ensures AllSymbols(Text(id)[6..])
    ensures Value(Read(Text(id)[6..]), 32) == Value(id, 256) * 16
  {
    hide Value, Notation;
    var v := Value(id, 256) * 16;
    var ds := Notation(v, 32, SYMBOLS);
    var t := Text(id)[6..];
    assert t == Spelled(ds);
    assert forall i :: 0 <= i < |t| ==> SymbolValue(t[i]) == Some(ds[i]);
    assert Read(t) == ds;
    IdBound(id);
    ValueOfNotation(v, 32, SYMBOLS);
  }

  /** Parsing what was formatted gives the identity back. */
  lemma RoundTrip(id: Id)
    ensures Parsed(Text(id)) == Some(id)
  {
    hide Value, Notation, Read, Text;
    TextReads(id);
    assert Value(id, 256) * 16 / 16 == Value(id, 256);
    NotationOfValue(id, 256);
  }

  /** A text stands for an identity exactly when it is that identity's text up to letter case. */
  lemma ParsedExactly(t: seq<byte>, id: Id)
    ensures Parsed(t) == Some(id) <==> SameLetters(t, Text(id))
  {
    if SameLetters(t, Text(id)) {
      SameSymbols(t, Text(id), id);
      RoundTrip(id);
    }
    if Parsed(t) == Some(id) {
      ParsedSpells(t, id);
    }
  }

  lemma SameSymbols(t: seq<byte>, u: seq<byte>, id: Id)
    requires u == Text(id) && SameLetters(t, u)
    ensures AllSymbols(t[6..]) && AllSymbols(u[6..]) && Read(t[6..]) == Read(u[6..])
  {
    hide Value, Notation, Text;
    TextReads(id);
    forall i | 0 <= i < |t[6..]|
      ensures SymbolValue(t[6..][i]) == SymbolValue(u[6..][i])
    {
      assert t[6..][i] == t[i + 6] && u[6..][i] == u[i + 6];
    }
  }

  lemma ParsedSpells(t: seq<byte>, id: Id)
    requires Parsed(t) == Some(id)
    ensures SameLetters(t, Text(id))
  {
    hide Value, Notation;
    var s := t[6..];
    var ds := Read(s);
    var v := Value(ds, 32);
    ValueBound(ds, 32);
    Capacity();
    assert v / 16 < Power(256, ID_BYTES);
    ValueOfNotation(v / 16, 256, ID_BYTES);
    assert Value(id, 256) * 16 == v;
    NotationOfValue(ds, 32);
    var u := Text(id);
    assert u[6..] == Spelled(ds);
    forall i | 6 <= i < |t|
      ensures t[i] == u[i] || (0x41 <= u[i] <= 0x5A && t[i] == u[i] + 0x20)
    {
      assert s[i - 6] == t[i] && u[6..][i - 6] == u[i];
    }
  }

  ghost function Normalized(t: seq<byte>): Option<seq<byte>> {
    if Parsed(t).Some? then Some(Text(Parsed(t).value)) else None
  }

  /** Normalizing twice is normalizing once, and the normal form stands for the same identity. */
  lemma NormalizedTwice(t: seq<byte>)
    requires Normalized(t).Some?
    ensures Normalized(Normalized(t).value) == Normalized(t)
    ensures Parsed(Normalized(t).value) == Parsed(t)
  {
    hide Parsed, Text;
    RoundTrip(Parsed(t).value);
  }

  // ---------------------------------------------------------------- the accumulator loops

  function Shift(n: nat): (p: nat)
    ensures p > 0
  {
    if n == 0 then 1 else 2 * Shift(n - 1)
  }

  lemma ShiftMore(n: nat)
    ensures Shift(n + 8) == 256 * Shift(n) && Shift(n + 5) == 32 * Shift(n)
  {
    assert Shift(n + 2) == 4 * Shift(n);
    assert Shift(n + 4) == 4 * Shift(n + 2);
    assert Shift(n + 6) == 4 * Shift(n + 4);
  }

  /** Small shifts are small numbers. */
  lemma ShiftCases(n: nat)
    requires n <= 7
    ensures Shift(n) == [1, 2, 4, 8, 16, 32, 64, 128][n]
  {
  }

  /** Five more low bits: the symbol above the rest. */
  lemma LowBits(a: nat, n: nat)
    requires n <= 7
    ensures a / Shift(n) % 32 * Shift(n) + a % Shift(n) == a % Shift(n + 5)
  {
    hide Shift;
    ShiftCases(n);
    ShiftMore(n);
    LowBitsOf(a, Shift(n));
  }

  lemma LowBitsOf(a: nat, p: nat)
    requires p > 0
    ensures a / p % 32 * p + a % p == a % (32 * p)
  {
    var q, r := a / p, a % p;
    var k, d := q / 32, q % 32;
    Division(a, p);
    Division(a, 32 * p);
    assert (32 * k + d) * p == k * (32 * p) + d * p;
    Times(d, 31, p);
    Unique(a / (32 * p), a % (32 * p), k, d * p + r, 32 * p);
  }

  lemma Division(a: nat, p: nat)
    requires p > 0
    ensures a / p >= 0 && a == a / p * p + a % p && a % p < p
  {
  }

  lemma ValuePush(ds: seq<nat>, d: nat, b: nat)
    ensures Value(ds + [d], b) == Value(ds, b) * b + d
  {
    assert (ds + [d])[..|ds|] == ds;
  }

  /** Appending a byte to what is already accounted for. */
  lemma TakeByte(v: nat, acc: nat, n: nat, x: nat)
    ensures v * Shift(n + 8) + (acc * 256 + x) == (v * Shift(n) + acc) * 256 + x
  {
    ShiftMore(n);
    assert v * (256 * Shift(n)) == v * Shift(n) * 256;
  }

  /** Moving five bits from the accumulator to the symbols. */
  lemma GiveSymbol(v: nat, a: nat, n: nat)
    requires n <= 7
    ensures (v * 32 + a / Shift(n) % 32) * Shift(n) + a % Shift(n) == v * Shift(n + 5) + a % Shift(n + 5)
  {
    LowBits(a, n);
    ShiftMore(n);
    var d, p := a / Shift(n) % 32, Shift(n);
    assert (v * 32 + d) * p == v * (32 * p) + d * p;
  }

  method Format(id: Id) returns (output: seq<byte>)
    ensures output == Text(id)
  {
    hide Value, Notation, Shift, Power;
    var symbols: seq<byte> := [];
    ghost var ds: seq<nat> := [];
    var accumulator: nat, bits: nat := 0, 0;
    Empty();
    for i := 0 to ID_BYTES
      invariant Below(ds, 32) && symbols == Spelled(ds)
      invariant bits < 5 && accumulator < Shift(bits) && 5 * |ds| + bits == 8 * i
      invariant Value(ds, 32) * Shift(bits) + accumulator == Value(id[..i], 256)
    {
      assert id[..i + 1] == id[..i] + [id[i]];
      ValuePush(id[..i], id[i], 256);
      TakeByte(Value(ds, 32), accumulator, bits, id[i]);
      Room(accumulator, bits, id[i]);
      accumulator := accumulator * 256 + id[i];
      bits := bits + 8;
      assert accumulator < 0x1_0000;
      while bits >= 5
        invariant Below(ds, 32) && symbols == Spelled(ds) && bits <= 12
        invariant 5 * |ds| + bits == 8 * (i + 1)
        invariant Value(ds, 32) * Shift(bits) + accumulator % Shift(bits) == Value(id[..i + 1], 256)
      {
        bits := bits - 5;
        var d := accumulator / Shift(bits) % 32;
        GiveSymbol(Value(ds, 32), accumulator, bits);
        ValuePush(ds, d, 32);
        assert Spelled(ds + [d]) == Spelled(ds) + [Symbol(d)];
        symbols := symbols + [Symbol(d)];
        ds := ds + [d];
      }
      Masked(accumulator, bits);
      accumulator := accumulator % Shift(bits);
    }
    assert id[..ID_BYTES] == id;
    if bits != 0 {
      LastSymbol(accumulator, bits);
      var d := accumulator * Shift(5 - bits);
      ValuePush(ds, d, 32);
      assert Spelled(ds + [d]) == Spelled(ds) + [Symbol(d)];
      symbols := symbols + [Symbol(d)];
      ds := ds + [d];
    }
    NotationOfValue(ds, 32);
    return PREFIX + symbols;
  }

  lemma Empty()
    ensures Value([], 32) == 0 && Value([], 256) == 0 && Shift(0) == 1
  {
  }

  /** Before a byte comes in there is room for it, and nothing is cut off by the coming mask. */
  lemma Room(acc: nat, n: nat, x: byte)
    requires n < 5 && acc < Shift(n)
    ensures acc * 256 + x < Shift(n + 8) <= 4096
    ensures (acc * 256 + x) % Shift(n + 8) == acc * 256 + x
  {
    ShiftCases(n);
    ShiftMore(n);
    Below1(acc * 256 + x, Shift(n + 8));
  }

  lemma Below1(a: nat, p: nat)
    requires a < p
    ensures a % p == a
  {
  }

  lemma Masked(a: nat, n: nat)
    ensures a % Shift(n) < Shift(n)
  {
  }

  /** One bit is left after 32 bytes; it goes out above four zero bits. */
  lemma LastSymbol(acc: nat, bits: nat)
    requires bits == 1 && acc < Shift(bits)
    ensures acc * Shift(5 - bits) < 32
    ensures forall v: nat :: v * 32 + acc * Shift(5 - bits) == (v * Shift(bits) + acc) * 16
  {
    ShiftCases(1);
    ShiftCases(4);
  }

  /** Appending a symbol to what is already accounted for. */
  lemma TakeSymbol(v: nat, acc: nat, n: nat, x: nat)
    ensures v * Shift(n + 5) + (acc * 32 + x) == (v * Shift(n) + acc) * 32 + x
  {
    ShiftMore(n);
    assert v * (32 * Shift(n)) == v * Shift(n) * 32;
  }

  /** Moving eight bits from the accumulator to the bytes. */
  lemma GiveByte(v: nat, a: nat, n: nat)
    requires n <= 4 && a < Shift(n + 8)
    ensures a / Shift(n) < 256
    ensures (v * 256 + a / Shift(n)) * Shift(n) + a % Shift(n) == v * Shift(n + 8) + a
  {
    ShiftCases(n);
    ShiftMore(n);
    var d, p := a / Shift(n), Shift(n);
    assert (v * 256 + d) * p == v * (256 * p) + d * p;
    assert d * p + a % p == a;
  }

  lemma SymbolRoom(acc: nat, n: nat, x: nat)
    requires n < 8 && acc < Shift(n) && x < 32
    ensures acc * 32 + x < Shift(n + 5) && Shift(n + 5) <= 4096
  {
    ShiftCases(n);
    ShiftMore(n);
  }

  lemma ReadPush(t: seq<byte>, i: nat)
    requires i < |t| && AllSymbols(t[..i + 1])
    ensures AllSymbols(t[..i]) && Read(t[..i + 1]) == Read(t[..i]) + [SymbolValue(t[i]).value]
  {
    assert t[..i + 1][i] == t[i];
    assert forall j :: 0 <= j < i ==> t[..i][j] == t[..i + 1][j];
  }

  /** One symbol into the accumulator, and one byte out of it when there is a whole one. */
  method Absorb(acc: nat, n: nat, x: nat, ghost v: nat) returns (accumulator: nat, bits: nat, full: Option<byte>)
    requires n < 8 && acc < Shift(n) && x < 32
    ensures bits < 8 && accumulator < Shift(bits)
    ensures match full
            case None => bits == n + 5 && v * Shift(bits) + accumulator == (v * Shift(n) + acc) * 32 + x
            case Some(y) => bits + 3 == n && (v * 256 + y) * Shift(bits) + accumulator == (v * Shift(n) + acc) * 32 + x
  {
    hide Shift;
    TakeSymbol(v, acc, n, x);
    SymbolRoom(acc, n, x);
    accumulator := acc * 32 + x;
    bits := n + 5;
    assert accumulator < 0x1_0000;
    full := None;
    if bits >= 8 {
      bits := bits - 8;
      GiveByte(v, accumulator, bits);
      full := Some(accumulator / Shift(bits));
      Masked(accumulator, bits);
      accumulator := accumulator % Shift(bits);
    }
  }

  method Parse(text: seq<byte>) returns (r: Option<Id>)
    ensures r == Parsed(text)
  {
    hide Value, Notation, Shift, Power, Read, AllSymbols;
    if |text| != TEXT_BYTES || text[..6] != PREFIX {
      return None;
    }
    var symbols := text[6..];
    var bytes: seq<byte> := [];
    var accumulator: nat, bits: nat := 0, 0;
    Empty();
    NothingRead(symbols);
    for i := 0 to SYMBOLS
      invariant AllSymbols(symbols[..i])
      invariant bits < 8 && accumulator < Shift(bits) && 8 * |bytes| + bits == 5 * i
      invariant Value(bytes, 256) * Shift(bits) + accumulator == Value(Read(symbols[..i]), 32)
    {
      var value := SymbolValue(symbols[i]);
      if value.None? {
        NotASymbol(symbols, i);
        return None;
      }
      NextSymbol(symbols, i);
      ReadPush(symbols, i);
      ValuePush(Read(symbols[..i]), value.value, 32);
      var full: Option<byte>;
      accumulator, bits, full := Absorb(accumulator, bits, value.value, Value(bytes, 256));
      if full.Some? {
        ValuePush(bytes, full.value, 256);
        bytes := bytes + [full.value];
      }
    }
    assert symbols[..SYMBOLS] == symbols;
    SpareBits(Value(bytes, 256), accumulator);
    if accumulator != 0 {
      return None;
    }
    NotationOfValue(bytes, 256);
    return Some(bytes);
  }

  lemma NothingRead(t: seq<byte>)
    ensures AllSymbols(t[..0]) && Value(Read(t[..0]), 32) == 0
  {
    assert Read(t[..0]) == [];
  }

  lemma NotASymbol(t: seq<byte>, i: nat)
    requires i < |t| && SymbolValue(t[i]).None?
    ensures !AllSymbols(t)
  {
  }

  lemma NextSymbol(t: seq<byte>, i: nat)
    requires i < |t| && AllSymbols(t[..i]) && SymbolValue(t[i]).Some?
    ensures AllSymbols(t[..i + 1])
  {
    assert forall j :: 0 <= j < i ==> t[..i + 1][j] == t[..i][j];
  }

  /** Four bits are left after 52 symbols; they must be zero. */
  lemma SpareBits(v: nat, acc: nat)
    requires acc < Shift(4)
    ensures (v * Shift(4) + acc) % 16 == acc && (v * Shift(4) + acc) / 16 == v
  {
    ShiftCases(4);
  }

  method Normalize(text: seq<byte>) returns (r: Option<seq<byte>>)
    ensures r == Normalized(text)
  {
    var id := Parse(text);
    if id.None? {
      return None;
    }
    var canonical := Format(id.value);
    return Some(canonical);
  }
}
