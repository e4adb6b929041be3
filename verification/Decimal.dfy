/** Exact unsigned integers from JSON number tokens (section 6 of RFC 8259), without rounding. */
module Decimal {
  import opened Bytes

  predicate Digits(s: string) {
    forall i :: 0 <= i < |s| ==> '0' <= s[i] <= '9'
  }

  function DigitOf(c: char): (d: nat)
    requires '0' <= c <= '9'
    ensures d <= 9
  {
    (c - '0') as nat
  }

  function NatOf(s: string): nat
    requires Digits(s)
  {
    if s == "" then 0 else NatOf(s[..|s| - 1]) * 10 + DigitOf(s[|s| - 1])
  }

  ghost function Pow10(n: nat): (p: nat)
    ensures p >= 1
  {
    if n == 0 then 1 else 10 * Pow10(n - 1)
  }

  datatype Exponent = Exponent(marker: char, sign: Option<char>, digits: string)

  /** A number as the grammar reads it; leading zeros of the whole part are tolerated. */
  datatype Token = Token(negative: bool, whole: string, fraction: Option<string>, exponent: Option<Exponent>)
  {
    ghost predicate Valid() {
      && whole != "" && Digits(whole)
      && (fraction.Some? ==> fraction.value != "" && Digits(fraction.value))
      && (exponent.Some? ==>
            && exponent.value.marker in {'e', 'E'}
            && (exponent.value.sign.Some? ==> exponent.value.sign.value in {'+', '-'})
            && exponent.value.digits != "" && Digits(exponent.value.digits))
    }

    ghost function Mantissa(): string {
      whole + if fraction.Some? then "." + fraction.value else ""
    }

    ghost function ExponentText(): string {
      if exponent.None? then "0"
      else (if exponent.value.sign.Some? then [exponent.value.sign.value] else "") + exponent.value.digits
    }

    ghost function Body(): string {
      Mantissa() + if exponent.Some? then [exponent.value.marker] + ExponentText() else ""
    }

    ghost function Text(): string {
      (if negative then "-" else "") + Body()
    }

    ghost function AllDigits(): string {
      whole + if fraction.Some? then fraction.value else ""
    }

    ghost function FractionDigits(): nat {
      if fraction.Some? then |fraction.value| else 0
    }

    ghost function Scale(): int
      requires Valid()
    {
      if exponent.None? then 0
      else if exponent.value.sign == Some('-') then -(NatOf(exponent.value.digits) as int)
      else NatOf(exponent.value.digits) as int
    }

    /** The token's rational value is exactly the integer `v`. */
    ghost predicate Denotes(v: int)
      requires Valid()
    {
      Denoted(negative, AllDigitsValue(), Scale() - (FractionDigits() as int), v)
    }

    ghost function AllDigitsValue(): nat
      requires Valid()
    {
      NatOf(AllDigits())
    }
  }

  /** `v` is plus or minus `m` times ten to the `shift`, stated without fractions. */
  ghost predicate Denoted(negative: bool, m: nat, shift: int, v: int) {
    var signed: int := if negative then -(m as int) else m;
    if shift >= 0 then v == signed * Pow10(shift) else v * Pow10(-shift) == signed
  }

  // ---------------------------------------------------------------- powers and digit strings

  lemma {:induction false} Pow10Sum(a: nat, b: nat)
    ensures Pow10(a + b) == Pow10(a) * Pow10(b)
  {
    if a > 0 {
      Pow10Sum(a - 1, b);
      assert Pow10(a + b) == 10 * Pow10(a - 1 + b);
      assert 10 * (Pow10(a - 1) * Pow10(b)) == 10 * Pow10(a - 1) * Pow10(b);
    }
  }

  lemma Pow10Grows(a: nat, b: nat)
    requires a <= b
    ensures Pow10(a) <= Pow10(b)
  {
    Pow10Sum(a, b - a);
    Multiplied(Pow10(a), 1, Pow10(b - a));
  }

  lemma Multiplied(a: nat, b: nat, c: nat)
    requires b <= c
    ensures a * b <= a * c
  {
  }

  lemma {:induction false} NatOfConcat(a: string, b: string)
    requires Digits(a) && Digits(b)
    ensures Digits(a + b) && NatOf(a + b) == NatOf(a) * Pow10(|b|) + NatOf(b)
  {
    hide NatOf, Pow10;
    if b == "" {
      assert a + b == a;
      NatOfNothing(a);
    } else {
      var n := |b| - 1;
      var c := b[..n];
      assert Digits(c) && a + b == a + c + [b[n]] && b == c + [b[n]];
      NatOfConcat(a, c);
      NatOfPush(a + c, b[n]);
      NatOfPush(c, b[n]);
      PushedPower(NatOf(a), n, NatOf(c), DigitOf(b[n]));
    }
  }

  lemma NatOfNothing(a: string)
    requires Digits(a)
    ensures NatOf(a) == NatOf(a) * Pow10(0) + NatOf("")
  {
  }

  lemma NatOfPush(s: string, c: char)
    requires Digits(s) && '0' <= c <= '9'
    ensures Digits(s + [c]) && NatOf(s + [c]) == NatOf(s) * 10 + DigitOf(c)
  {
    var all := s + [c];
    assert all[..|s|] == s && all[|s|] == c;
  }

  lemma PushedPower(x: int, n: nat, y: int, d: int)
    ensures (x * Pow10(n) + y) * 10 + d == x * Pow10(n + 1) + (y * 10 + d)
  {
    var p := Pow10(n);
    assert Pow10(n + 1) == 10 * p;
    Shifted(x, p, y, d);
  }

  lemma Shifted(x: int, p: int, y: int, d: int)
    ensures (x * p + y) * 10 + d == x * (10 * p) + (y * 10 + d)
  {
    assert x * (10 * p) == 10 * (x * p);
  }

  lemma {:induction false} NatOfBounds(s: string)
    requires Digits(s)
    ensures NatOf(s) < Pow10(|s|)
    ensures s != "" && s[0] != '0' ==> NatOf(s) >= Pow10(|s| - 1)
    ensures NatOf(s) == 0 <==> forall i :: 0 <= i < |s| ==> s[i] == '0'
  {
    if s != "" {
      var n := |s| - 1;
      NatOfBounds(s[..n]);
      if n > 0 && s[0] != '0' {
        assert s[..n][0] == s[0];
      }
    }
  }

  /** Ten to the twentieth does not fit a 64-bit word. */
  lemma TooLarge(n: nat)
    requires n >= 20
    ensures Pow10(n) > MAX_U64
  {
    assert Pow10(20) > MAX_U64 by {
      Pow10Sum(10, 10);
      assert Pow10(10) == 10_000_000_000;
    }
    Pow10Grows(20, n);
  }

  // ---------------------------------------------------------------- taking the token apart

  /** Position of the first of the given characters, or the length if none occurs. */
  ghost function FirstOf(s: string, marks: set<char>): (i: nat)
    ensures i <= |s| && (forall j :: 0 <= j < i ==> s[j] !in marks) && (i < |s| ==> s[i] in marks)
  {
    if s == "" || s[0] in marks then 0 else 1 + FirstOf(s[1..], marks)
  }

  lemma FirstOfIs(s: string, marks: set<char>, k: nat)
    requires k <= |s| && (forall j :: 0 <= j < k ==> s[j] !in marks) && (k < |s| ==> s[k] in marks)
    ensures FirstOf(s, marks) == k
  {
  }

  /** Scans for the first of two characters. */
  method Find(s: string, x: char, y: char) returns (i: nat)
    ensures i == FirstOf(s, {x, y})
  {
    i := 0;
    while i < |s| && s[i] != x && s[i] != y
      invariant i <= |s| && forall j :: 0 <= j < i ==> s[j] !in {x, y}
    {
      i := i + 1;
    }
    FirstOfIs(s, {x, y}, i);
  }

  ghost function Undotted(s: string): string {
    if s == "" then "" else Undotted(s[..|s| - 1]) + if s[|s| - 1] == '.' then "" else [s[|s| - 1]]
  }

  method WithoutDots(s: string) returns (r: string)
    ensures r == Undotted(s)
  {
    r := "";
    for i := 0 to |s|
      invariant r == Undotted(s[..i])
    {
      assert s[..i + 1][..i] == s[..i];
      if s[i] != '.' {
        r := r + [s[i]];
      }
    }
    assert s[..|s|] == s;
  }

  lemma {:induction false} UndottedConcat(a: string, b: string)
    ensures Undotted(a + b) == Undotted(a) + Undotted(b)
  {
    if b == "" {
      assert a + b == a;
    } else {
      var n := |b| - 1;
      UndottedConcat(a, b[..n]);
      assert (a + b)[..|a + b| - 1] == a + b[..n];
    }
  }

  lemma {:induction false} UndottedDigits(s: string)
    requires Digits(s)
    ensures Undotted(s) == s
  {
    if s != "" {
      UndottedDigits(s[..|s| - 1]);
    }
  }

  method TrimZeros(s: string) returns (r: string)
    requires Digits(s)
    ensures Digits(r) && |r| <= |s| && NatOf(r) == NatOf(s) && (r != "" ==> r[0] != '0')
  {
    r := s;
    while r != "" && r[0] == '0'
      invariant Digits(r) && |r| <= |s| && NatOf(r) == NatOf(s)
      decreases |r|
    {
      assert r == "0" + r[1..];
      NatOfConcat("0", r[1..]);
      assert NatOf("0") == 0 by { assert "0"[..0] == ""; }
      r := r[1..];
    }
  }

  const TWO_63: int := 0x8000_0000_0000_0000

  /** Signed 64-bit parsing of an optionally signed digit string. */
  function ParseI64(s: string): Option<int> {
    var signed := s != "" && (s[0] == '+' || s[0] == '-');
    var digits := if signed then s[1..] else s;
    if digits == "" || !Digits(digits) then None
    else
      var n: int := if signed && s[0] == '-' then -(NatOf(digits) as int) else NatOf(digits) as int;
      if -TWO_63 <= n < TWO_63 then Some(n) else None
  }

  lemma ExponentParses(t: Token)
    requires t.Valid()
    ensures ParseI64(t.ExponentText()) == if -TWO_63 <= t.Scale() < TWO_63 then Some(t.Scale()) else None
  {
    var s := t.ExponentText();
    if t.exponent.None? {
      assert s == "0" && NatOf("0") == 0 by { assert "0"[..0] == ""; }
    } else if t.exponent.value.sign.Some? {
      assert s[1..] == t.exponent.value.digits && s[0] == t.exponent.value.sign.value;
    } else {
      assert s == t.exponent.value.digits;
      assert '0' <= s[0] <= '9';
    }
  }

  // ---------------------------------------------------------------- when there is no integer

  lemma NegativeHasNone(m: nat, shift: int, v: nat)
    requires m > 0
    ensures !Denoted(true, m, shift, v)
  {
    if shift >= 0 {
      Multiplied(m, 1, Pow10(shift));
      assert -(m as int) * Pow10(shift) == -(m * Pow10(shift));
    }
  }

  lemma ZeroIsZero(negative: bool, shift: int, v: int)
    ensures Denoted(negative, 0, shift, v) <==> v == 0
  {
    if shift < 0 && v != 0 {
      assert v * Pow10(-shift) != 0;
    }
  }

  /** Fewer digits than places to drop: strictly between zero and one. */
  lemma FractionHasNone(m: nat, n: nat, shift: int, v: nat)
    requires 0 < m < Pow10(n) && shift < 0 && n <= -shift
    ensures !Denoted(false, m, shift, v)
  {
    Pow10Grows(n, -shift);
    if v > 0 {
      Multiplied(Pow10(-shift), 1, v);
    }
  }

  lemma HugeHasNone(m: nat, n: nat, shift: nat, v: u64)
    requires n >= 1 && m >= Pow10(n - 1) && n + shift > 20
    ensures m * Pow10(shift) > MAX_U64
    ensures !Denoted(false, m, shift, v)
  {
    Pow10Sum(n - 1, shift);
    TooLarge(n - 1 + shift);
    assert m * Pow10(shift) >= Pow10(n - 1) * Pow10(shift);
  }

  /** Dropping places keeps an integer exactly when only zeros are dropped. */
  lemma DroppedPlaces(head: string, tail: string, shift: int, v: nat)
    requires Digits(head) && Digits(tail) && shift == -(|tail| as int) < 0
    ensures Digits(head + tail)
    ensures Denoted(false, NatOf(head + tail), shift, v) <==> NatOf(tail) == 0 && v == NatOf(head)
  {
    NatOfConcat(head, tail);
    NatOfBounds(tail);
    Quotient(NatOf(head), Pow10(|tail|), NatOf(tail), v);
  }

  lemma Quotient(h: nat, p: nat, t: nat, v: nat)
    requires t < p
    ensures v * p == h * p + t <==> t == 0 && v == h
  {
    if v * p == h * p + t {
      assert (v - h) * p == t;
      if v > h {
        Multiplied(p, 1, v - h);
      } else if v < h {
        Multiplied(p, 1, h - v);
      }
    }
  }

  // ---------------------------------------------------------------- accumulation

  /** Digits, then zeros, in checked 64-bit arithmetic. */
  method Accumulate(digits: string, zeros: nat) returns (r: Option<u64>)
    requires Digits(digits)
    ensures var v := NatOf(digits) * Pow10(zeros);
            r == if v <= MAX_U64 then Some(v) else None
  {
    var amount: nat := 0;
    for i := 0 to |digits|
      invariant amount == NatOf(digits[..i]) <= MAX_U64
    {
      assert digits[..i + 1][..i] == digits[..i];
      PrefixIsSmaller(digits, i + 1, zeros);
      amount := amount * 10 + DigitOf(digits[i]);
      if amount > MAX_U64 {
        return None;
      }
    }
    assert digits[..|digits|] == digits;
    for i := 0 to zeros
      invariant amount == NatOf(digits) * Pow10(i) <= MAX_U64
    {
      Tenfold(NatOf(digits), i, zeros);
      amount := amount * 10;
      if amount > MAX_U64 {
        return None;
      }
    }
    return Some(amount);
  }

  lemma PrefixIsSmaller(digits: string, i: nat, zeros: nat)
    requires Digits(digits) && i <= |digits|
    ensures NatOf(digits[..i]) <= NatOf(digits) * Pow10(zeros)
  {
    var rest := digits[i..];
    assert digits == digits[..i] + rest;
    NatOfConcat(digits[..i], rest);
    Multiplied(NatOf(digits[..i]), 1, Pow10(|rest|));
    Multiplied(NatOf(digits), 1, Pow10(zeros));
  }

  lemma Tenfold(m: nat, i: nat, zeros: nat)
    requires i < zeros
    ensures m * Pow10(i) * 10 == m * Pow10(i + 1) <= m * Pow10(zeros)
  {
    Pow10Grows(i + 1, zeros);
    Multiplied(m, Pow10(i + 1), Pow10(zeros));
    assert m * (10 * Pow10(i)) == m * Pow10(i) * 10;
  }

  // ---------------------------------------------------------------- the whole token

  lemma PlainDigits(t: Token)
    requires t.Valid()
    ensures Digits(t.AllDigits()) && Undotted(t.Mantissa()) == t.AllDigits()
  {
    hide Undotted;
    UndottedDigits(t.whole);
    if t.fraction.Some? {
      var w, f := t.whole, t.fraction.value;
      calc {
        Undotted(t.Mantissa());
        { UndottedConcat(w, "." + f); }
        Undotted(w) + Undotted("." + f);
        { UndottedConcat(".", f); }
        Undotted(w) + (Undotted(".") + Undotted(f));
        { PointVanishes(); UndottedDigits(f); }
        w + f;
      }
    } else {
      assert t.Mantissa() == t.whole == t.AllDigits();
    }
  }

  lemma PointVanishes()
    ensures Undotted(".") == ""
  {
    assert "."[..0] == "";
  }

  /** The point is where the fraction starts. */
  lemma PointIs(t: Token)
    requires t.Valid()
    ensures FirstOf(t.Mantissa(), {'.', '.'}) == |t.whole|
    ensures t.FractionDigits() == if |t.whole| < |t.Mantissa()| then |t.Mantissa()| - |t.whole| - 1 else 0
  {
    FirstOfIs(t.Mantissa(), {'.', '.'}, |t.whole|);
  }

  /** The marker is where the exponent starts. */
  lemma MarkerIs(t: Token)
    requires t.Valid()
    ensures var body, i := t.Body(), |t.Mantissa()|;
            && FirstOf(body, {'e', 'E'}) == i && body[..i] == t.Mantissa()
            && t.ExponentText() == if i < |body| then body[i + 1..] else "0"
  {
    var m, body := t.Mantissa(), t.Body();
    MantissaHasNoMarker(t);
    assert body[..|m|] == m;
    FirstOfIs(body, {'e', 'E'}, |m|);
  }

  lemma MantissaHasNoMarker(t: Token)
    requires t.Valid()
    ensures forall j :: 0 <= j < |t.Mantissa()| ==> t.Mantissa()[j] !in {'e', 'E'}
  {
  }

  lemma SignIs(t: Token)
    requires t.Valid()
    ensures t.Text() != "" && (t.Text()[0] == '-' <==> t.negative)
    ensures t.Body() == if t.negative then t.Text()[1..] else t.Text()
  {
    var body := t.Body();
    assert body[0] == t.whole[0];
    assert "" + body == body;
  }

  /** A scale beyond the 64-bit range leaves no integer, because the token is too short to make up for it. */
  lemma FarScale(t: Token, digits: string, v: u64)
    requires t.Valid() && |t.Text()| < TWO_63 && !t.negative
    requires Digits(digits) && digits != "" && digits[0] != '0' && |digits| <= |t.AllDigits()|
             && NatOf(digits) == t.AllDigitsValue()
    requires t.Scale() >= TWO_63 || t.Scale() - (t.FractionDigits() as int) <= -TWO_63
    ensures !t.Denotes(v)
  {
    NatOfBounds(digits);
    Lengths(t);
    if t.Scale() >= TWO_63 {
      var shift: nat := t.Scale() - t.FractionDigits();
      HugeHasNone(NatOf(digits), |digits|, shift, v);
    } else {
      FractionHasNone(NatOf(digits), |digits|, t.Scale() - (t.FractionDigits() as int), v);
    }
  }

  lemma Lengths(t: Token)
    requires t.Valid()
    ensures |t.AllDigits()| <= |t.Text()|
    ensures t.Scale() >= TWO_63 ==> t.FractionDigits() + 20 <= |t.Text()|
  {
    if t.Scale() >= TWO_63 {
      var x := t.exponent.value.digits;
      NatOfBounds(x);
      Eighteen();
      if |x| <= 18 {
        Pow10Grows(|x|, 18);
      }
    }
  }

  lemma Eighteen()
    ensures Pow10(18) < TWO_63
  {
    Pow10Sum(9, 9);
    assert Pow10(9) == 1_000_000_000;
  }

  /** The exact unsigned integer a token denotes, or none: both ways, for every mix of its parts. */
  method Integer(text: string, ghost t: Token) returns (r: Option<u64>)
    requires t.Valid() && text == t.Text() && |text| < TWO_63
    ensures match r
            case Some(v) => t.Denotes(v)
            case None => forall v: u64 :: !t.Denotes(v)
  {
    hide Undotted, NatOf, Pow10, Denoted, FirstOf;
    SignIs(t);
    MarkerIs(t);
    PlainDigits(t);
    var negative := text[0] == '-';
    var body := if negative then text[1..] else text;
    var split := Find(body, 'e', 'E');
    var mantissa := body[..split];
    var exponentText := if split < |body| then body[split + 1..] else "0";
    var all := WithoutDots(mantissa);
    var digits := TrimZeros(all);
    if digits == "" {
      assert t.AllDigitsValue() == 0 by { NothingIsZero(); }
      ZeroIsZero(negative, t.Scale() - (t.FractionDigits() as int), 0);
      return Some(0);
    }
    NatOfBounds(digits);
    if negative {
      forall v: u64
        ensures !t.Denotes(v)
      {
        Positive(digits);
        NegativeHasNone(t.AllDigitsValue(), t.Scale() - (t.FractionDigits() as int), v);
      }
      return None;
    }
    r := Scaled(mantissa, exponentText, digits, t);
  }

  lemma NothingIsZero()
    ensures NatOf("") == 0
  {
  }

  lemma Positive(digits: string)
    requires Digits(digits) && digits != "" && digits[0] != '0'
    ensures NatOf(digits) > 0
  {
    NatOfBounds(digits);
  }

  /** The positive case: shift the significant digits by exponent and fraction. */
  method Scaled(mantissa: string, exponentText: string, digits: string, ghost t: Token) returns (r: Option<u64>)
    requires t.Valid() && !t.negative && |t.Text()| < TWO_63
    requires mantissa == t.Mantissa() && exponentText == t.ExponentText()
    requires Digits(digits) && digits != "" && digits[0] != '0' && |digits| <= |t.AllDigits()|
             && NatOf(digits) == t.AllDigitsValue()
    ensures match r
            case Some(v) => t.Denotes(v)
            case None => forall v: u64 :: !t.Denotes(v)
  {
    hide Undotted, NatOf, Pow10, Denoted, FirstOf, ParseI64;
    ExponentParses(t);
    PointIs(t);
    var exponent := ParseI64(exponentText);
    if exponent.None? {
      forall v: u64 { FarScale(t, digits, v); }
      return None;
    }
    var point := Find(mantissa, '.', '.');
    var fraction := if point < |mantissa| then |mantissa| - point - 1 else 0;
    var shift := exponent.value - (fraction as int);
    if shift <= -TWO_63 {
      forall v: u64 { FarScale(t, digits, v); }
      return None;
    }
    if shift < 0 {
      r := DropPlaces(digits, shift);
    } else {
      r := AddPlaces(digits, shift);
    }
  }

  method DropPlaces(digits: string, shift: int) returns (r: Option<u64>)
    requires Digits(digits) && digits != "" && digits[0] != '0' && shift < 0
    ensures match r
            case Some(v) => Denoted(false, NatOf(digits), shift, v)
            case None => forall v: u64 :: !Denoted(false, NatOf(digits), shift, v)
  {
    hide Denoted, NatOf;
    NatOfBounds(digits);
    Positive(digits);
    if -shift > |digits| {
      forall v: u64 { FractionHasNone(NatOf(digits), |digits|, shift, v); }
      return None;
    }
    var keep := |digits| + shift;
    var head, tail := digits[..keep], digits[keep..];
    assert digits == head + tail;
    forall v: u64 { DroppedPlaces(head, tail, shift, v); }
    NatOfBounds(tail);
    NatOfBounds(head);
    if exists i :: 0 <= i < |tail| && tail[i] != '0' {
      return None;
    }
    assert keep == 0 ==> tail == digits;
    if |head| > 20 {
      HugeHasNone(NatOf(head), |head|, 0, 0);
      return None;
    }
    r := Accumulate(head, 0);
  }

  method AddPlaces(digits: string, zeros: nat) returns (r: Option<u64>)
    requires Digits(digits) && digits != "" && digits[0] != '0'
    ensures match r
            case Some(v) => Denoted(false, NatOf(digits), zeros, v)
            case None => forall v: u64 :: !Denoted(false, NatOf(digits), zeros, v)
  {
    NatOfBounds(digits);
    if |digits| + zeros > 20 {
      forall v: u64 { HugeHasNone(NatOf(digits), |digits|, zeros, v); }
      return None;
    }
    r := Accumulate(digits, zeros);
  }
}
