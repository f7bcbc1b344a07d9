/**
 * The two Go library routines the forms rely on, written as specification
 * functions over Dafny strings (sequences of Unicode scalar values):
 *  - strings.TrimSpace, with Go's unicode.IsSpace as the notion of white space;
 *  - strconv.ParseInt(s, 10, 64): an optional sign followed by one or more
 *    ASCII digits, accepted only when the value fits in a signed 64-bit integer.
 * FormatInt (strconv.FormatInt(n, 10)) is the reference rendering ParseInt
 * inverts.
 */
module Text {

  datatype Option<+T> = None | Some(value: T)

  const MinInt64: int := -0x8000_0000_0000_0000
  const MaxInt64: int := 0x7fff_ffff_ffff_ffff

  /** Go's int64. */
  type Int64 = x: int | -0x8000_0000_0000_0000 <= x <= 0x7fff_ffff_ffff_ffff

  /** The code points unicode.IsSpace reports outside the run U+2000..U+200A. */
  const SpaceChars: set<char> := {
    ' ', '\t', '\n', '\r', '\U{0B}', '\U{0C}', '\U{85}', '\U{A0}',
    '\U{1680}', '\U{2028}', '\U{2029}', '\U{202F}', '\U{205F}', '\U{3000}'
  }

  /** unicode.IsSpace: the Latin-1 spaces plus the other White_Space code points. */
  function IsSpace(c: char): (b: bool)
    // in Latin-1 exactly tab, newline, vertical tab, form feed, carriage return, space, NEL and NBSP
    ensures c <= '\U{FF}' ==>
      (b <==> c in {'\t', '\n', '\U{0B}', '\U{0C}', '\r', ' ', '\U{85}', '\U{A0}'})
    ensures '0' <= c <= '9' ==> !b
  {
    c in SpaceChars || '\U{2000}' <= c <= '\U{200A}'
  }

  predicate AllSpace(s: string) {
    forall i :: 0 <= i < |s| ==> IsSpace(s[i])
  }

  /** Drops the leading white space. */
  function TrimLeft(s: string): string {
    if s == [] || !IsSpace(s[0]) then s else TrimLeft(s[1..])
  }

  /** Drops the trailing white space. */
  function TrimRight(s: string): string {
    if s == [] || !IsSpace(s[|s| - 1]) then s else TrimRight(s[..|s| - 1])
  }

  /** TrimLeft keeps the suffix of `s` that starts at its first non-space. */
  lemma {:induction false} TrimLeftSpec(s: string)
    ensures var r := TrimLeft(s);
      && |r| <= |s| && r == s[|s| - |r|..]
      && (forall i :: 0 <= i < |s| - |r| ==> IsSpace(s[i]))
      && (r != [] ==> !IsSpace(r[0]))
  {
    if s != [] && IsSpace(s[0]) {
      TrimLeftSpec(s[1..]);
    }
  }

  /** TrimRight keeps the prefix of `s` that ends at its last non-space. */
  lemma {:induction false} TrimRightSpec(s: string)
    ensures var r := TrimRight(s);
      && |r| <= |s| && r == s[..|r|]
      && (forall i :: |r| <= i < |s| ==> IsSpace(s[i]))
      && (r != [] ==> !IsSpace(r[|r| - 1]))
  {
    if s != [] && IsSpace(s[|s| - 1]) {
      TrimRightSpec(s[..|s| - 1]);
    }
  }

  /** The number of white-space characters TrimSpace drops from the front of `s`. */
  function LeadingSpace(s: string): nat {
    TrimLeftSpec(s);
    |s| - |TrimLeft(s)|
  }

  /** strings.TrimSpace. */
  function TrimSpace(s: string): (r: string)
    ensures r != [] ==> !IsSpace(r[0]) && !IsSpace(r[|r| - 1])
    ensures r == [] <==> AllSpace(s)
    ensures LeadingSpace(s) + |r| <= |s| && r == s[LeadingSpace(s)..LeadingSpace(s) + |r|]
    ensures forall i :: 0 <= i < LeadingSpace(s) ==> IsSpace(s[i])
    ensures forall i :: LeadingSpace(s) + |r| <= i < |s| ==> IsSpace(s[i])
    ensures (s == [] || (!IsSpace(s[0]) && !IsSpace(s[|s| - 1]))) ==> r == s
  {
    TrimFacts(s);
    TrimRight(TrimLeft(s))
  }

  lemma TrimFacts(s: string)
    ensures var r := TrimRight(TrimLeft(s));
      && (r != [] ==> !IsSpace(r[0]) && !IsSpace(r[|r| - 1]))
      && (r == [] <==> AllSpace(s))
      && LeadingSpace(s) + |r| <= |s| && r == s[LeadingSpace(s)..LeadingSpace(s) + |r|]
      && (forall i :: 0 <= i < LeadingSpace(s) ==> IsSpace(s[i]))
      && (forall i :: LeadingSpace(s) + |r| <= i < |s| ==> IsSpace(s[i]))
      && ((s == [] || (!IsSpace(s[0]) && !IsSpace(s[|s| - 1]))) ==> r == s)
  {
    var l := TrimLeft(s);
    TrimLeftSpec(s);
    TrimRightSpec(l);
    var r := TrimRight(l);
    var k := |s| - |l|;
    assert r == s[k..k + |r|];
    if r != [] {
      assert r[0] == l[0];
    }
  }

  /** Trimming twice is trimming once. */
  lemma TrimSpaceIdempotent(s: string)
    ensures TrimSpace(TrimSpace(s)) == TrimSpace(s)
  {
  }

  predicate IsDigit(c: char) {
    '0' <= c <= '9'
  }

  predicate AllDigits(s: string) {
    forall i :: 0 <= i < |s| ==> IsDigit(s[i])
  }

  /** The value of a string of decimal digits, most significant first. */
  function DigitsValue(ds: string): (v: nat)
    requires AllDigits(ds)
  {
    if ds == [] then 0
    else DigitsValue(ds[..|ds| - 1]) * 10 + (ds[|ds| - 1] as int - '0' as int)
  }

  /** The digits ParseInt reads: everything after an optional leading sign. */
  function Magnitude(s: string): string {
    if s != [] && (s[0] == '+' || s[0] == '-') then s[1..] else s
  }

  /** The base-10 grammar of strconv.ParseInt: [+-]?[0-9]+ (no underscores, since the base is given). */
  predicate IsDecimal(s: string) {
    Magnitude(s) != [] && AllDigits(Magnitude(s))
  }

  /** The mathematical value of a string of the grammar. */
  function DecimalValue(s: string): int
    requires IsDecimal(s)
  {
    if s[0] == '-' then 0 - DigitsValue(Magnitude(s)) else DigitsValue(Magnitude(s))
  }

  /**
   * strconv.ParseInt(s, 10, 64) with the error reduced to None: a syntax error
   * (empty string, a lone sign, a non-digit) and a range error both give None.
   */
  function ParseInt(s: string): (r: Option<Int64>)
    ensures r.Some? <==> IsDecimal(s) && MinInt64 <= DecimalValue(s) <= MaxInt64
    ensures r.Some? ==> r.value == DecimalValue(s)
  {
    if s == [] then None
    else
      var digits := Magnitude(s);
      if digits == [] || !AllDigits(digits) then None
      else
        var v: int := if s[0] == '-' then 0 - DigitsValue(digits) else DigitsValue(digits);
        if MinInt64 <= v <= MaxInt64 then Some(v) else None
  }

  /** A string ParseInt accepts carries no surrounding white space, so TrimSpace leaves it alone. */
  lemma ParsedHasNoSpace(s: string)
    requires ParseInt(s).Some?
    ensures TrimSpace(s) == s
  {
    var m := Magnitude(s);
    assert s[|s| - 1] == m[|m| - 1];
    assert IsDigit(s[|s| - 1]);
    if s[0] != '+' && s[0] != '-' {
      assert IsDigit(m[0]);
    }
  }

  /** The decimal digits of n, most significant first, without leading zeros. */
  function NatToDecimal(n: nat): (ds: string)
    decreases n
  {
    var d := ['0' + (n % 10) as char];
    if n < 10 then d else NatToDecimal(n / 10) + d
  }

  /** strconv.FormatInt(n, 10). */
  function FormatInt(n: int): string {
    if n < 0 then "-" + NatToDecimal(-n) else NatToDecimal(n)
  }

  lemma {:induction false} NatToDecimalDigits(n: nat)
    ensures NatToDecimal(n) != [] && AllDigits(NatToDecimal(n))
    ensures DigitsValue(NatToDecimal(n)) == n
    decreases n
  {
    var d := ['0' + (n % 10) as char];
    if n >= 10 {
      NatToDecimalDigits(n / 10);
      var ds := NatToDecimal(n);
      assert ds == NatToDecimal(n / 10) + d;
      assert ds[..|ds| - 1] == NatToDecimal(n / 10);
    }
  }

  /** ParseInt inverts FormatInt on every 64-bit value. */
  lemma {:induction false} ParseFormatRoundTrip(n: Int64)
    ensures ParseInt(FormatInt(n)) == Some(n)
  {
    var m: nat := if n < 0 then 0 - n as int else n as int;
    NatToDecimalDigits(m);
    var s := FormatInt(n);
    if n < 0 {
      assert s[0] == '-' && s[1..] == NatToDecimal(m);
    } else {
      var ds := NatToDecimal(m);
      assert IsDigit(ds[0]);
    }
  }

  /** FormatInt's output starts with a sign or a digit and ends with a digit, so TrimSpace leaves it alone. */
  lemma {:induction false} FormatIntUntrimmed(n: int)
    ensures TrimSpace(FormatInt(n)) == FormatInt(n)
  {
    var m: nat := if n < 0 then -n else n;
    NatToDecimalDigits(m);
    var ds := NatToDecimal(m);
    var s := FormatInt(n);
    DigitNotSpace(ds[|ds| - 1]);
    if n < 0 {
      assert s == "-" + ds && s[|s| - 1] == ds[|ds| - 1];
      assert !IsSpace('-');
    } else {
      DigitNotSpace(ds[0]);
    }
  }

  lemma DigitNotSpace(c: char)
    requires IsDigit(c)
    ensures !IsSpace(c)
  {
  }

  /** A decimal rendering of a value outside the 64-bit range is a range error. */
  lemma {:induction false} ParseRejectsOutOfRange(n: int)
    requires n < MinInt64 || MaxInt64 < n
    ensures ParseInt(FormatInt(n)) == None
  {
    var m: nat := if n < 0 then -n else n;
    NatToDecimalDigits(m);
    var s := FormatInt(n);
    if n < 0 {
      assert s[0] == '-' && s[1..] == NatToDecimal(m);
    } else {
      var ds := NatToDecimal(m);
      assert IsDigit(ds[0]);
    }
  }

  /** Worked cases: what the tally field accepts. */
  lemma ParseIntAccepts()
    ensures ParseInt("12") == Some(12)
    ensures ParseInt("+7") == Some(7)
    ensures ParseInt("-007") == Some(-7)
    ensures ParseInt("5") == Some(5)
  {
    assert DigitsValue("1") == 1;
    assert DigitsValue("12") == 12 by { assert "12"[..1] == "1"; }
    assert Magnitude("+7") == "7";
    assert DigitsValue("7") == 7;
    assert Magnitude("-007") == "007";
    assert DigitsValue("0") == 0;
    assert DigitsValue("00") == 0 by { assert "00"[..1] == "0"; }
    assert DigitsValue("007") == 7 by { assert "007"[..2] == "00"; }
  }

  /** Worked cases: what the tally field rejects. */
  lemma ParseIntRejects()
    ensures ParseInt("abc") == None && ParseInt("") == None && ParseInt("-") == None
    ensures ParseInt("1_000") == None && ParseInt(" 5") == None
  {
    assert !IsDigit("abc"[0]);
    assert !IsDigit("1_000"[1]);
    assert !IsDigit(" 5"[0]);
  }

  /** A non-space character with one space on each side trims to that character; " 5 " trims to "5". */
  lemma TrimPadded(c: char)
    requires !IsSpace(c)
    ensures TrimSpace([' ', c, ' ']) == [c]
  {
    var s := [' ', c, ' '];
    assert TrimLeft(s) == [c, ' '] by {
      assert s[1..] == [c, ' '];
    }
    assert TrimRight([c, ' ']) == [c] by {
      assert [c, ' '][..1] == [c];
    }
  }
}
