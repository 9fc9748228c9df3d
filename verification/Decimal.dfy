/** The three decimal printers of the repository: the ring's `itoa`, the queue's
    `int64String` and the bot's `formatNumber`.  The first two fill a 20-byte
    buffer from the right; the third inserts thousands separators. */
module Decimal {

  const INT64_MIN: int := -0x8000_0000_0000_0000
  const INT64_MAX: int := 0x7fff_ffff_ffff_ffff

  /** Go's 64-bit `int` and `int64`. */
  predicate IsInt64(n: int) {
    INT64_MIN <= n <= INT64_MAX
  }

  /** Two's-complement negation: the smallest value is its own negation. */
  function Negate64(n: int): int {
    if n == INT64_MIN then n else -n
  }

  // ----- Numerals and their value -----

  predicate IsDigit(c: char) {
    '0' <= c <= '9'
  }

  predicate AllDigits(s: string) {
    forall i | 0 <= i < |s| :: IsDigit(s[i])
  }

  function Digit(d: int): char
    requires 0 <= d < 10
  {
    '0' + d as char
  }

  /** The decimal numeral of a natural number, most significant digit first. */
  function Numeral(n: nat): string {
    if n < 10 then [Digit(n)] else Numeral(n / 10) + [Digit(n % 10)]
  }

  /** The value of a digit string; the printers' inverse. */
  function Value(s: string): nat
    requires AllDigits(s)
  {
    if s == [] then 0 else Value(s[..|s| - 1]) * 10 + (s[|s| - 1] - '0') as int
  }

  datatype Parsed = Number(value: int) | Malformed

  /** A sign-aware decimal reader: an optional minus sign and at least one digit. */
  function ParseInt(s: string): Parsed {
    if s != [] && AllDigits(s) then Number(Value(s))
    else if |s| > 1 && s[0] == '-' && AllDigits(s[1..]) then Number(0 - Value(s[1..]))
    else Malformed
  }

  lemma {:induction false} NumeralInvertsValue(n: nat)
    ensures AllDigits(Numeral(n)) && Numeral(n) != []
    ensures Value(Numeral(n)) == n
  {
    if n >= 10 {
      NumeralInvertsValue(n / 10);
      assert Numeral(n)[..|Numeral(n)| - 1] == Numeral(n / 10);
    } else {
      assert Numeral(n)[..0] == [];
    }
  }

  /** Numerals are decimal: the last digit is the remainder by ten. */
  lemma NumeralIsDecimal(n: nat, d: nat)
    requires d < 10
    ensures Numeral(d) == ["0123456789"[d]]
    ensures n > 0 ==> Numeral(10 * n + d) == Numeral(n) + ["0123456789"[d]]
  {
    assert (10 * n + d) / 10 == n && (10 * n + d) % 10 == d;
  }

  lemma NumeralInjective(m: nat, n: nat)
    requires Numeral(m) == Numeral(n)
    ensures m == n
  {
    NumeralInvertsValue(m);
    NumeralInvertsValue(n);
  }

  function Pow10(k: nat): nat {
    if k == 0 then 1 else 10 * Pow10(k - 1)
  }

  lemma {:induction false} NumeralLength(n: nat, k: nat)
    requires 1 <= k && n < Pow10(k)
    ensures |Numeral(n)| <= k
  {
    if n >= 10 {
      assert Pow10(1) == 10 * Pow10(0);
      NumeralLength(n / 10, k - 1);
    }
  }

  /** Nineteen digits are enough for the magnitude of every 64-bit integer but the smallest. */
  lemma Int64Fits(n: nat)
    requires n <= INT64_MAX
    ensures |Numeral(n)| <= 19
  {
    assert Pow10(10) == 10_000_000_000 by {
      assert Pow10(5) == 100_000;
    }
    assert Pow10(15) == 1_000_000_000_000_000;
    assert Pow10(19) == 10_000_000_000_000_000_000;
    NumeralLength(n, 19);
  }

  // ----- Buffer-filling printers -----

  /** What is left of a numeral once the low digits have been written out. */
  function HighPart(n: nat): string {
    if n == 0 then "" else Numeral(n)
  }

  /** Writing one more digit in front leaves that much less of the numeral to do. */
  lemma NextDigit(rest: nat, written: string)
    requires rest > 0
    ensures HighPart(rest / 10) + ([Digit(rest % 10)] + written) == HighPart(rest) + written
  {
    assert HighPart(rest) == HighPart(rest / 10) + [Digit(rest % 10)];
  }

  /** The digit loop shared by both printers: writes `n` right-aligned in front of position `i`. */
  method FillDigits(buf: array<char>, n: int) returns (i: nat)
    requires buf.Length == 20
    requires n <= INT64_MAX
    modifies buf
    ensures n > 0 ==> 1 <= i <= 20 && buf[i..] == Numeral(n)
    ensures n <= 0 ==> i == 20
  {
    i := buf.Length;
    var rest := n;
    if n > 0 { Int64Fits(n); }
    while rest > 0
      invariant 0 <= i <= 20
      invariant n > 0 ==> 0 <= rest && HighPart(rest) + buf[i..] == Numeral(n)
      invariant n <= 0 ==> i == 20 && rest == n
    {
      ghost var written := buf[i..];
      NextDigit(rest, written);
      assert |HighPart(rest)| >= 1;
      i := i - 1;
      buf[i] := Digit(rest % 10);
      assert buf[i..] == [buf[i]] + written;
      rest := rest / 10;
    }
  }

  /** The ring's printer.  A negative argument skips the loop and prints nothing. */
  method Itoa(n: int) returns (s: string)
    requires IsInt64(n)
    ensures n >= 0 ==> s == Numeral(n)
    ensures n < 0 ==> s == ""
  {
    if n == 0 {
      return "0";
    }
    var buf := new char[20];
    var i := FillDigits(buf, n);
    s := buf[i..];
  }

  /** The queue's printer for update ids. */
  function Int64Text(n: int): string {
    if n >= 0 then Numeral(n)
    else if n == INT64_MIN then "-"
    else "-" + Numeral(-n)
  }

  method Int64String(n: int) returns (s: string)
    requires IsInt64(n)
    ensures s == Int64Text(n)
  {
    if n == 0 {
      return "0";
    }
    var buf := new char[20];
    var neg := n < 0;
    var magnitude := if neg then Negate64(n) else n;
    var i := FillDigits(buf, magnitude);
    ghost var digits := buf[i..];
    if neg {
      i := i - 1;
      buf[i] := '-';
      assert buf[i..] == "-" + digits;
    }
    s := buf[i..];
  }

  /** `int64String` can be parsed back for every update id except the smallest
      64-bit integer, whose digits the loop never prints. */
  lemma Int64StringParsesBack(n: int)
    requires IsInt64(n)
    ensures ParseInt(Int64Text(n)) == Number(n) <==> n != INT64_MIN
  {
    if n >= 0 {
      NumeralInvertsValue(n);
    } else if n != INT64_MIN {
      NumeralInvertsValue(-n);
      assert Int64Text(n)[1..] == Numeral(-n);
      assert !IsDigit(Int64Text(n)[0]);
    } else {
      assert !IsDigit(Int64Text(n)[0]);
    }
  }

  // ----- Ring seeds -----

  /** The string hashed for one virtual node. */
  function Seed(member: string, vnode: nat): string {
    member + "#" + Numeral(vnode)
  }

  lemma DigitsOnly(s: string)
    requires AllDigits(s)
    ensures '#' !in s && ',' !in s
  {
    forall c | c in s
      ensures c != '#' && c != ','
    {
      var i :| 0 <= i < |s| && s[i] == c;
      assert IsDigit(s[i]);
    }
  }

  /** Distinct (member, vnode) pairs are hashed from distinct seeds, even when a
      member name itself contains '#' or digits. */
  lemma SeedInjective(m1: string, v1: nat, m2: string, v2: nat)
    requires Seed(m1, v1) == Seed(m2, v2)
    ensures m1 == m2 && v1 == v2
  {
    var s := Seed(m1, v1);
    NumeralInvertsValue(v1);
    NumeralInvertsValue(v2);
    assert s[|m1|] == '#' && s[|m2|] == '#';
    assert s[|m1| + 1..] == Numeral(v1);
    assert s[|m2| + 1..] == Numeral(v2);
    DigitsOnly(Numeral(v1));
    DigitsOnly(Numeral(v2));
    assert s[..|m1|] == m1 && s[..|m2|] == m2;
    NumeralInjective(v1, v2);
  }

  // ----- Thousands separators -----

  /** strconv.Itoa: correct for every integer, the smallest included. */
  function Strconv(n: int): string {
    if n < 0 then "-" + Numeral(-n) else Numeral(n)
  }

  /** The characters still to be written when `r` remains: a comma goes in front
      of every character that has a multiple of three characters from it to the end. */
  function Rest(r: string): string {
    if r == [] then []
    else if |r| % 3 == 0 then "," + [r[0]] + Rest(r[1..])
    else [r[0]] + Rest(r[1..])
  }

  function Separated(s: string): string {
    if s == [] then [] else [s[0]] + Rest(s[1..])
  }

  /** The bot's number formatter, over the wrapped magnitude. */
  function Formatted(n: int): string {
    if n < 0 then "-" + Separated(Strconv(Negate64(n))) else Separated(Strconv(n))
  }

  lemma Regroup(a: string, b: string, c: string)
    ensures a + b + c == a + (b + c)
  {}

  /** The comma and character that are due at position `i`. */
  function Due(s: string, i: nat): string
    requires i < |s|
  {
    if (|s| - i) % 3 == 0 then "," + [s[i]] else [s[i]]
  }

  lemma RestStep(s: string, i: nat)
    requires i < |s|
    ensures Rest(s[i..]) == Due(s, i) + Rest(s[i + 1..])
  {
    assert s[i..][1..] == s[i + 1..];
  }

  /** `written` is the output for the first `i` characters. */
  predicate Begins(s: string, i: nat, written: string)
    requires i <= |s|
  {
    if i == 0 then written == "" else written + Rest(s[i..]) == Separated(s)
  }

  lemma NextCharacter(s: string, i: nat, next: nat, written: string, longer: string)
    requires i < |s| && next == i + 1 && Begins(s, i, written)
    requires longer == (if i > 0 && (|s| - i) % 3 == 0 then written + "," else written) + [s[i]]
    ensures Begins(s, next, longer)
  {
    if i > 0 {
      RestStep(s, i);
      Regroup(written, ",", [s[i]]);
      assert longer == written + Due(s, i);
      Regroup(written, Due(s, i), Rest(s[next..]));
    }
  }

  lemma LastCharacter(s: string, written: string)
    requires Begins(s, |s|, written)
    ensures written == Separated(s)
  {}

  method InsertCommas(s: string) returns (b: string)
    ensures b == Separated(s)
  {
    b := "";
    var i := 0;
    while i < |s|
      invariant 0 <= i <= |s| && Begins(s, i, b)
    {
      ghost var written := b;
      if i > 0 && (|s| - i) % 3 == 0 {
        b := b + ",";
      }
      b := b + [s[i]];
      NextCharacter(s, i, i + 1, written, b);
      i := i + 1;
    }
    LastCharacter(s, b);
  }

  method FormatNumber(n: int) returns (out: string)
    requires IsInt64(n)
    ensures out == Formatted(n)
  {
    var sign := "";
    var m := n;
    if n < 0 {
      sign := "-";
      m := Negate64(n);
    }
    var b := InsertCommas(Strconv(m));
    out := sign + b;
  }

  function WithoutCommas(s: string): string {
    if s == [] then [] else (if s[0] == ',' then [] else [s[0]]) + WithoutCommas(s[1..])
  }

  lemma WithoutCommasCons(c: char, s: string)
    ensures WithoutCommas([c] + s) == (if c == ',' then [] else [c]) + WithoutCommas(s)
  {
    assert ([c] + s)[1..] == s;
  }

  lemma {:induction false} RestWithoutCommas(r: string)
    requires ',' !in r
    ensures WithoutCommas(Rest(r)) == r
  {
    if r != [] {
      RestWithoutCommas(r[1..]);
      WithoutCommasCons(r[0], Rest(r[1..]));
      WithoutCommasCons(',', [r[0]] + Rest(r[1..]));
      assert "," + ([r[0]] + Rest(r[1..])) == "," + [r[0]] + Rest(r[1..]);
      assert r == [r[0]] + r[1..];
    }
  }

  lemma SeparatedWithoutCommas(s: string)
    requires ',' !in s
    ensures WithoutCommas(Separated(s)) == s
  {
    if s != [] {
      RestWithoutCommas(s[1..]);
      WithoutCommasCons(s[0], Rest(s[1..]));
      assert s == [s[0]] + s[1..];
    }
  }

  lemma StrconvHasNoComma(n: int)
    ensures ',' !in Strconv(n)
  {
    var m: nat := if n < 0 then -n else n;
    NumeralInvertsValue(m);
    DigitsOnly(Numeral(m));
  }

  /** Removing the commas of a formatted number and parsing gives the number
      back, for every 64-bit integer except the smallest: its negation is itself,
      so it is printed with two minus signs. */
  lemma FormatNumberParsesBack(n: int)
    requires IsInt64(n)
    ensures ParseInt(WithoutCommas(Formatted(n))) == Number(n) <==> n != INT64_MIN
  {
    var m := if n < 0 then Negate64(n) else n;
    StrconvHasNoComma(m);
    SeparatedWithoutCommas(Strconv(m));
    if n < 0 {
      assert Formatted(n)[1..] == Separated(Strconv(m));
      NegatedParsesBack(n);
    } else {
      NumeralInvertsValue(n);
    }
  }

  lemma NegatedParsesBack(n: int)
    requires IsInt64(n) && n < 0
    ensures ParseInt("-" + Strconv(Negate64(n))) == Number(n) <==> n != INT64_MIN
  {
    var text := Strconv(Negate64(n));
    var bare := "-" + text;
    assert !IsDigit(bare[0]) && bare[1..] == text;
    if n == INT64_MIN {
      assert !IsDigit(text[0]);
    } else {
      NumeralInvertsValue(-n);
    }
  }

  /** `s` written in groups of exactly three characters, save that the first
      group may be shorter. */
  function Grouped(s: string): string {
    if |s| <= 3 then s else Grouped(s[..|s| - 3]) + "," + s[|s| - 3..]
  }

  lemma RestCons(c: char, t: string)
    ensures Rest([c] + t) == (if (|t| + 1) % 3 == 0 then "," + [c] else [c]) + Rest(t)
  {
    assert ([c] + t)[1..] == t;
  }

  lemma LastGroup(r: string)
    requires |r| == 3
    ensures Rest(r) == "," + r
  {
    RestStep(r, 0);
    RestStep(r, 1);
    RestStep(r, 2);
    assert r[0..] == r && Rest(r[3..]) == [];
    assert r == [r[0]] + ([r[1]] + ([r[2]] + []));
  }

  lemma {:induction false} RestSplitsLastGroup(front: string, last: string)
    requires |last| == 3
    ensures Rest(front + last) == Rest(front) + ("," + last)
  {
    if front == [] {
      LastGroup(last);
      assert front + last == last;
    } else {
      var c, t := front[0], front[1..];
      RestSplitsLastGroup(t, last);
      RestCons(c, t + last);
      RestCons(c, t);
      Regroup([c], t, last);
      assert front == [c] + t;
      Regroup(if (|t| + 1) % 3 == 0 then "," + [c] else [c], Rest(t), "," + last);
    }
  }

  /** The left-to-right loop writes exactly the right-to-left grouping. */
  lemma {:induction false} SeparatedIsGrouped(s: string)
    ensures Separated(s) == Grouped(s)
  {
    if |s| > 3 {
      var front, last := s[..|s| - 3], s[|s| - 3..];
      SeparatedIsGrouped(front);
      RestSplitsLastGroup(front[1..], last);
      assert s[1..] == front[1..] + last;
      Regroup([s[0]], Rest(front[1..]), "," + last);
      Regroup(Grouped(front), ",", last);
    } else if s != [] {
      FirstGroup(s);
    }
  }

  lemma FirstGroup(s: string)
    requires 1 <= |s| <= 3
    ensures Separated(s) == s
  {
    if |s| > 1 { RestStep(s, 1); }
    if |s| > 2 { RestStep(s, 2); }
    assert Rest(s[|s|..]) == [];
    if |s| == 1 { assert s == [s[0]] + []; }
    if |s| == 2 { assert s == [s[0]] + ([s[1]] + []); }
    if |s| == 3 { assert s == [s[0]] + ([s[1]] + ([s[2]] + [])); }
  }
}
