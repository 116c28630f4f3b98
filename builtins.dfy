/** The few Python built-ins the weewx-DWD code relies on, written out with the
    exact semantics the code sees: `round` (half to even), sequence indexing
    with negative indices, `str`/`int` on integers, `'%02d'`, `str.isdigit`
    and `str.replace`. Failures are values of `Result`, one constructor per
    Python exception class the code catches or lets escape. */
module Builtins {

  datatype Option<+T> = None | Some(value: T)

  /** The Python exceptions the modelled code raises or catches. */
  datatype PyError = TypeError | ValueError | IndexError | KeyError | ZeroDivisionError | NameError | AttributeError

  datatype Result<+T> = Ok(value: T) | Err(error: PyError)

  // ---------------------------------------------------------------- round

  /** Python's `round(x)` on a number: the nearest integer, ties to the even one. */
  function RoundHalfEven(x: real): (r: int)
    ensures r as real - 0.5 <= x <= r as real + 0.5
    ensures (x - r as real == 0.5 || r as real - x == 0.5) ==> r % 2 == 0
  {
    var f := x.Floor;
    var d := x - f as real;
    if d < 0.5 then f
    else if d > 0.5 then f + 1
    else if f % 2 == 0 then f
    else f + 1
  }

  /** The two properties in the contract of `RoundHalfEven` determine it. */
  lemma RoundHalfEvenUnique(x: real, k: int)
    requires k as real - 0.5 <= x <= k as real + 0.5
    requires (x - k as real == 0.5 || k as real - x == 0.5) ==> k % 2 == 0
    ensures k == RoundHalfEven(x)
  {
    var r := RoundHalfEven(x);
    assert (k - r) as real <= 1.0 && (r - k) as real <= 1.0;
  }

  /** `round` never decreases when its argument grows. */
  lemma RoundHalfEvenMonotone(x: real, y: real)
    requires x <= y
    ensures RoundHalfEven(x) <= RoundHalfEven(y)
  {
    var rx, ry := RoundHalfEven(x), RoundHalfEven(y);
    assert (rx - ry) as real <= 1.0;
    assert rx == ry + 1 ==> x - ry as real == 0.5 && rx as real - x == 0.5;
  }

  // ------------------------------------------------------------- max

  /** `max(s)` of a non-empty list (Python raises ValueError on an empty one). */
  function Max(s: seq<int>): (m: int)
    requires |s| > 0
    ensures m in s && forall x :: x in s ==> x <= m
  {
    if |s| == 1 then s[0]
    else
      var m' := Max(s[1..]);
      assert forall x :: x in s ==> x == s[0] || x in s[1..];
      if s[0] >= m' then s[0] else m'
  }

  /** `int(x)` on a float: the integer part, truncated toward zero. */
  function Trunc(x: real): (r: int)
    ensures x >= 0.0 ==> r >= 0 && r as real <= x < r as real + 1.0
    ensures x < 0.0 ==> r <= 0 && r as real - 1.0 < x <= r as real
  {
    if x >= 0.0 then x.Floor else -((-x).Floor)
  }

  // ------------------------------------------------------------- indexing

  /** The position `s[i]` reads in a Python sequence of length `len`
      (negative `i` counts from the end), or None where Python raises
      IndexError. */
  function PyIndex(len: nat, i: int): (r: Option<nat>)
    ensures r.Some? <==> -(len as int) <= i < len
    ensures r.Some? ==> r.value < len && (i >= 0 ==> r.value == i) && (i < 0 ==> r.value == len + i)
  {
    if 0 <= i < len then Some(i)
    else if -(len as int) <= i < 0 then Some(len + i)
    else None
  }

  // --------------------------------------------------------- int <-> str

  predicate IsDigit(c: char) {
    '0' <= c <= '9'
  }

  /** `s.isdigit()` for ASCII text: non-empty and only decimal digits. */
  predicate IsDigits(s: string) {
    |s| > 0 && forall i :: 0 <= i < |s| ==> IsDigit(s[i])
  }

  function DigitChar(d: nat): (c: char)
    requires d < 10
    ensures IsDigit(c) && c as int - '0' as int == d
  {
    ('0' as int + d) as char
  }

  /** The value of a string of decimal digits (leading zeros allowed). */
  function DigitsValue(s: string): nat
    requires forall i :: 0 <= i < |s| ==> IsDigit(s[i])
  {
    if s == [] then 0
    else
      assert IsDigit(s[|s| - 1]);
      DigitsValue(s[..|s| - 1]) * 10 + (s[|s| - 1] as int - '0' as int)
  }

  /** `str(n)` for a natural number. */
  function NatToString(n: nat): (s: string)
    ensures IsDigits(s)
    ensures |s| > 1 ==> s[0] != '0'
    ensures n < 10 <==> |s| == 1
  {
    if n < 10 then [DigitChar(n)]
    else NatToString(n / 10) + [DigitChar(n % 10)]
  }

  /** Reading back what `str(n)` wrote gives `n`. */
  lemma {:induction false} NatToStringRoundTrip(n: nat)
    ensures DigitsValue(NatToString(n)) == n
  {
    var s := NatToString(n);
    if n >= 10 {
      NatToStringRoundTrip(n / 10);
      assert s[..|s| - 1] == NatToString(n / 10);
    }
  }

  /** `str(i)` for an integer. */
  function IntToString(i: int): (s: string)
    ensures i < 0 <==> (|s| > 0 && s[0] == '-')
    ensures i >= 0 ==> s == NatToString(i)
    ensures i < 0 ==> s[1..] == NatToString(-i)
  {
    if i < 0 then "-" + NatToString(-i) else NatToString(i)
  }

  /** `'%02d' % i`: at least two characters, zero-padded on the left. */
  function Format02d(i: int): (s: string)
    ensures |s| >= 2
    ensures 0 <= i < 10 ==> s == ['0', DigitChar(i)]
    ensures i >= 10 || i < 0 ==> s == IntToString(i)
  {
    if 0 <= i < 10 then "0" + NatToString(i) else IntToString(i)
  }

  /** A number 0..99 comes out as exactly two digits that read back. */
  lemma Format02dTwoDigits(n: int)
    requires 0 <= n < 100
    ensures |Format02d(n)| == 2 && IsDigits(Format02d(n)) && ParseInt(Format02d(n)) == Ok(n)
  {
    Format02dRoundTrip(n);
    ParseDigits(Format02d(n));
    if n >= 10 {
      assert NatToString(n) == NatToString(n / 10) + [DigitChar(n % 10)];
    }
  }

  /** `'%02d'` loses nothing for non-negative numbers: the digits read back. */
  lemma {:induction false} Format02dRoundTrip(n: nat)
    ensures IsDigits(Format02d(n)) && DigitsValue(Format02d(n)) == n
  {
    NatToStringRoundTrip(n);
    if n < 10 {
      var s := Format02d(n);
      assert s[..1] == "0";
      assert DigitsValue(s[..1]) == 0 by { assert s[..1][..0] == []; }
    }
  }

  /** ASCII white space as `str.isspace` sees it, the separators 0x1c-0x1f included. */
  predicate IsSpace(c: char) {
    c == ' ' || c == '\t' || c == '\n' || c == '\r' || c == '\U{000B}' || c == '\U{000C}'
    || ('\U{001C}' <= c <= '\U{001F}')
  }

  /** `s.strip()` for ASCII white space. */
  function Strip(s: string): (r: string)
    ensures |r| <= |s|
    ensures r != [] ==> !IsSpace(r[0]) && !IsSpace(r[|r| - 1])
    decreases |s|
  {
    if s == [] then []
    else if IsSpace(s[0]) then Strip(s[1..])
    else if IsSpace(s[|s| - 1]) then Strip(s[..|s| - 1])
    else s
  }

  /** `int(s)` on a string: optional white space around an optionally signed
      run of decimal digits; anything else raises ValueError. */
  function ParseInt(s: string): (r: Result<int>)
    ensures r.Err? ==> r.error == ValueError
  {
    var t := Strip(s);
    if |t| > 0 && (t[0] == '-' || t[0] == '+') && IsDigits(t[1..]) then
      var v: int := DigitsValue(t[1..]);
      Ok(if t[0] == '-' then -v else v)
    else if IsDigits(t) then Ok(DigitsValue(t))
    else Err(ValueError)
  }

  /** `int(str(i)) == i`. */
  lemma IntToStringRoundTrip(i: int)
    ensures ParseInt(IntToString(i)) == Ok(i)
  {
    if i < 0 {
      NegativeRoundTrip(i);
    } else {
      var t := NatToString(i);
      NatToStringRoundTrip(i);
      ParseDigits(t);
    }
  }

  lemma NegativeRoundTrip(i: int)
    requires i < 0
    ensures ParseInt(IntToString(i)) == Ok(i)
  {
    var t := NatToString(-i);
    NatToStringRoundTrip(-i);
    ParseNegative(t);
    assert IntToString(i) == "-" + t;
  }

  /** `int` of '-' and a run of digits is minus their value. */
  lemma ParseNegative(t: string)
    requires IsDigits(t)
    ensures ParseInt("-" + t) == Ok(-(DigitsValue(t) as int))
  {
    var s := "-" + t;
    assert s[1..] == t;
    assert s[|s| - 1] == t[|t| - 1];
    StripUnspaced(s);
  }

  /** `int` of a run of digits is their value. */
  lemma ParseDigits(t: string)
    requires IsDigits(t)
    ensures ParseInt(t) == Ok(DigitsValue(t))
  {
    StripUnspaced(t);
    assert t[0] != '-' && t[0] != '+';
  }

  /** A text that neither starts nor ends with white space is its own strip. */
  lemma StripUnspaced(s: string)
    requires |s| > 0 && !IsSpace(s[0]) && !IsSpace(s[|s| - 1])
    ensures Strip(s) == s
  {
  }

  function UpperChar(c: char): char {
    if 'a' <= c <= 'z' then (c as int - 32) as char else c
  }

  /** `s.upper()` for ASCII text. */
  function Upper(s: string): (u: string)
    ensures |u| == |s|
  {
    seq(|s|, i requires 0 <= i < |s| => UpperChar(s[i]))
  }

  /** Upper-casing twice changes nothing more. */
  lemma UpperIdempotent(s: string)
    ensures Upper(Upper(s)) == Upper(s)
  {
    assert forall i :: 0 <= i < |s| ==> Upper(Upper(s))[i] == Upper(s)[i];
  }

  // ------------------------------------------------------------ slicing

  /** `s[i:j]` for non-negative bounds, which Python clamps to the length. */
  function PySlice<T>(s: seq<T>, i: nat, j: nat): (r: seq<T>)
    ensures |r| <= |s|
    ensures i <= j <= |s| ==> r == s[i..j]
    ensures i >= |s| || j <= i ==> r == []
  {
    var a := if i <= |s| then i else |s|;
    var b := if j <= a then a else if j <= |s| then j else |s|;
    s[a..b]
  }

  /** `s.split(sep)` with a one-character separator. */
  function Split(s: string, sep: char): (parts: seq<string>)
    ensures |parts| >= 1
    ensures forall k :: 0 <= k < |parts| ==> sep !in parts[k]
    decreases |s|
  {
    if s == [] then [""]
    else
      var rest := Split(s[1..], sep);
      if s[0] == sep then [""] + rest
      else [[s[0]] + rest[0]] + rest[1..]
  }

  /** `sep.join(parts)`. */
  function Join(parts: seq<string>, sep: char): string
    requires |parts| >= 1
  {
    if |parts| == 1 then parts[0] else parts[0] + [sep] + Join(parts[1..], sep)
  }

  /** Splitting loses nothing: joining the parts gives the text back. */
  lemma {:induction false} SplitJoin(s: string, sep: char)
    ensures Join(Split(s, sep), sep) == s
    decreases |s|
  {
    if s != [] {
      SplitJoin(s[1..], sep);
      var rest := Split(s[1..], sep);
      if s[0] != sep && |rest| > 1 {
        assert Join(rest, sep) == rest[0] + [sep] + Join(rest[1..], sep);
      }
    }
  }

  /** A prefix without the separator becomes the start of the first part. */
  lemma {:induction false} SplitPrefix(u: string, w: string, sep: char)
    requires sep !in u
    ensures Split(u + w, sep) == [u + Split(w, sep)[0]] + Split(w, sep)[1..]
    decreases |u|
  {
    if u != [] {
      assert (u + w)[1..] == u[1..] + w;
      assert (u + w)[0] == u[0] && u[0] != sep;
      SplitPrefix(u[1..], w, sep);
      var rest := Split(u[1..] + w, sep);
      assert Split(u + w, sep) == [[u[0]] + rest[0]] + rest[1..];
      assert rest[1..] == Split(w, sep)[1..];
      assert [u[0]] + (u[1..] + Split(w, sep)[0]) == u + Split(w, sep)[0];
    } else {
      assert u + w == w;
      assert u + Split(w, sep)[0] == Split(w, sep)[0];
    }
  }

  /** Two separator-free texts joined by one separator split back into the two. */
  lemma SplitTwo(u: string, v: string, sep: char)
    requires sep !in u && sep !in v
    ensures Split(u + [sep] + v, sep) == [u, v]
  {
    SplitPrefix(v, "", sep);
    assert v + "" == v;
    assert Split(v, sep) == [v] by {
      assert Split(v + "", sep) == [v + Split("", sep)[0]] + Split("", sep)[1..];
    }
    assert Split([sep] + v, sep) == ["", v] by {
      assert ([sep] + v)[1..] == v;
      assert ([sep] + v)[0] == sep;
    }
    assert u + [sep] + v == u + ([sep] + v);
    SplitPrefix(u, [sep] + v, sep);
    assert u + "" == u;
    assert Split(u + ([sep] + v), sep) == [u + ""] + [v];
  }

  // --------------------------------------------------------- str.replace

  predicate EndsWith(s: string, suffix: string) {
    |suffix| <= |s| && s[|s| - |suffix|..] == suffix
  }

  predicate OccursAt(s: string, p: string, i: nat) {
    i + |p| <= |s| && s[i..i + |p|] == p
  }

  ghost predicate Occurs(s: string, p: string) {
    exists i: nat :: OccursAt(s, p, i)
  }

  /** `s.replace(p, r)` for a non-empty pattern: every non-overlapping
      occurrence, scanned left to right, is replaced. */
  function Replace(s: string, p: string, r: string): (t: string)
    requires |p| > 0
    decreases |s|
  {
    if |s| < |p| then s
    else if s[..|p|] == p then r + Replace(s[|p|..], p, r)
    else [s[0]] + Replace(s[1..], p, r)
  }

  /** `s.replace(p, r)` leaves `s` alone when `p` does not occur in it. */
  lemma {:induction false} ReplaceAbsent(s: string, p: string, r: string)
    requires |p| > 0 && !Occurs(s, p)
    ensures Replace(s, p, r) == s
    decreases |s|
  {
    if |s| >= |p| {
      assert !OccursAt(s, p, 0);
      forall i: nat ensures !OccursAt(s[1..], p, i) {
        assert !OccursAt(s, p, i + 1);
        if i + |p| <= |s| - 1 {
          assert s[1..][i..i + |p|] == s[i + 1..i + 1 + |p|];
        }
      }
      ReplaceAbsent(s[1..], p, r);
    }
  }

  /** A pattern holding a character the text lacks does not occur in it. */
  lemma NotOccursByChar(s: string, p: string, j: nat)
    requires j < |p| && p[j] !in s
    ensures !Occurs(s, p)
  {
    forall i: nat ensures !OccursAt(s, p, i) {
      if i + |p| <= |s| {
        assert s[i..i + |p|][j] == s[i + j];
      }
    }
  }

  /** No occurrence of `p` in `base + p` starts inside `base`. */
  predicate OnlyAtEnd(base: string, p: string) {
    forall i: nat :: i < |base| ==> !OccursAt(base + p, p, i)
  }

  /** A pattern whose first character the base lacks can only occur at its end. */
  lemma OnlyAtEndByChar(base: string, p: string)
    requires |p| > 0 && p[0] !in base
    ensures OnlyAtEnd(base, p)
  {
    forall i: nat | i < |base| ensures !OccursAt(base + p, p, i) {
      if i + |p| <= |base + p| {
        assert (base + p)[i..i + |p|][0] == base[i];
      }
    }
  }

  /** A file name `base + ".png"` with no other ".png" in it turns into
      `base + r` under `.replace('.png', r)`. */
  lemma {:induction false} ReplaceSuffix(base: string, p: string, r: string)
    requires |p| > 0 && OnlyAtEnd(base, p)
    ensures Replace(base + p, p, r) == base + r
    decreases |base|
  {
    var s := base + p;
    if base == [] {
      assert s == p;
      assert s[..|p|] == p && s[|p|..] == [];
    } else {
      assert !OccursAt(s, p, 0);
      var rest := base[1..];
      assert s[1..] == rest + p;
      forall i: nat | i < |rest| ensures !OccursAt(rest + p, p, i) {
        assert !OccursAt(s, p, i + 1);
        assert (rest + p)[i..i + |p|] == s[i + 1..i + 1 + |p|];
      }
      ReplaceSuffix(rest, p, r);
      assert [s[0]] + (rest + r) == base + r;
    }
  }

  /** Replacing a one-character pattern that occurs once, between two texts
      free of it. */
  lemma {:induction false} ReplaceOne(u: string, c: char, v: string, r: string)
    requires c !in u && c !in v
    ensures Replace(u + [c] + v, [c], r) == u + r + v
    decreases |u|
  {
    var s := u + [c] + v;
    if u == [] {
      assert s == [c] + v && s[..1] == [c] && s[1..] == v;
      NotOccursByChar(v, [c], 0);
      ReplaceAbsent(v, [c], r);
    } else {
      var t := u[1..] + [c] + v;
      assert s[1..] == t;
      assert s[..1] != [c] by {
        assert s[..1][0] == u[0] && u[0] in u;
      }
      assert Replace(s, [c], r) == [s[0]] + Replace(t, [c], r);
      assert c !in u[1..] by {
        assert forall x :: x in u[1..] ==> x in u;
      }
      ReplaceOne(u[1..], c, v, r);
      assert [u[0]] + (u[1..] + r + v) == u + r + v;
    }
  }

  // ------------------------------------------------------------ float()

  function Pow10(e: nat): (p: nat)
    ensures p >= 1
  {
    if e == 0 then 1 else 10 * Pow10(e - 1)
  }

  /** Only decimal digits, possibly none. */
  predicate AllDigits(s: string) {
    forall i :: 0 <= i < |s| ==> IsDigit(s[i])
  }

  /** The value of a decimal numeral `d`, `d.f`, `.f` or `d.` (at least one digit). */
  function DecimalValue(m: string): Option<real> {
    DecimalOfParts(Split(m, '.'))
  }

  /** The value of the numeral `<a>.<b>`. */
  function NumeralValue(a: string, b: string): real
    requires AllDigits(a) && AllDigits(b)
  {
    DigitsValue(a) as real + DigitsValue(b) as real / Pow10(|b|) as real
  }

  /** The value of a numeral cut at its points. */
  function DecimalOfParts(parts: seq<string>): Option<real> {
    if |parts| == 1 && IsDigits(parts[0]) then Some(DigitsValue(parts[0]) as real)
    else if |parts| == 2 && AllDigits(parts[0]) && AllDigits(parts[1]) && |parts[0]| + |parts[1]| > 0 then
      Some(NumeralValue(parts[0], parts[1]))
    else None
  }

  /** The position of the first exponent mark, `|s|` when there is none. */
  function ExponentAt(s: string): (k: nat)
    ensures k <= |s|
    ensures forall i :: 0 <= i < k ==> s[i] != 'e' && s[i] != 'E'
    ensures k < |s| ==> s[k] == 'e' || s[k] == 'E'
  {
    if s == [] || s[0] == 'e' || s[0] == 'E' then 0
    else
      var k := ExponentAt(s[1..]);
      assert forall i :: 1 <= i <= k ==> s[i] == s[1..][i - 1];
      k + 1
  }

  /** `10 ** e` as a real, for any integer exponent. */
  function Scale(e: int): (r: real)
    ensures r > 0.0
  {
    if e >= 0 then Pow10(e) as real else 1.0 / Pow10(-e) as real
  }

  /** `float(s)` on a decimal numeral: white space around an optionally
      signed mantissa with an optional exponent. Floats are exact reals here. */
  function ParseFloat(s: string): (r: Result<real>)
    ensures r.Err? ==> r.error == ValueError
  {
    var t := Strip(s);
    if |t| > 0 && t[0] == '-' then
      match UnsignedFloat(t[1..])
      case Ok(v) => Ok(-v)
      case Err(e) => Err(e)
    else if |t| > 0 && t[0] == '+' then UnsignedFloat(t[1..])
    else UnsignedFloat(t)
  }

  /** A mantissa with an optional exponent `e<n>`, `e+<n>` or `e-<n>`. */
  function UnsignedFloat(body: string): (r: Result<real>)
    ensures r.Err? ==> r.error == ValueError
  {
    var k := ExponentAt(body);
    var m := DecimalValue(body[..k]);
    var e := if k == |body| then Some(0) else ExponentValue(body[k + 1..]);
    if m.None? || e.None? then Err(ValueError)
    else if e.value == 0 then Ok(m.value)
    else Ok(m.value * Scale(e.value))
  }

  /** The optionally signed digits after an exponent mark. */
  function ExponentValue(x: string): Option<int> {
    if |x| > 0 && (x[0] == '-' || x[0] == '+') && IsDigits(x[1..]) then
      Some(if x[0] == '-' then -(DigitsValue(x[1..]) as int) else DigitsValue(x[1..]))
    else if IsDigits(x) then Some(DigitsValue(x))
    else None
  }

  /** `float('<a>.<b>')` of two digit strings, one of them non-empty. */
  lemma ParseFloatDecimal(a: string, b: string)
    requires AllDigits(a) && AllDigits(b) && |a| + |b| > 0
    ensures ParseFloat(a + "." + b) == Ok(NumeralValue(a, b))
  {
    var v := NumeralValue(a, b);
    NumeralFacts(a, b);
    DecimalUnsigned(a, b, v);
    SignlessFloat(a + "." + b, v);
  }

  lemma NumeralFacts(a: string, b: string)
    requires AllDigits(a) && AllDigits(b) && |a| + |b| > 0
    ensures var s := a + "." + b;
      Strip(s) == s && s[0] != '-' && s[0] != '+' && ExponentAt(s) == |s|
  {
    var s := a + "." + b;
    NumeralChars(a, b);
    StripNumeral(s);
    ExponentAbsent(s);
  }

  lemma DecimalUnsigned(a: string, b: string, v: real)
    requires AllDigits(a) && AllDigits(b) && |a| + |b| > 0
    requires v == NumeralValue(a, b)
    requires ExponentAt(a + "." + b) == |a + "." + b|
    ensures UnsignedFloat(a + "." + b) == Ok(v)
  {
    DecimalValueOf(a, b);
    UnsignedPlain(a + "." + b, v);
  }

  lemma SignlessFloat(s: string, v: real)
    requires |s| > 0 && Strip(s) == s && s[0] != '-' && s[0] != '+' && UnsignedFloat(s) == Ok(v)
    ensures ParseFloat(s) == Ok(v)
  {
  }

  lemma DecimalValueOf(a: string, b: string)
    requires AllDigits(a) && AllDigits(b) && |a| + |b| > 0
    ensures DecimalValue(a + "." + b) == Some(NumeralValue(a, b))
  {
    SplitNumeral(a, b);
    PartsValue(a, b);
  }

  lemma SplitNumeral(a: string, b: string)
    requires AllDigits(a) && AllDigits(b)
    ensures Split(a + "." + b, '.') == [a, b]
  {
    NumeralChars(a, b);
    SplitTwo(a, b, '.');
  }

  lemma PartsValue(a: string, b: string)
    requires AllDigits(a) && AllDigits(b) && |a| + |b| > 0
    ensures DecimalOfParts([a, b]) == Some(NumeralValue(a, b))
  {
  }

  lemma StripNumeral(s: string)
    requires |s| > 0 && forall i :: 0 <= i < |s| ==> IsDigit(s[i]) || s[i] == '.'
    ensures Strip(s) == s && s[0] != '-' && s[0] != '+'
  {
    assert !IsSpace(s[0]) && !IsSpace(s[|s| - 1]);
  }

  lemma ExponentAbsent(s: string)
    requires forall i :: 0 <= i < |s| ==> IsDigit(s[i]) || s[i] == '.'
    ensures ExponentAt(s) == |s|
  {
    assert forall i :: 0 <= i < |s| ==> s[i] != 'e' && s[i] != 'E';
  }

  /** A numeral without an exponent reads as its mantissa. */
  lemma UnsignedPlain(s: string, v: real)
    requires ExponentAt(s) == |s| && DecimalValue(s) == Some(v)
    ensures UnsignedFloat(s) == Ok(v)
  {
    assert s[..|s|] == s;
  }

  /** Every character of `<a>.<b>` is a digit or the point. */
  lemma NumeralChars(a: string, b: string)
    requires AllDigits(a) && AllDigits(b)
    ensures forall i :: 0 <= i < |a + "." + b| ==> IsDigit((a + "." + b)[i]) || (a + "." + b)[i] == '.'
    ensures '.' !in a && '.' !in b
  {
    var s := a + "." + b;
    forall i | 0 <= i < |s| ensures IsDigit(s[i]) || s[i] == '.' {
      if i < |a| { assert s[i] == a[i]; }
      else if i > |a| { assert s[i] == b[i - |a| - 1]; }
    }
    assert forall i :: 0 <= i < |a| ==> a[i] != '.';
    assert forall i :: 0 <= i < |b| ==> b[i] != '.';
  }

  /** Stripping only removes characters. */
  lemma {:induction false} StripSub(s: string)
    ensures forall i :: 0 <= i < |Strip(s)| ==> Strip(s)[i] in s
    decreases |s|
  {
    if s != [] {
      if IsSpace(s[0]) {
        StripSub(s[1..]);
      } else if IsSpace(s[|s| - 1]) {
        StripSub(s[..|s| - 1]);
      }
    }
  }

  /** A mantissa with an exponent is never negative. */
  lemma UnsignedNonNegative(body: string)
    ensures UnsignedFloat(body).Ok? ==> UnsignedFloat(body).value >= 0.0
  {
    var parts := Split(body[..ExponentAt(body)], '.');
    if |parts| == 2 && AllDigits(parts[0]) && AllDigits(parts[1]) {
      NumeralNonNegative(parts[0], parts[1]);
    }
  }

  lemma NumeralNonNegative(a: string, b: string)
    requires AllDigits(a) && AllDigits(b)
    ensures NumeralValue(a, b) >= 0.0
  {
    var p := Pow10(|b|) as real;
    var q := DigitsValue(b) as real / p;
    assert q * p == DigitsValue(b) as real;
  }

  /** `float(s)` of a text without a minus sign is never negative. */
  lemma ParseFloatNonNegative(s: string)
    requires '-' !in s
    ensures ParseFloat(s).Ok? ==> ParseFloat(s).value >= 0.0
  {
    StripSub(s);
    var t := Strip(s);
    if |t| > 0 {
      assert t[0] in s;
      UnsignedNonNegative(t[1..]);
    }
    UnsignedNonNegative(t);
  }

  /** `float` of a run of digits is its value. */
  lemma ParseFloatDigits(a: string)
    requires IsDigits(a)
    ensures ParseFloat(a) == Ok(DigitsValue(a) as real)
  {
    var v := DigitsValue(a) as real;
    StripNumeral(a);
    ExponentAbsent(a);
    assert '.' !in a by {
      assert forall i :: 0 <= i < |a| ==> a[i] != '.';
    }
    SplitPrefix(a, "", '.');
    assert a + "" == a;
    assert Split(a, '.') == [a];
    assert DecimalValue(a) == Some(v);
    UnsignedPlain(a, v);
    SignlessFloat(a, v);
  }
}
