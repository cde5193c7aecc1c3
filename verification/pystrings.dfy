/** The few Python string operations the screener relies on, on ASCII text.
    Python's Unicode-aware case mapping, `isalnum` and whitespace classes are
    restricted here to their ASCII part. */
module PyStrings {
  import opened Wrappers

  predicate IsAsciiUpper(c: char) { 'A' <= c <= 'Z' }
  predicate IsAsciiLower(c: char) { 'a' <= c <= 'z' }
  predicate IsDigit(c: char) { '0' <= c <= '9' }
  predicate IsAlnum(c: char) { IsAsciiUpper(c) || IsAsciiLower(c) || IsDigit(c) }

  /** The ASCII characters `str.strip()` removes. */
  predicate IsSpace(c: char) {
    c == ' ' || c == '\t' || c == '\n' || c == '\r' || c == '\U{B}' || c == '\U{C}'
    || ('\U{1C}' <= c <= '\U{1F}')
  }

  /** `str.isalnum()`: non-empty and every character a letter or digit. */
  predicate IsAlnumString(s: string) {
    |s| > 0 && forall i :: 0 <= i < |s| ==> IsAlnum(s[i])
  }

  predicate StartsWith(s: string, prefix: string) {
    |prefix| <= |s| && s[..|prefix|] == prefix
  }

  predicate EndsWith(s: string, suffix: string) {
    |suffix| <= |s| && s[|s| - |suffix|..] == suffix
  }

  function UpperChar(c: char): char {
    if IsAsciiLower(c) then (c as int - 32) as char else c
  }

  function LowerChar(c: char): char {
    if IsAsciiUpper(c) then (c as int + 32) as char else c
  }

  /** `str.upper()`: maps letters position by position and changes nothing else. */
  function Upper(s: string): (r: string)
    ensures |r| == |s|
    ensures forall i :: 0 <= i < |s| ==> r[i] == UpperChar(s[i])
    ensures forall i :: 0 <= i < |s| ==> !IsAsciiLower(r[i])
  {
    if |s| == 0 then "" else [UpperChar(s[0])] + Upper(s[1..])
  }

  /** `str.lower()`. */
  function Lower(s: string): (r: string)
    ensures |r| == |s|
    ensures forall i :: 0 <= i < |s| ==> r[i] == LowerChar(s[i])
  {
    if |s| == 0 then "" else [LowerChar(s[0])] + Lower(s[1..])
  }

  /** Upper-casing a string with no lower-case letter leaves it unchanged. */
  lemma UpperOfUpper(s: string)
    requires forall i :: 0 <= i < |s| ==> !IsAsciiLower(s[i])
    ensures Upper(s) == s
  {
  }

  function LStrip(s: string): (r: string)
    ensures |r| <= |s| && r == s[|s| - |r|..]
    ensures r == [] || !IsSpace(r[0])
    ensures forall i :: 0 <= i < |s| - |r| ==> IsSpace(s[i])
  {
    if |s| > 0 && IsSpace(s[0]) then LStrip(s[1..]) else s
  }

  function RStrip(s: string): (r: string)
    ensures |r| <= |s| && r == s[..|r|]
    ensures r == [] || !IsSpace(r[|r| - 1])
    ensures forall i :: |r| <= i < |s| ==> IsSpace(s[i])
  {
    if |s| > 0 && IsSpace(s[|s| - 1]) then RStrip(s[..|s| - 1]) else s
  }

  /** `str.strip()`: the longest infix with no surrounding whitespace. */
  function Strip(s: string): (r: string)
    ensures |r| <= |s|
    ensures r == [] || (!IsSpace(r[0]) && !IsSpace(r[|r| - 1]))
    ensures (|s| == 0 || (!IsSpace(s[0]) && !IsSpace(s[|s| - 1]))) ==> r == s
  {
    RStrip(LStrip(s))
  }

  /** Stripping adds no character. */
  lemma StripKeepsOut(s: string, c: char)
    requires c !in s
    ensures c !in Strip(s)
  {
    var l := LStrip(s);
    assert forall x :: x in l ==> x in s;
    var r := RStrip(l);
    assert forall x :: x in r ==> x in l;
  }

  /** Position of the first `c` in `s`. */
  function IndexOf(s: string, c: char): (i: nat)
    requires c in s
    ensures i < |s| && s[i] == c && c !in s[..i]
  {
    if s[0] == c then 0
    else
      assert c in s[1..];
      1 + IndexOf(s[1..], c)
  }

  /** `s.split(sep)` for a one-character separator: never empty, no piece holds `sep`. */
  function Split(s: string, sep: char): (parts: seq<string>)
    ensures |parts| >= 1
    ensures forall i :: 0 <= i < |parts| ==> sep !in parts[i]
    decreases |s|
  {
    if sep !in s then [s]
    else
      var i := IndexOf(s, sep);
      [s[..i]] + Split(s[i + 1..], sep)
  }

  /** `sep.join(parts)` for a one-character separator. */
  function Join(parts: seq<string>, sep: char): string {
    if |parts| == 0 then ""
    else if |parts| == 1 then parts[0]
    else parts[0] + [sep] + Join(parts[1..], sep)
  }

  /** Splitting and re-joining on the same separator gives back the string. */
  lemma {:induction false} JoinSplit(s: string, sep: char)
    ensures Join(Split(s, sep), sep) == s
    decreases |s|
  {
    if sep in s {
      var i := IndexOf(s, sep);
      var rest := Split(s[i + 1..], sep);
      JoinSplit(s[i + 1..], sep);
      var parts := [s[..i]] + rest;
      assert Split(s, sep) == parts;
      assert |parts| >= 2 && parts[0] == s[..i] && parts[1..] == rest;
      assert Join(parts, sep) == s[..i] + [sep] + Join(rest, sep);
      assert s == s[..i] + [sep] + s[i + 1..];
    }
  }

  /** Splitting a join of separator-free pieces gives the pieces back. */
  lemma {:induction false} SplitJoin(parts: seq<string>, sep: char)
    requires |parts| >= 1 && forall i :: 0 <= i < |parts| ==> sep !in parts[i]
    ensures Split(Join(parts, sep), sep) == parts
  {
    if |parts| == 1 {
      assert Join(parts, sep) == parts[0];
    } else {
      var tail := parts[1..];
      assert forall i :: 0 <= i < |tail| ==> sep !in tail[i] by {
        forall i | 0 <= i < |tail| ensures sep !in tail[i] {
          assert tail[i] == parts[i + 1];
        }
      }
      SplitJoin(tail, sep);
      JoinCons(parts, sep);
      SplitCons(parts[0], sep, Join(tail, sep));
      assert parts == [parts[0]] + tail;
    }
  }

  lemma JoinCons(parts: seq<string>, sep: char)
    requires |parts| >= 2
    ensures Join(parts, sep) == parts[0] + [sep] + Join(parts[1..], sep)
  {
  }

  /** A separator-free head followed by the separator splits off as the first piece. */
  lemma SplitCons(head: string, sep: char, rest: string)
    requires sep !in head
    ensures Split(head + [sep] + rest, sep) == [head] + Split(rest, sep)
  {
    var s := head + [sep] + rest;
    IndexAfterPrefix(head, sep, rest);
    assert s[..|head|] == head;
    assert s[|head| + 1..] == rest;
  }

  lemma IndexAfterPrefix(head: string, sep: char, rest: string)
    requires sep !in head
    ensures sep in head + [sep] + rest && IndexOf(head + [sep] + rest, sep) == |head|
  {
    var s := head + [sep] + rest;
    assert s[|head|] == sep;
    assert s[..|head|] == head;
  }

  /** `s.replace(c, "")` for one character. */
  function Without(s: string, c: char): (r: string)
    ensures c !in r
    ensures forall x :: x in r ==> x in s
    ensures c !in s ==> r == s
  {
    if |s| == 0 then ""
    else if s[0] == c then Without(s[1..], c)
    else [s[0]] + Without(s[1..], c)
  }

  /** `s.replace(pattern, "")`: removes non-overlapping occurrences left to right. */
  function RemoveAll(s: string, pattern: string): (r: string)
    requires |pattern| > 0
    ensures |r| <= |s|
    ensures (forall i :: 0 <= i < |s| ==> s[i] != pattern[0]) ==> r == s
    decreases |s|
  {
    if |s| < |pattern| then s
    else if s[..|pattern|] == pattern then RemoveAll(s[|pattern|..], pattern)
    else [s[0]] + RemoveAll(s[1..], pattern)
  }

  function DigitChar(d: nat): (c: char)
    requires d < 10
    ensures IsDigit(c)
  {
    ('0' as int + d) as char
  }

  function DigitValue(c: char): nat
    requires IsDigit(c)
  {
    c as int - '0' as int
  }

  predicate AllDigits(s: string) {
    forall i :: 0 <= i < |s| ==> IsDigit(s[i])
  }

  /** `str(n)` for a natural number. */
  function NatToString(n: nat): (s: string)
    ensures |s| >= 1 && AllDigits(s)
  {
    if n < 10 then [DigitChar(n)] else NatToString(n / 10) + [DigitChar(n % 10)]
  }

  /** The number a string of decimal digits denotes. */
  function DigitsValue(s: string): nat
    requires AllDigits(s)
  {
    if |s| == 0 then 0 else DigitsValue(s[..|s| - 1]) * 10 + DigitValue(s[|s| - 1])
  }

  /** Reading back the decimal rendering of a number gives the number. */
  lemma {:induction false} NatToStringRoundTrip(n: nat)
    ensures DigitsValue(NatToString(n)) == n
  {
    if n >= 10 {
      NatToStringRoundTrip(n / 10);
      var s := NatToString(n);
      assert s[..|s| - 1] == NatToString(n / 10);
    }
  }

  /** Splits a leading sign off: `-1`, `+1` or `+1` implied. */
  function SignOf(s: string): (r: (int, string))
    ensures r.0 == 1 || r.0 == -1
    ensures |r.1| <= |s|
  {
    if |s| > 0 && s[0] == '-' then (-1, s[1..])
    else if |s| > 0 && s[0] == '+' then (1, s[1..])
    else (1, s)
  }

  /** `int(s)`: optional surrounding whitespace, an optional sign, one or more
      digits. Python also reads `_` between digits; that raises `ValueError` here. */
  function ParseInt(s: string): (r: Result<int>)
    ensures r.Ok? <==> (var body := SignOf(Strip(s)).1; |body| > 0 && AllDigits(body))
  {
    var (sign, body) := SignOf(Strip(s));
    if |body| > 0 && AllDigits(body) then Ok(sign * DigitsValue(body))
    else Err("ValueError")
  }

  function Pow10(k: nat): (p: nat)
    ensures p >= 1
  {
    if k == 0 then 1 else 10 * Pow10(k - 1)
  }

  /** An unsigned decimal: digits with at most one point and at least one digit. */
  function ParseDecimal(body: string): (r: Result<real>)
    ensures |body| > 0 && AllDigits(body) ==> r == Ok(DigitsValue(body) as real)
    ensures r.Ok? ==> r.value >= 0.0
    ensures r.Ok? ==> |body| > 0 && forall k :: 0 <= k < |body| ==> IsDigit(body[k]) || body[k] == '.'
  {
    if |body| > 0 && AllDigits(body) then Ok(DigitsValue(body) as real)
    else if '.' in body then
      var i := IndexOf(body, '.');
      var whole := body[..i];
      var frac := body[i + 1..];
      if |whole| + |frac| > 0 && AllDigits(whole) && AllDigits(frac) then
        assert forall k :: 0 <= k < |body| ==> k < i || k == i || body[k] == frac[k - i - 1];
        Ok(DigitsValue(whole) as real + DigitsValue(frac) as real / Pow10(|frac|) as real)
      else Err("ValueError")
    else Err("ValueError")
  }

  predicate IsExponentMark(c: char) { c == 'e' || c == 'E' }

  /** Position of the first exponent marker `e` or `E`, if any. */
  function ExponentMark(s: string): (i: Option<nat>)
    ensures i.None? ==> forall k :: 0 <= k < |s| ==> !IsExponentMark(s[k])
    ensures i.Some? ==> i.value < |s| && IsExponentMark(s[i.value])
                        && forall k :: 0 <= k < i.value ==> !IsExponentMark(s[k])
  {
    if |s| == 0 then None
    else if IsExponentMark(s[0]) then Some(0)
    else match ExponentMark(s[1..])
      case None => None
      case Some(j) => Some(j + 1)
  }

  /** `m * 10 ** e` for a whole exponent of either sign. */
  function Scaled(m: real, sign: int, e: nat): (r: real)
    requires sign == 1 || sign == -1
    ensures sign == 1 ==> r == m * Pow10(e) as real
    ensures sign == -1 ==> r * Pow10(e) as real == m
  {
    if sign == 1 then m * Pow10(e) as real else m / Pow10(e) as real
  }

  /** An unsigned float literal: a decimal, optionally followed by `e` or `E`
      and an optionally signed whole exponent. */
  function ParseUnsigned(body: string): (r: Result<real>)
    ensures |body| > 0 && AllDigits(body) ==> r == Ok(DigitsValue(body) as real)
    ensures ExponentMark(body).None? ==> r == ParseDecimal(body)
    ensures ExponentMark(body).Some? ==>
              var i := ExponentMark(body).value;
              var (esign, digits) := SignOf(body[i + 1..]);
              (r.Ok? <==> ParseDecimal(body[..i]).Ok? && |digits| > 0 && AllDigits(digits))
              && (r.Ok? ==> r.value == Scaled(ParseDecimal(body[..i]).value, esign, DigitsValue(digits)))
  {
    match ExponentMark(body)
    case None => ParseDecimal(body)
    case Some(i) =>
      var (esign, digits) := SignOf(body[i + 1..]);
      if |digits| > 0 && AllDigits(digits) then
        match ParseDecimal(body[..i])
        case Ok(m) => Ok(Scaled(m, esign, DigitsValue(digits)))
        case Err(e) => Err(e)
      else Err("ValueError")
  }

  /** `float(s)` for the decimal and exponent notations: surrounding
      whitespace, an optional sign, then an unsigned literal. Python also
      reads `inf`, `nan` and `_` between digits; those raise `ValueError`
      here. */
  function ParseFloat(s: string): (r: Result<real>)
    ensures r.Ok? ==> |Strip(s)| > 0
  {
    var sb := SignOf(Strip(s));
    match ParseUnsigned(sb.1)
    case Ok(x) => Ok(sb.0 as real * x)
    case Err(e) => Err(e)
  }

  /** Whatever `int` reads, `float` reads as the same number. */
  lemma ParseFloatExtendsInt(s: string)
    ensures ParseInt(s).Ok? ==> ParseFloat(s) == Ok(ParseInt(s).value as real)
  {
    var sb := SignOf(Strip(s));
    if ParseInt(s).Ok? {
      assert ParseUnsigned(sb.1) == Ok(DigitsValue(sb.1) as real);
      SignedCast(sb.0, DigitsValue(sb.1));
    }
  }

  lemma SignedCast(sign: int, n: nat)
    requires sign == 1 || sign == -1
    ensures (sign * n) as real == sign as real * n as real
  {
  }

  /** `float("1e3")` is a thousand. */
  lemma ParseThousand()
    ensures ParseFloat("1e3") == Ok(1000.0)
  {
    Unstripped("1e3");
    ThousandUnsigned();
    PlainFloat("1e3");
  }

  lemma ThousandUnsigned()
    ensures ParseUnsigned("1e3") == Ok(1000.0)
  {
    assert ExponentMark("1e3") == Some(1);
    assert "1e3"[..1] == "1" && "1e3"[2..] == "3";
    assert SignOf("3") == (1, "3");
    assert DigitsValue("3") == 3 && DigitsValue("1") == 1;
    assert Pow10(3) == 1000;
  }

  /** `float("2.5E-1")` is a quarter. */
  lemma ParseQuarter()
    ensures ParseFloat("2.5E-1") == Ok(0.25)
  {
    Unstripped("2.5E-1");
    QuarterUnsigned();
    PlainFloat("2.5E-1");
  }

  lemma QuarterUnsigned()
    ensures ParseUnsigned("2.5E-1") == Ok(0.25)
  {
    assert ExponentMark("2.5E-1") == Some(3);
    assert "2.5E-1"[..3] == "2.5" && "2.5E-1"[4..] == "-1";
    assert SignOf("-1") == (-1, "1");
    assert DigitsValue("1") == 1;
    ParseTwoAndAHalf();
  }

  lemma ParseTwoAndAHalf()
    ensures ParseDecimal("2.5") == Ok(2.5)
  {
    assert !IsDigit("2.5"[1]);
    assert IndexOf("2.5", '.') == 1;
    assert "2.5"[..1] == "2" && "2.5"[2..] == "5";
    assert DigitsValue("2") == 2 && DigitsValue("5") == 5;
  }

  /** An exponent needs a mantissa before it and digits after it. */
  lemma ParseBareExponentFails()
    ensures ParseFloat("e3").Err?
    ensures ParseFloat("1e").Err?
  {
    Unstripped("e3");
    Unstripped("1e");
    NoMantissa();
    NoExponent();
    PlainFloat("e3");
    PlainFloat("1e");
  }

  lemma NoMantissa()
    ensures ParseUnsigned("e3").Err?
  {
    assert ExponentMark("e3") == Some(0);
    assert "e3"[..0] == "";
  }

  lemma NoExponent()
    ensures ParseUnsigned("1e").Err?
  {
    assert ExponentMark("1e") == Some(1);
    assert "1e"[2..] == "";
  }

  /** A negative whole number reads the same through `float` as through `int`. */
  lemma ParseMinusFive()
    ensures ParseFloat("-5") == Ok(-5.0)
  {
    IntMinusFive();
    ParseFloatExtendsInt("-5");
  }

  lemma IntMinusFive()
    ensures ParseInt("-5") == Ok(-5)
  {
    DigitFive();
    ParseNegatedDigits("5", "-5");
  }

  lemma DigitFive()
    ensures AllDigits("5") && DigitsValue("5") == 5
  {
    assert "5"[..0] == "";
  }

  /** A word is not a number. */
  lemma ParseWordFails()
    ensures ParseFloat("abc").Err?
  {
    Unstripped("abc");
    assert ExponentMark("abc").None?;
    assert !IsDigit("abc"[0]) && !('.' in "abc");
    PlainFloat("abc");
  }

  /** An unsigned literal with nothing to strip reads as itself. */
  lemma PlainFloat(s: string)
    requires SignOf(Strip(s)) == (1, s)
    ensures ParseUnsigned(s).Err? ==> ParseFloat(s).Err?
    ensures ParseUnsigned(s).Ok? ==> ParseFloat(s) == Ok(ParseUnsigned(s).value)
  {
  }

  /** A literal that starts with a digit or a letter and ends in one carries
      no whitespace to strip and no sign. */
  lemma Unstripped(s: string)
    requires |s| > 0 && (IsDigit(s[0]) || IsAsciiLower(s[0])) && !IsSpace(s[|s| - 1])
    ensures SignOf(Strip(s)) == (1, s)
  {
  }

  /** A string of digits passes through `strip` and carries no sign. */
  lemma ParseBareDigits(s: string)
    requires |s| > 0 && AllDigits(s)
    ensures ParseInt(s) == Ok(DigitsValue(s))
  {
    assert !IsSpace(s[0]) && !IsSpace(s[|s| - 1]);
    assert Strip(s) == s;
    assert SignOf(s) == (1, s);
  }

  lemma StripSignedDigits(s: string, t: string)
    requires |s| > 0 && AllDigits(s) && t == "-" + s
    ensures Strip(t) == t
  {
    assert t[|t| - 1] == s[|s| - 1];
  }

  /** A minus sign followed by digits passes through `strip` and is read as negative. */
  lemma ParseNegatedDigits(s: string, t: string)
    requires |s| > 0 && AllDigits(s) && t == "-" + s
    ensures ParseInt(t) == Ok(-(DigitsValue(s) as int))
  {
    StripSignedDigits(s, t);
    assert t[1..] == s;
  }

  /** `int(str(n))` gives back the number. */
  lemma ParseIntRoundTrip(n: nat)
    ensures ParseInt(NatToString(n)) == Ok(n)
  {
    NatToStringRoundTrip(n);
    ParseBareDigits(NatToString(n));
  }
}
