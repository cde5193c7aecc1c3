/** Symbol and range validation (src/utils/validators.py). NSE symbols are
    words over upper-case letters, digits, `&` and `-`, 2 to 20 characters long. */
module Validators {
  import opened Wrappers
  import opened PyStrings
  import opened PyValues

  /** The character class `[A-Z0-9&\-]`. */
  predicate IsSymbolChar(c: char) {
    IsAsciiUpper(c) || IsDigit(c) || c == '&' || c == '-'
  }

  /** A non-empty word over the symbol alphabet. */
  predicate IsSymbolWord(s: string) {
    |s| > 0 && forall i :: 0 <= i < |s| ==> IsSymbolChar(s[i])
  }

  /** `re.match(r'^[A-Z0-9&\-]+$', u)`. Python's `$` also matches just before a
      final newline, so one trailing `\n` is tolerated. */
  predicate MatchesSymbolPattern(u: string) {
    IsSymbolWord(u) || (|u| > 0 && u[|u| - 1] == '\n' && IsSymbolWord(u[..|u| - 1]))
  }

  /** `validate_symbol`: length 2..20 and, once upper-cased, every character in the
      alphabet, except possibly one final newline. */
  function ValidateSymbol(symbol: string): (ok: bool)
    ensures |symbol| == 0 ==> !ok
    ensures |symbol| < 2 || |symbol| > 20 ==> !ok
    ensures ok <==>
      && 2 <= |symbol| <= 20
      && ((forall i :: 0 <= i < |symbol| ==> IsSymbolChar(UpperChar(symbol[i])))
          || (symbol[|symbol| - 1] == '\n'
              && forall i :: 0 <= i < |symbol| - 1 ==> IsSymbolChar(UpperChar(symbol[i]))))
  {
    if |symbol| == 0 then false
    else if |symbol| < 2 || |symbol| > 20 then false
    else
      var u := Upper(symbol);
      assert u[..|u| - 1] == Upper(symbol[..|symbol| - 1]);
      MatchesSymbolPattern(u)
  }

  /** `re.sub(r'[^A-Z0-9&\-]', '', s)`: keeps exactly the alphabet characters, in order. */
  function KeepSymbolChars(s: string): (r: string)
    ensures |r| <= |s|
    ensures forall i :: 0 <= i < |r| ==> IsSymbolChar(r[i])
    ensures (forall i :: 0 <= i < |s| ==> IsSymbolChar(s[i])) ==> r == s
  {
    if |s| == 0 then ""
    else if IsSymbolChar(s[0]) then [s[0]] + KeepSymbolChars(s[1..])
    else KeepSymbolChars(s[1..])
  }

  /** The text `sanitize_symbol` validates: stripped, upper-cased, filtered. */
  function CleanSymbol(symbol: string): string {
    KeepSymbolChars(Upper(Strip(symbol)))
  }

  /** `sanitize_symbol`: `None` for the empty string; otherwise the cleaned text
      when it validates. A cleaned text holds only alphabet characters, so it
      validates exactly when its length is in 2..20. */
  function SanitizeSymbol(symbol: string): (r: Option<string>)
    ensures |symbol| == 0 ==> r == None
    ensures r.Some? ==> ValidateSymbol(r.value) && IsSymbolWord(r.value) && 2 <= |r.value| <= 20
    ensures r.Some? <==> |symbol| > 0 && 2 <= |CleanSymbol(symbol)| <= 20
    ensures r.Some? ==> r.value == CleanSymbol(symbol)
  {
    if |symbol| == 0 then None
    else
      var clean := CleanSymbol(symbol);
      if ValidateSymbol(clean) then Some(clean) else None
  }

  /** Cleaning a word over the alphabet changes nothing. */
  lemma CleanOfWord(s: string)
    requires IsSymbolWord(s)
    ensures CleanSymbol(s) == s
  {
    assert !IsSpace(s[0]) && !IsSpace(s[|s| - 1]);
    assert Strip(s) == s;
    assert forall i :: 0 <= i < |s| ==> !IsAsciiLower(s[i]);
    UpperOfUpper(s);
  }

  /** A sanitised symbol sanitises to itself, so `sanitize(sanitize(x)) == sanitize(x)`. */
  lemma SanitizeIdempotent(symbol: string)
    ensures SanitizeSymbol(symbol).Some? ==>
              SanitizeSymbol(SanitizeSymbol(symbol).value) == SanitizeSymbol(symbol)
  {
    var r := SanitizeSymbol(symbol);
    if r.Some? {
      SanitizeKeepsValidWords(r.value);
    }
  }

  /** A symbol that validates, once cleaned, is kept as it is. */
  lemma SanitizeKeepsValidWords(symbol: string)
    requires IsSymbolWord(symbol) && 2 <= |symbol| <= 20
    ensures SanitizeSymbol(symbol) == Some(symbol)
  {
    CleanOfWord(symbol);
  }

  /** The worked example " m&m " cleans to "M&M". */
  lemma SanitizeExample()
    ensures SanitizeSymbol(" m&m ") == Some("M&M")
  {
    CleanExample();
    ValidateExample();
  }

  lemma CleanExample()
    ensures CleanSymbol(" m&m ") == "M&M"
  {
    StripExample();
    UpperExample();
    assert IsSymbolWord("M&M");
  }

  lemma UpperExample()
    ensures Upper("m&m") == "M&M"
  {
    var u := Upper("m&m");
    assert u[0] == 'M' && u[1] == '&' && u[2] == 'M';
  }

  lemma ValidateExample()
    ensures ValidateSymbol("M&M")
  {
    assert IsSymbolWord(Upper("M&M"));
  }

  lemma StripExample()
    ensures Strip(" m&m ") == "m&m"
  {
    var x := " m&m ";
    assert LStrip(x[1..]) == x[1..];
    assert LStrip(x) == "m&m ";
    var y := "m&m ";
    assert RStrip(y[..3]) == y[..3];
    assert RStrip(y) == "m&m";
  }

  /** A single character is too short, and a trailing newline slips through the pattern. */
  lemma ValidateSymbolExamples()
    ensures !ValidateSymbol("A")
    ensures ValidateSymbol("AB\n")
    ensures !ValidateSymbol("A B")
  {
    var s := "AB\n";
    assert IsSymbolChar(UpperChar(s[0])) && IsSymbolChar(UpperChar(s[1]));
    assert !IsSymbolChar(UpperChar("A B"[1]));
  }

  /** Python's `float(v)`: numbers convert, strings are parsed, anything else is a `TypeError`. */
  function ToFloat(v: Value): (r: Result<real>)
    ensures AsNumber(v).Some? ==> r == Ok(AsNumber(v).value)
    ensures v.VStr? ==> r == ParseFloat(v.s)
    ensures v.VNone? || v.VDict? ==> r.Err?
  {
    match v
    case VBool(b) => Ok(if b then 1.0 else 0.0)
    case VInt(i) => Ok(i as real)
    case VFloat(f) => Ok(f)
    case VStr(s) => ParseFloat(s)
    case _ => Err("TypeError")
  }

  /** `validate_score`: the inclusive range test; a value `float` rejects is invalid. */
  function ValidateScore(score: Value, minScore: real, maxScore: real): (ok: bool)
    ensures AsNumber(score).Some? ==> (ok <==> minScore <= AsNumber(score).value <= maxScore)
    ensures ToFloat(score).Ok? ==> (ok <==> minScore <= ToFloat(score).value <= maxScore)
    ensures ToFloat(score).Err? ==> !ok
  {
    match ToFloat(score)
    case Ok(x) => minScore <= x <= maxScore
    case Err(_) => false
  }

  /** `validate_percentage`: [0, 100], or [-100, 100] when negatives are allowed. */
  function ValidatePercentage(value: Value, allowNegative: bool): (ok: bool)
    ensures AsNumber(value).Some? && !allowNegative ==> (ok <==> 0.0 <= AsNumber(value).value <= 100.0)
    ensures AsNumber(value).Some? && allowNegative ==> (ok <==> -100.0 <= AsNumber(value).value <= 100.0)
    ensures ToFloat(value).Ok? ==> (ok <==> (if allowNegative then -100.0 else 0.0) <= ToFloat(value).value <= 100.0)
    ensures ToFloat(value).Err? ==> !ok
  {
    match ToFloat(value)
    case Ok(x) => if allowNegative then -100.0 <= x <= 100.0 else 0.0 <= x <= 100.0
    case Err(_) => false
  }

  /** `validate_market_cap`: non-negative. */
  function ValidateMarketCap(marketCap: Value): (ok: bool)
    ensures AsNumber(marketCap).Some? ==> (ok <==> AsNumber(marketCap).value >= 0.0)
    ensures ToFloat(marketCap).Ok? ==> (ok <==> ToFloat(marketCap).value >= 0.0)
    ensures ToFloat(marketCap).Err? ==> !ok
  {
    match ToFloat(marketCap)
    case Ok(x) => x >= 0.0
    case Err(_) => false
  }

  /** `validate_price`: strictly positive. */
  function ValidatePrice(price: Value): (ok: bool)
    ensures AsNumber(price).Some? ==> (ok <==> AsNumber(price).value > 0.0)
    ensures ToFloat(price).Ok? ==> (ok <==> ToFloat(price).value > 0.0)
    ensures ToFloat(price).Err? ==> !ok
  {
    match ToFloat(price)
    case Ok(x) => x > 0.0
    case Err(_) => false
  }

  /** Every valid price is a valid market cap, and a percentage without sign is
      also one with sign allowed. */
  lemma ValidationInclusions(v: Value)
    ensures ValidatePrice(v) ==> ValidateMarketCap(v)
    ensures ValidatePercentage(v, false) ==> ValidatePercentage(v, true)
    ensures ValidatePercentage(v, true) <==> ValidateScore(v, -100.0, 100.0)
  {
  }

  /** Numeric strings are parsed before the range test: `"1e3"` is a valid
      price, `"-5"` is not, and `"abc"` is not a market cap. */
  lemma ValidateStringExamples()
    ensures ValidatePrice(VStr("1e3"))
    ensures !ValidatePrice(VStr("-5"))
    ensures !ValidateMarketCap(VStr("abc"))
  {
    assert ToFloat(VStr("1e3")) == Ok(1000.0) by { ParseThousand(); }
    assert ToFloat(VStr("-5")) == Ok(-5.0) by { ParseMinusFive(); }
    assert ToFloat(VStr("abc")).Err? by { ParseWordFails(); }
  }
}
