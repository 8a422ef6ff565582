/** String operations of the JavaScript runtime that the client relies on:
    prefix and suffix tests, `split('/').pop()`, the decimal rendering of a
    whole number (`${n}`), `parseInt(s, 10)` and the cache-busting query
    append `${url}${url.includes('?') ? '&' : '?'}${param}`. */
module Text {

  predicate StartsWith(s: string, prefix: string) {
    |prefix| <= |s| && s[..|prefix|] == prefix
  }

  predicate EndsWith(s: string, suffix: string) {
    |suffix| <= |s| && s[|s| - |suffix|..] == suffix
  }

  /** JavaScript `a || b` on two strings: the empty string is falsy. */
  function Or(a: string, b: string): (r: string)
    ensures r == a || r == b
    ensures a != "" ==> r == a
    ensures a == "" ==> r == b
    ensures r == "" <==> a == "" && b == ""
  {
    if a != "" then a else b
  }

  /** `s.split('/').pop()`: the part of `s` after its last '/', or all of
      `s` when it holds no '/'. */
  function LastSegment(s: string): (r: string)
    ensures '/' !in r
    ensures EndsWith(s, r)
    ensures |r| == |s| || s[|s| - |r| - 1] == '/'
  {
    if s == [] then []
    else if s[|s| - 1] == '/' then []
    else
      var init := s[..|s| - 1];
      var r := LastSegment(init) + [s[|s| - 1]];
      assert s[|s| - |r|..] == init[|init| - |r| + 1..] + [s[|s| - 1]];
      r
  }

  // ---------------------------------------------------------------------
  // Decimal numerals

  predicate IsDigit(c: char) {
    '0' <= c <= '9'
  }

  predicate AllDigits(s: string) {
    forall i | 0 <= i < |s| :: IsDigit(s[i])
  }

  function DigitChar(d: nat): (c: char)
    requires d < 10
    ensures IsDigit(c)
  {
    ('0' as int + d) as char
  }

  function DigitValue(c: char): (d: nat)
    requires IsDigit(c)
    ensures d < 10
  {
    c as int - '0' as int
  }

  /** The shortest decimal numeral of `n`, as JavaScript renders a
      non-negative integer. */
  function Decimal(n: nat): (r: string)
    ensures |r| >= 1 && AllDigits(r)
    ensures |r| > 1 ==> r[0] != '0'
  {
    if n < 10 then [DigitChar(n)] else Decimal(n / 10) + [DigitChar(n % 10)]
  }

  /** `${i}` for any integer. */
  function IntString(i: int): (r: string)
    ensures |r| >= 1
    ensures i >= 0 ==> r == Decimal(i)
    ensures i < 0 ==> r == "-" + Decimal(-i)
  {
    if i < 0 then "-" + Decimal(-i) else Decimal(i)
  }

  /** The value of a string of digits, most significant first. */
  function DigitsValue(ds: string): nat
    requires AllDigits(ds)
  {
    if ds == [] then 0 else DigitsValue(ds[..|ds| - 1]) * 10 + DigitValue(ds[|ds| - 1])
  }

  lemma {:induction false} DecimalValue(n: nat)
    ensures DigitsValue(Decimal(n)) == n
  {
    if n >= 10 {
      var d := Decimal(n);
      assert d[..|d| - 1] == Decimal(n / 10);
      DecimalValue(n / 10);
    }
  }

  // ---------------------------------------------------------------------
  // parseInt(s, 10)

  /** A JavaScript number as far as the model needs one: an integer, or NaN. */
  datatype JsNumber = Num(value: int) | NaN

  /** The StrWhiteSpaceChar set that parseInt skips (ECMAScript white space
      and line terminators). */
  predicate IsJsSpace(c: char) {
    c == '\t' || c == '\n' || c == '\U{0B}' || c == '\U{0C}' || c == '\r' || c == ' '
    || c == '\U{A0}' || c == '\U{1680}' || ('\U{2000}' <= c <= '\U{200A}')
    || c == '\U{2028}' || c == '\U{2029}' || c == '\U{202F}' || c == '\U{205F}'
    || c == '\U{3000}' || c == '\U{FEFF}'
  }

  function TrimStart(s: string): string {
    if s != [] && IsJsSpace(s[0]) then TrimStart(s[1..]) else s
  }

  /** The longest prefix of `s` made of digits. */
  function LeadingDigits(s: string): (r: string)
    ensures StartsWith(s, r) && AllDigits(r)
    ensures |r| == |s| || !IsDigit(s[|r|])
  {
    if s != [] && IsDigit(s[0]) then [s[0]] + LeadingDigits(s[1..]) else []
  }

  /** `parseInt(s, 10)`: skip leading white space, read an optional sign and
      then as many digits as follow; NaN when there is no digit. */
  function ParseInt(s: string): JsNumber {
    ParseSigned(TrimStart(s))
  }

  function ParseSigned(t: string): JsNumber {
    if t != [] && t[0] == '-' then Negate(ParseDigits(t[1..]))
    else if t != [] && t[0] == '+' then ParseDigits(t[1..])
    else ParseDigits(t)
  }

  function Negate(x: JsNumber): JsNumber {
    match x
    case Num(v) => Num(-v)
    case NaN => NaN
  }

  function ParseDigits(body: string): JsNumber {
    var ds := LeadingDigits(body);
    if ds == [] then NaN else Num(DigitsValue(ds))
  }

  /** parseInt reads back every integer that `${i}` writes, whatever follows
      it as long as that does not start with a digit. */
  lemma ParseIntString(i: int, rest: string)
    requires rest == [] || !IsDigit(rest[0])
    ensures ParseInt(IntString(i) + rest) == Num(i)
  {
    if i < 0 {
      ParseIntNegativeNumeral(-i, rest);
    } else {
      ParseIntNumeral(i, rest);
    }
  }

  lemma ParseIntNumeral(n: nat, rest: string)
    requires rest == [] || !IsDigit(rest[0])
    ensures ParseInt(Decimal(n) + rest) == Num(n)
  {
    var d := Decimal(n);
    var t := d + rest;
    ParseDigitsNumeral(n, rest);
    assert IsDigit(d[0]);
    assert t[0] == d[0];
    assert TrimStart(t) == t;
  }

  lemma ParseIntNegativeNumeral(n: nat, rest: string)
    requires rest == [] || !IsDigit(rest[0])
    ensures ParseInt("-" + Decimal(n) + rest) == Num(-(n as int))
  {
    var d := Decimal(n);
    var t := "-" + (d + rest);
    assert t == "-" + d + rest;
    ParseDigitsNumeral(n, rest);
    assert t[0] == '-' && !IsJsSpace('-');
    assert TrimStart(t) == t;
    assert t[1..] == d + rest;
    assert ParseSigned(t) == Negate(ParseDigits(d + rest));
  }

  lemma ParseDigitsNumeral(n: nat, rest: string)
    requires rest == [] || !IsDigit(rest[0])
    ensures ParseDigits(Decimal(n) + rest) == Num(n)
  {
    LeadingDigitsStop(Decimal(n), rest);
    DecimalValue(n);
  }

  lemma {:induction false} LeadingDigitsStop(d: string, rest: string)
    requires AllDigits(d)
    requires rest == [] || !IsDigit(rest[0])
    ensures LeadingDigits(d + rest) == d
  {
    if d != [] {
      assert (d + rest)[1..] == d[1..] + rest;
      LeadingDigitsStop(d[1..], rest);
    } else {
      assert d + rest == rest;
    }
  }

  /** Multiplying by a non-negative factor keeps the order. */
  lemma MulMonotone(a: int, b: int, d: nat)
    requires a <= b
    ensures a * d <= b * d
  {
  }

  // ---------------------------------------------------------------------
  // Cache busting

  /** `${url}${url.includes('?') ? '&' : '?'}${param}`: add one query
      parameter to a URL that may already carry a query. */
  function AppendQuery(url: string, param: string): (r: string)
    ensures StartsWith(r, url) && EndsWith(r, param)
    ensures |r| == |url| + 1 + |param|
    ensures r[|url|] == '&' <==> '?' in url
    ensures r[|url|] == '?' <==> '?' !in url
    ensures '?' in r
  {
    url + (if '?' in url then "&" else "?") + param
  }

  /** What follows the URL is exactly one separator and the parameter. */
  lemma AppendQueryAfterUrl(url: string, param: string)
    ensures AppendQuery(url, param)[|url|..] == (if '?' in url then "&" else "?") + param
  {
    var sep := if '?' in url then "&" else "?";
    assert url + sep + param == url + (sep + param);
  }

  /** Once a query is present every further parameter is joined with '&'. */
  lemma AppendQueryTwice(url: string, p: string, q: string)
    ensures AppendQuery(AppendQuery(url, p), q) == AppendQuery(url, p) + "&" + q
  {
  }
}
