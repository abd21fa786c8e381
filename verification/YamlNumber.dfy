/**
 YAML decimals as JSON numbers (internal/outputschema/yaml.go, schema.go): the
 rewritten token fits section 6 of RFC 8259 and denotes the same number.
 */
module YamlNumber {
  import opened Wrappers

  predicate IsDigit(c: char) { '0' <= c <= '9' }

  predicate Digits(s: string) { forall i :: 0 <= i < |s| ==> IsDigit(s[i]) }

  /** How many digits s starts with. */
  function Span(s: string): (n: nat)
    ensures n <= |s| && Digits(s[..n]) && (n < |s| ==> !IsDigit(s[n]))
  {
    if s == "" || !IsDigit(s[0]) then 0
    else
      assert s[1..][..Span(s[1..])] == s[..1 + Span(s[1..])][1..];
      1 + Span(s[1..])
  }

  // --- The two grammars ---

  /** A decimal taken apart; exp keeps its letter and sign. */
  datatype Parts = Parts(sign: string, whole: string, dot: bool, fraction: string, exp: string)

  /** The fraction with its point. */
  function Point(dot: bool, fraction: string): string {
    if dot then "." + fraction else ""
  }

  function Text(d: Parts): string {
    d.sign + (d.whole + (Point(d.dot, d.fraction) + d.exp))
  }

  /** The digits of an exponent, without letter and sign. */
  function ExpDigits(exp: string): string
    requires exp != ""
  {
    if |exp| > 1 && (exp[1] == '+' || exp[1] == '-') then exp[2..] else exp[1..]
  }

  predicate ExpShape(exp: string) {
    exp != "" ==> (exp[0] == 'e' || exp[0] == 'E') && ExpDigits(exp) != "" && Digits(ExpDigits(exp))
  }

  /** yamlDecimal. */
  predicate YamlShape(d: Parts) {
    && (d.sign == "" || d.sign == "+" || d.sign == "-")
    && Digits(d.whole) && Digits(d.fraction) && ExpShape(d.exp)
    && (if d.dot then d.whole != "" || d.fraction != "" else d.whole != "" && d.fraction == "")
  }

  /** number of RFC 8259: no plus sign, no leading zero, no bare point. */
  predicate JsonShape(d: Parts) {
    && (d.sign == "" || d.sign == "-")
    && Digits(d.whole) && (d.whole == "0" || (d.whole != "" && d.whole[0] != '0'))
    && Digits(d.fraction) && (d.dot <==> d.fraction != "")
    && ExpShape(d.exp)
  }

  function SignOf(t: string): string {
    if t != "" && (t[0] == '+' || t[0] == '-') then t[..1] else ""
  }

  /** Point, fraction and exponent at the front of s. */
  function Fraction(s: string): (bool, string, string) {
    if s != "" && s[0] == '.' then
      var f := Span(s[1..]);
      (true, s[1..][..f], s[1..][f..])
    else (false, "", s)
  }

  /** Matching the pattern and taking the token apart. */
  function Parse(t: string): Option<Parts> {
    var sign := SignOf(t);
    var r := t[|sign|..];
    var (dot, fraction, exp) := Fraction(r[Span(r)..]);
    var d := Parts(sign, r[..Span(r)], dot, fraction, exp);
    if YamlShape(d) then Some(d) else None
  }

  lemma {:induction false} SpanOf(ds: string, rest: string)
    requires Digits(ds) && (rest != "" ==> !IsDigit(rest[0]))
    ensures Span(ds + rest) == |ds|
  {
    if ds == "" {
      assert ds + rest == rest;
    } else {
      SpanOf(ds[1..], rest);
      assert (ds + rest)[1..] == ds[1..] + rest;
    }
  }

  lemma Rejoined(s: string, i: nat)
    requires i <= |s|
    ensures s == s[..i] + s[i..]
  {
  }

  lemma FractionSound(s: string)
    ensures var (dot, fraction, exp) := Fraction(s); s == Point(dot, fraction) + exp
  {
    if s != "" && s[0] == '.' {
      Rejoined(s, 1);
      Rejoined(s[1..], Span(s[1..]));
      assert s[..1] == ".";
      var (a, b) := (s[1..][..Span(s[1..])], s[1..][Span(s[1..])..]);
      assert "." + (a + b) == "." + a + b;
    }
  }

  lemma ParseSound(t: string)
    ensures Parse(t).Some? ==> YamlShape(Parse(t).value) && Text(Parse(t).value) == t
  {
    var r := t[|SignOf(t)|..];
    Rejoined(t, |SignOf(t)|);
    Rejoined(r, Span(r));
    FractionSound(r[Span(r)..]);
  }

  lemma AfterPoint(fraction: string, exp: string)
    ensures "." + fraction + exp != "" && ("." + fraction + exp)[0] == '.'
    ensures ("." + fraction + exp)[1..] == fraction + exp
  {
  }

  lemma FractionOf(dot: bool, fraction: string, exp: string)
    requires Digits(fraction) && ExpShape(exp) && (!dot ==> fraction == "")
    ensures Fraction(Point(dot, fraction) + exp) == (dot, fraction, exp)
  {
    var s := Point(dot, fraction) + exp;
    if dot {
      AfterPoint(fraction, exp);
      SpanOf(fraction, exp);
      Apart(fraction, exp);
    } else {
      assert s == exp;
    }
  }

  lemma Apart(a: string, b: string)
    ensures (a + b)[..|a|] == a && (a + b)[|a|..] == b
  {
  }

  lemma SignApart(sign: string, r: string)
    requires sign == "" || sign == "+" || sign == "-"
    requires r != "" && r[0] != '+' && r[0] != '-'
    ensures SignOf(sign + r) == sign && (sign + r)[|sign|..] == r
  {
    if sign == "" {
      assert sign + r == r;
    } else {
      assert (sign + r)[..1] == sign;
    }
  }

  lemma ParseComplete(d: Parts)
    requires YamlShape(d)
    ensures Parse(Text(d)) == Some(d)
  {
    var tail := Point(d.dot, d.fraction) + d.exp;
    var r := d.whole + tail;
    NoSignInside(d);
    SignApart(d.sign, r);
    assert tail != "" ==> !IsDigit(tail[0]);
    SpanOf(d.whole, tail);
    Apart(d.whole, tail);
    FractionOf(d.dot, d.fraction, d.exp);
  }

  /** Neither a sign nor an exponent's letter is among the digits. */
  lemma NoSignInside(d: Parts)
    requires YamlShape(d)
    ensures var digits := d.whole + Point(d.dot, d.fraction);
            && digits != "" && digits[0] != '+' && digits[0] != '-'
            && (forall i :: 0 <= i < |digits| ==> digits[i] != 'e' && digits[i] != 'E')
            && d.whole + (Point(d.dot, d.fraction) + d.exp) == digits + d.exp
  {
  }

  /** The pattern matches exactly the texts of decimals of that shape. */
  lemma MatchesIff(t: string)
    ensures Parse(t).Some? <==> exists d :: YamlShape(d) && Text(d) == t
  {
    ParseSound(t);
    if exists d :: YamlShape(d) && Text(d) == t {
      var d :| YamlShape(d) && Text(d) == t;
      ParseComplete(d);
    }
  }

  // --- The rewriting ---

  function TrimZeros(s: string): string {
    if s != "" && s[0] == '0' then TrimZeros(s[1..]) else s
  }

  function Normal(d: Parts): Parts {
    Parts(if d.sign == "-" then "-" else "",
          if TrimZeros(d.whole) == "" then "0" else TrimZeros(d.whole),
          d.dot,
          if d.dot && d.fraction == "" then "0" else d.fraction,
          d.exp)
  }

  /** Where the exponent starts, or the length. */
  function IndexExp(s: string): (i: nat)
    ensures i <= |s|
  {
    if s == "" || s[0] == 'e' || s[0] == 'E' then 0 else 1 + IndexExp(s[1..])
  }

  function IndexPoint(s: string): (i: nat)
    ensures i <= |s|
  {
    if s == "" || s[0] == '.' then 0 else 1 + IndexPoint(s[1..])
  }

  lemma {:induction false} IndexExpOf(a: string, exp: string)
    requires forall i :: 0 <= i < |a| ==> a[i] != 'e' && a[i] != 'E'
    requires ExpShape(exp)
    ensures IndexExp(a + exp) == |a|
  {
    if a == "" {
      assert a + exp == exp;
    } else {
      IndexExpOf(a[1..], exp);
      assert (a + exp)[1..] == a[1..] + exp;
    }
  }

  lemma {:induction false} IndexPointOf(a: string, rest: string)
    requires Digits(a) && (rest == "" || rest[0] == '.')
    ensures IndexPoint(a + rest) == |a|
  {
    if a == "" {
      assert a + rest == rest;
    } else {
      IndexPointOf(a[1..], rest);
      assert (a + rest)[1..] == a[1..] + rest;
    }
  }

  /** strings.Cut at the exponent's letter. */
  method CutExponent(token: string) returns (digits: string, exponent: string)
    ensures digits == token[..IndexExp(token)] && exponent == token[IndexExp(token)..]
  {
    digits, exponent := token, "";
    var e := IndexExp(token);
    if e < |token| {
      exponent := token[e..];
      digits := token[..e];
    }
  }

  /** The token without its sign; a plus sign is dropped for good. */
  method CutSign(t: string) returns (sign: string, token: string)
    requires SignOf(t) == "+" ==> SignOf(t[1..]) == ""
    ensures sign == (if SignOf(t) == "-" then "-" else "") && token == t[|SignOf(t)|..]
  {
    token := t;
    if token != "" && token[0] == '+' {
      token := token[1..];
    }
    sign := "";
    if token != "" && token[0] == '-' {
      sign := "-";
      token := token[1..];
    }
  }

  /** strings.Cut at the point. */
  method CutPoint(digits: string, ghost whole: string, ghost dot: bool, ghost fraction: string)
    returns (w: string, decimal: bool, f: string)
    requires digits == whole + Point(dot, fraction) && Digits(whole) && (!dot ==> fraction == "")
    ensures w == whole && decimal == dot && f == fraction
  {
    ghost var rest := Point(dot, fraction);
    IndexPointOf(whole, rest);
    Apart(whole, rest);
    var p := IndexPoint(digits);
    decimal := p < |digits|;
    w := digits[..p];
    f := "";
    if decimal {
      f := digits[p + 1..];
      assert f == rest[1..];
      assert rest[1..] == fraction;
    }
  }

  /** Whole part and fraction, filled up to what JSON asks for. */
  method Fill(digits: string, ghost whole: string, ghost dot: bool, ghost fraction: string) returns (filled: string)
    requires digits == whole + Point(dot, fraction) && Digits(whole) && (!dot ==> fraction == "")
    ensures filled == (if TrimZeros(whole) == "" then "0" else TrimZeros(whole))
                      + Point(dot, if dot && fraction == "" then "0" else fraction)
  {
    var w, decimal, f := CutPoint(digits, whole, dot, fraction);
    w := TrimZeros(w);
    if w == "" {
      w := "0";
    }
    if decimal {
      if f == "" {
        f := "0";
      }
      filled := w + ("." + f);
    } else {
      filled := w;
      assert filled == w + "";
    }
  }

  /** The float branch of yamlNumber on a token that matches the pattern. */
  method Rewrite(t: string) returns (out: string)
    requires Parse(t).Some?
    ensures out == Text(Normal(Parse(t).value))
  {
    ghost var d := Parse(t).value;
    ghost var digits := d.whole + Point(d.dot, d.fraction);
    ParseSound(t);
    NoSignInside(d);
    SignApart(d.sign, digits + d.exp);
    assert t[|d.sign|..] == digits + d.exp;
    var sign, token := CutSign(t);
    IndexExpOf(digits, d.exp);
    Apart(digits, d.exp);
    var exponent;
    token, exponent := CutExponent(token);
    token := Fill(token, d.whole, d.dot, d.fraction);
    out := sign + token + exponent;
    ghost var n := Normal(d);
    Grouped(n.sign, n.whole, Point(n.dot, n.fraction), n.exp);
  }

  lemma Grouped(a: string, b: string, c: string, e: string)
    ensures a + (b + c) + e == a + (b + (c + e))
  {
  }

  lemma {:induction false} TrimmedDigits(s: string)
    requires Digits(s)
    ensures Digits(TrimZeros(s)) && (TrimZeros(s) != "" ==> TrimZeros(s)[0] != '0')
  {
    if s != "" && s[0] == '0' {
      TrimmedDigits(s[1..]);
    }
  }

  /** The rewritten token is a JSON number. */
  lemma NormalFitsJson(d: Parts)
    requires YamlShape(d)
    ensures JsonShape(Normal(d)) && YamlShape(Normal(d))
  {
    TrimmedDigits(d.whole);
  }

  // --- The number it denotes ---

  function Digit(c: char): int
    requires IsDigit(c)
  {
    c as int - '0' as int
  }

  function ToInt(s: string): int
    requires Digits(s)
  {
    if s == "" then 0 else 10 * ToInt(s[..|s| - 1]) + Digit(s[|s| - 1])
  }

  function Pow10(n: nat): real { if n == 0 then 1.0 else 10.0 * Pow10(n - 1) }

  lemma {:induction false} Pow10Positive(n: nat)
    ensures Pow10(n) > 0.0
  {
    if n > 0 {
      Pow10Positive(n - 1);
    }
  }

  /** Ten to the power e. */
  function Scale(e: int): real {
    if e >= 0 then Pow10(e) else (Pow10Positive(-e); 1.0 / Pow10(-e))
  }

  function ExpValue(exp: string): int
    requires ExpShape(exp)
  {
    if exp == "" then 0
    else if |exp| > 1 && exp[1] == '-' then -ToInt(ExpDigits(exp)) else ToInt(ExpDigits(exp))
  }

  function Scaled(m: int, e: int): real { m as real * Scale(e) }

  function Value(d: Parts): real
    requires YamlShape(d)
  {
    if d.sign == "-" then -Magnitude(d) else Magnitude(d)
  }

  lemma {:induction false} LeadingZero(s: string)
    requires Digits(s)
    ensures ToInt("0" + s) == ToInt(s)
  {
    if s == "" {
      assert ("0" + s)[..0] == "";
    } else {
      LeadingZero(s[..|s| - 1]);
      assert ("0" + s)[..|s|] == "0" + s[..|s| - 1];
    }
  }

  lemma {:induction false} TrimmedValue(s: string, rest: string)
    requires Digits(s) && Digits(rest)
    ensures Digits(TrimZeros(s)) && ToInt(TrimZeros(s) + rest) == ToInt(s + rest)
  {
    TrimmedDigits(s);
    if s != "" && s[0] == '0' {
      TrimmedValue(s[1..], rest);
      LeadingZero(s[1..] + rest);
      assert s + rest == "0" + (s[1..] + rest);
    }
  }

  lemma ScaleStep(e: int)
    ensures Scale(e) == 10.0 * Scale(e - 1)
  {
    if e <= 0 {
      Pow10Positive(-e);
      Pow10Positive(1 - e);
      assert Pow10(1 - e) == 10.0 * Pow10(-e);
      Reciprocal(Pow10(-e));
    }
  }

  lemma Reciprocal(p: real)
    requires p > 0.0
    ensures 1.0 / p == 10.0 * (1.0 / (10.0 * p))
  {
    assert 10.0 * p * (1.0 / (10.0 * p)) == 1.0;
  }

  /** Trimming the whole part and filling it up again leaves the number of all digits. */
  lemma TrimmedWhole(whole: string, rest: string)
    requires Digits(whole) && Digits(rest)
    ensures var trimmed := TrimZeros(whole);
            var w := if trimmed == "" then "0" else trimmed;
            Digits(w + rest) && ToInt(w + rest) == ToInt(whole + rest)
  {
    TrimmedDigits(whole);
    TrimmedValue(whole, rest);
    if TrimZeros(whole) == "" {
      LeadingZero(rest);
      assert "" + rest == rest;
    }
  }

  lemma SameDigits(d: Parts)
    requires YamlShape(d)
    ensures var n := Normal(d);
            Digits(n.whole + n.fraction) && ToInt(n.whole + n.fraction) == ToInt(d.whole + n.fraction)
  {
    TrimmedWhole(d.whole, Normal(d).fraction);
  }

  lemma FilledFraction(w: string, e: int)
    requires Digits(w)
    ensures Scaled(ToInt(w + "0"), e - 1) == Scaled(ToInt(w + ""), e)
  {
    assert (w + "0")[..|w|] == w && w + "" == w;
    ScaleStep(e);
    TenTimes(ToInt(w), Scale(e - 1));
  }

  function Magnitude(d: Parts): real
    requires YamlShape(d)
  {
    Scaled(ToInt(d.whole + d.fraction), ExpValue(d.exp) - |d.fraction|)
  }

  lemma SameMagnitude(d: Parts)
    requires YamlShape(d) && YamlShape(Normal(d))
    ensures Magnitude(Normal(d)) == Magnitude(d)
  {
    SameDigits(d);
    var n := Normal(d);
    if n.fraction != d.fraction {
      FilledFraction(d.whole, ExpValue(d.exp));
    }
  }

  /** Leading zeros, a bare point, a plus sign: the number stays the same. */
  lemma NormalKeepsValue(d: Parts)
    requires YamlShape(d)
    ensures YamlShape(Normal(d)) && Value(Normal(d)) == Value(d)
  {
    NormalFitsJson(d);
    SameMagnitude(d);
  }

  lemma TenTimes(x: int, s: real)
    ensures (10 * x) as real * s == x as real * (10.0 * s)
  {
    assert (10 * x) as real == 10.0 * x as real;
  }

  // --- What is accepted ---

  const MAX_LENGTH := 4096
  const MAX_EXPONENT := 4096

  function WithoutUnderscores(s: string): string {
    if s == "" then "" else (if s[0] == '_' then "" else s[..1]) + WithoutUnderscores(s[1..])
  }

  /** yamlNumber on a !!float scalar. */
  method YamlFloat(value: string) returns (r: Option<string>)
    ensures r == Accepted(value)
  {
    var token := WithoutUnderscores(value);
    if |token| > MAX_LENGTH {
      return None;
    }
    if Parse(token).None? {
      return None;
    }
    ghost var d := Parse(token).value;
    ParseSound(token);
    NormalFitsJson(d);
    ParseComplete(Normal(d));
    token := Rewrite(token);
    if |token| == 0 || |token| > MAX_LENGTH {
      return None;
    }
    ExpOfNormal(d);
    var pos := IndexExp(token);
    if pos < |token| {
      var exponent := ExpValue(token[pos..]);
      if exponent < -MAX_EXPONENT || exponent > MAX_EXPONENT {
        return None;
      }
    }
    return Some(token);
  }

  lemma ExpOfNormal(d: Parts)
    requires YamlShape(d)
    ensures var t := Text(Normal(d));
            && (IndexExp(t) < |t| <==> d.exp != "") && (d.exp != "" ==> t[IndexExp(t)..] == d.exp)
            && t != ""
  {
    NormalFitsJson(d);
    var n := Normal(d);
    var digits := n.whole + Point(n.dot, n.fraction);
    NoSignInside(n);
    Grouped("", n.sign, digits, n.exp);
    assert Text(n) == n.sign + digits + n.exp;
    IndexExpOf(n.sign + digits, n.exp);
    Apart(n.sign + digits, n.exp);
  }

  /** The token of an accepted scalar. */
  function Accepted(value: string): Option<string> {
    var token := WithoutUnderscores(value);
    var d := Parse(token);
    if d.Some? && |token| <= MAX_LENGTH && |Text(Normal(d.value))| <= MAX_LENGTH
       && -MAX_EXPONENT <= ExpValue(d.value.exp) <= MAX_EXPONENT
    then Some(Text(Normal(d.value))) else None
  }

  /** Every accepted scalar becomes a JSON number of the same value. */
  lemma AcceptedIsSameNumber(value: string)
    ensures var r, d := Accepted(value), Parse(WithoutUnderscores(value));
            r.Some? ==>
              && d.Some? && Parse(r.value).Some? && JsonShape(Parse(r.value).value)
              && YamlShape(d.value) && Value(Parse(r.value).value) == Value(d.value)
  {
    var d := Parse(WithoutUnderscores(value));
    if d.Some? {
      ParseSound(WithoutUnderscores(value));
      NormalFitsJson(d.value);
      ParseComplete(Normal(d.value));
      NormalKeepsValue(d.value);
    }
  }

  /** This decimal, written as a token, is within the bounds before and after it is rewritten. */
  predicate WithinBounds(d: Parts) {
    YamlShape(d) && |Text(d)| <= MAX_LENGTH && |Text(Normal(d))| <= MAX_LENGTH && -MAX_EXPONENT <= ExpValue(d.exp) <= MAX_EXPONENT
  }

  /**
   A scalar is accepted if and only if without its underscores it is a decimal
   within the bounds, and only for that decimal.
   */
  lemma AcceptedIff(value: string)
    ensures Accepted(value).Some? <==> exists d :: WithinBounds(d) && Text(d) == WithoutUnderscores(value)
    ensures forall d :: WithinBounds(d) && Text(d) == WithoutUnderscores(value) ==> Accepted(value) == Some(Text(Normal(d)))
  {
    var token := WithoutUnderscores(value);
    ParseSound(token);
    forall d | YamlShape(d) && Text(d) == token
      ensures Parse(token) == Some(d)
    {
      ParseComplete(d);
    }
    if Accepted(value).Some? {
      assert WithinBounds(Parse(token).value) && Text(Parse(token).value) == token;
    }
  }

  /**
   A text without an underscore stays as it is, whatever underscores stand before
   and after it go, and the rest is treated alike.
   */
  lemma {:induction false} UnderscoresOnly(s: string, underscores: string, rest: string)
    requires forall i :: 0 <= i < |s| ==> s[i] != '_'
    requires forall i :: 0 <= i < |underscores| ==> underscores[i] == '_'
    ensures WithoutUnderscores(s + underscores + rest) == s + WithoutUnderscores(rest)
  {
    if s != "" {
      assert (s + underscores + rest)[1..] == s[1..] + underscores + rest;
      assert s == s[..1] + s[1..];
      UnderscoresOnly(s[1..], underscores, rest);
    } else if underscores != "" {
      assert s + underscores + rest == underscores + rest;
      assert (underscores + rest)[1..] == s + underscores[1..] + rest;
      UnderscoresOnly(s, underscores[1..], rest);
    } else {
      assert s + underscores + rest == rest;
    }
  }
}
