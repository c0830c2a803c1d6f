/**
 * Start-up configuration, older variant (src/config.ts): one required
 * variable, a PORT read with `parseInt(…, 10)`, defaults, and a fixed API URL.
 */
module LegacyConfig {
  import opened Wrappers
  import opened Text

  type Env = map<string, string>

  const BotTokenRequired := "BOT_TOKEN environment variable is required"
  const DefaultPort := 3000
  const DefaultEnvironment := "development"
  const DefaultLogLevel := "info"
  const SportsApiUrl := "https://www.sports.ru/gql/graphql/"

  /** A JavaScript number as `parseInt` can produce it: an integer or NaN. */
  datatype ParsedInt = Int(value: int) | NaN

  datatype Config = Config(
    botToken: string,
    port: ParsedInt,
    environment: string,
    logLevel: string,
    sportsApiUrl: string)

  predicate IsSet(env: Env, key: string) {
    key in env && env[key] != ""
  }

  /** The characters `parseInt` skips before the number (WhiteSpace and LineTerminator). */
  predicate IsJsWhitespace(c: char) {
    c == '\t' || c == '\n' || c == '\U{B}' || c == '\U{C}' || c == '\r' || c == ' '
    || c == '\U{A0}' || c == '\U{1680}' || ('\U{2000}' <= c <= '\U{200A}')
    || c == '\U{2028}' || c == '\U{2029}' || c == '\U{202F}' || c == '\U{205F}'
    || c == '\U{3000}' || c == '\U{FEFF}'
  }

  /** A run of characters that `parseInt` skips. */
  predicate IsBlank(w: string) {
    forall i :: 0 <= i < |w| ==> IsJsWhitespace(w[i])
  }

  function TrimStart(s: string): (r: string)
    ensures r == [] || !IsJsWhitespace(r[0])
    ensures |r| <= |s| && r == s[|s| - |r|..]
    ensures forall i :: 0 <= i < |s| - |r| ==> IsJsWhitespace(s[i])
  {
    if s != [] && IsJsWhitespace(s[0]) then TrimStart(s[1..]) else s
  }

  /** The longest prefix of s made of decimal digits. */
  function LeadingDigits(s: string): (r: string)
    ensures AllDigits(r) && |r| <= |s| && r == s[..|r|]
    ensures |r| < |s| ==> !IsDigit(s[|r|])
  {
    if s != [] && IsDigit(s[0]) then [s[0]] + LeadingDigits(s[1..]) else []
  }

  /** `parseInt(s, 10)`: skip white space, read an optional sign, then the longest run of digits. */
  function ParseInt(s: string): (r: ParsedInt)
  {
    ParseSigned(TrimStart(s))
  }

  /** What `parseInt` reads after the white space: an optional sign, then the longest run of digits. */
  function ParseSigned(t: string): (r: ParsedInt)
  {
    var negative := t != [] && t[0] == '-';
    var body := if t != [] && (t[0] == '-' || t[0] == '+') then t[1..] else t;
    var digits := LeadingDigits(body);
    if digits == [] then NaN
    else if negative then Negated(Int(DigitsValue(digits)))
    else Int(DigitsValue(digits))
  }

  /** Unary minus on a number `parseInt` can produce. */
  function Negated(p: ParsedInt): ParsedInt
  {
    if p.NaN? then NaN else Int(-p.value)
  }

  /** A non-empty string of digits parses to its base-10 value. */
  lemma ParseIntOfDigits(s: string)
    requires s != [] && AllDigits(s)
    ensures ParseInt(s) == Int(DigitsValue(s))
  {
    DigitIsNotWhitespace(s[0]);
    assert TrimStart(s) == s;
    assert s[0] != '-' && s[0] != '+';
    AllDigitsAreLeading(s);
  }

  lemma DigitIsNotWhitespace(c: char)
    requires IsDigit(c)
    ensures !IsJsWhitespace(c)
  {
  }

  lemma {:induction false} AllDigitsAreLeading(s: string)
    requires AllDigits(s)
    ensures LeadingDigits(s) == s
  {
    if s != [] {
      AllDigitsAreLeading(s[1..]);
    }
  }

  /** Parsing the decimal rendering of a number gives the number back. */
  lemma ParseIntRoundTrip(n: nat)
    ensures ParseInt(NatToString(n)) == Int(n)
  {
    ParseIntOfDigits(NatToString(n));
    NatToStringRoundTrip(n);
  }

  /** Parsing stops at the first character that is not a digit. */
  lemma {:induction false} ParseIntStopsAtNonDigit(digits: string, rest: string)
    requires digits != [] && AllDigits(digits)
    requires rest == [] || !IsDigit(rest[0])
    ensures ParseInt(digits + rest) == Int(DigitsValue(digits))
  {
    var s := digits + rest;
    assert s[0] == digits[0] && IsDigit(s[0]);
    DigitIsNotWhitespace(s[0]);
    assert TrimStart(s) == s;
    assert s[0] != '-' && s[0] != '+';
    LeadingDigitsOfConcat(digits, rest);
    assert LeadingDigits(s) == digits;
  }

  lemma {:induction false} LeadingDigitsOfConcat(digits: string, rest: string)
    requires AllDigits(digits)
    requires rest == [] || !IsDigit(rest[0])
    ensures LeadingDigits(digits + rest) == digits
  {
    if digits == [] {
      assert digits + rest == rest;
    } else {
      assert (digits + rest)[1..] == digits[1..] + rest;
      LeadingDigitsOfConcat(digits[1..], rest);
    }
  }

  /** Leading white space is skipped up to the first character that is not white space. */
  lemma {:induction false} TrimStartSkipsWhitespace(w: string, x: string)
    requires IsBlank(w)
    requires x == [] || !IsJsWhitespace(x[0])
    ensures TrimStart(w + x) == x
  {
    if w == [] {
      assert w + x == x;
    } else {
      assert (w + x)[1..] == w[1..] + x;
      TrimStartSkipsWhitespace(w[1..], x);
    }
  }

  /** Leading white space does not change what `parseInt` reads. */
  lemma {:induction false} ParseIntSkipsWhitespace(w: string, x: string)
    requires IsBlank(w)
    requires x == [] || !IsJsWhitespace(x[0])
    ensures ParseInt(w + x) == ParseInt(x)
  {
    TrimStartSkipsWhitespace(w, x);
    assert TrimStart(x) == x;
  }

  /** A text that does not start with white space is read as it is. */
  lemma ParseIntWithoutWhitespace(t: string)
    requires t == [] || !IsJsWhitespace(t[0])
    ensures ParseInt(t) == ParseSigned(t)
  {
    assert TrimStart(t) == t;
  }

  /** After a sign, `parseInt` reads a number starting with a digit as it is. */
  lemma ParseSignedAfterSign(sign: char, x: string)
    requires sign == '-' || sign == '+'
    requires x != [] && IsDigit(x[0])
    ensures ParseSigned(x).Int?
    ensures ParseSigned([sign] + x) == if sign == '-' then Negated(ParseSigned(x)) else ParseSigned(x)
  {
    var t := [sign] + x;
    assert t[0] == sign && t[1..] == x;
  }

  /** A minus sign before a number negates it. */
  lemma ParseIntNegative(x: string)
    requires x != [] && IsDigit(x[0])
    ensures ParseInt(x).Int? && ParseInt("-" + x) == Negated(ParseInt(x))
  {
    DigitIsNotWhitespace(x[0]);
    ParseIntWithoutWhitespace(x);
    ParseIntWithoutWhitespace("-" + x);
    ParseSignedAfterSign('-', x);
  }

  /** A plus sign before a number changes nothing. */
  lemma ParseIntPositive(x: string)
    requires x != [] && IsDigit(x[0])
    ensures ParseInt("+" + x) == ParseInt(x)
  {
    DigitIsNotWhitespace(x[0]);
    ParseIntWithoutWhitespace(x);
    ParseIntWithoutWhitespace("+" + x);
    ParseSignedAfterSign('+', x);
  }

  /** Concatenation regrouped to the right. */
  lemma Regroup(a: string, b: string, c: string, d: string)
    ensures a + b + c + d == a + (b + (c + d))
  {
  }

  /** Unary minus on an integer result. */
  lemma NegatedInt(p: ParsedInt, v: int)
    requires p == Negated(Int(v))
    ensures p == Int(-v)
  {
  }

  /** White space, a sign, digits and a non-digit: the sign applies to the value of the digits. */
  lemma {:induction false} ParseIntAfterSign(w: string, sign: char, d: string, rest: string)
    requires IsBlank(w)
    requires sign == '-' || sign == '+'
    requires d != [] && AllDigits(d)
    requires rest == [] || !IsDigit(rest[0])
    ensures var n := Int(DigitsValue(d)); ParseInt(w + [sign] + d + rest) == if sign == '-' then Negated(n) else n
  {
    var x := d + rest;
    assert x != [] && IsDigit(x[0]) && ParseInt(x) == Int(DigitsValue(d)) by {
      ParseIntStopsAtNonDigit(d, rest);
      assert x[0] == d[0];
    }
    assert ParseInt(w + [sign] + d + rest) == ParseInt([sign] + x) by {
      Regroup(w, [sign], d, rest);
      assert ([sign] + x)[0] == sign;
      ParseIntSkipsWhitespace(w, [sign] + x);
    }
    if sign == '-' {
      ParseIntNegative(x);
    } else {
      ParseIntPositive(x);
    }
  }

  /**
   * White space, a sign, digits and then a non-digit: the white space is
   * skipped, the sign is applied to the digits, and the rest is ignored
   * (" -42x" is -42, "+7" is 7).
   */
  lemma {:induction false} ParseIntSigned(w: string, d: string, rest: string)
    requires IsBlank(w)
    requires d != [] && AllDigits(d)
    requires rest == [] || !IsDigit(rest[0])
    ensures ParseInt(w + "-" + d + rest) == Int(-(DigitsValue(d) as int))
    ensures ParseInt(w + "+" + d + rest) == Int(DigitsValue(d))
  {
    ParseIntAfterSign(w, '-', d, rest);
    NegatedInt(ParseInt(w + "-" + d + rest), DigitsValue(d));
    ParseIntAfterSign(w, '+', d, rest);
  }

  /** A string with no digit after the white space and sign parses to NaN. */
  lemma ParseIntWithoutDigits(s: string)
    requires forall i :: 0 <= i < |s| ==> !IsDigit(s[i])
    ensures ParseInt(s) == NaN
  {
    var t := TrimStart(s);
    forall i | 0 <= i < |t| ensures !IsDigit(t[i]) {
      assert t[i] == s[|s| - |t| + i];
    }
    var body := if t != [] && (t[0] == '-' || t[0] == '+') then t[1..] else t;
    if body != [] {
      assert body[0] == t[|t| - |body|];
    }
    assert LeadingDigits(body) == [];
  }

  /** The configuration of src/config.ts. */
  function ValidateConfig(env: Env): (r: Result<Config, string>)
    ensures r.Failure? <==> !IsSet(env, "BOT_TOKEN")
    ensures r.Failure? ==> r.error == BotTokenRequired
    ensures r.Success? ==> r.value.botToken == env["BOT_TOKEN"] && r.value.sportsApiUrl == SportsApiUrl
    ensures r.Success? ==> r.value.port == if IsSet(env, "PORT") then ParseInt(env["PORT"]) else Int(DefaultPort)
    ensures r.Success? ==>
      && r.value.environment == (if IsSet(env, "NODE_ENV") then env["NODE_ENV"] else DefaultEnvironment)
      && r.value.logLevel == (if IsSet(env, "LOG_LEVEL") then env["LOG_LEVEL"] else DefaultLogLevel)
  {
    if !IsSet(env, "BOT_TOKEN") then Failure(BotTokenRequired)
    else
      var port := if IsSet(env, "PORT") then ParseInt(env["PORT"]) else Int(DefaultPort);
      var environment := if IsSet(env, "NODE_ENV") then env["NODE_ENV"] else DefaultEnvironment;
      var logLevel := if IsSet(env, "LOG_LEVEL") then env["LOG_LEVEL"] else DefaultLogLevel;
      Success(Config(env["BOT_TOKEN"], port, environment, logLevel, SportsApiUrl))
  }

  /** A PORT made only of digits is used as its base-10 value; the API URL ignores the environment. */
  lemma DigitPortIsUsed(env: Env)
    requires IsSet(env, "BOT_TOKEN") && IsSet(env, "PORT") && AllDigits(env["PORT"])
    ensures ValidateConfig(env).Success?
    ensures ValidateConfig(env).value.port == Int(DigitsValue(env["PORT"]))
    ensures ValidateConfig(env).value.sportsApiUrl == SportsApiUrl
  {
    ParseIntOfDigits(env["PORT"]);
  }
}
