/** The `"limit,window_secs"` overrides of the rate limiter. */
module LimitConfig {
  import opened Prelude

  const U64_BOUND: nat := 0x1_0000_0000_0000_0000

  predicate IsSpace(c: char) {
    c == ' ' || '\t' <= c <= '\r'
  }

  function TrimStart(s: string): string {
    if s != "" && IsSpace(s[0]) then TrimStart(s[1..]) else s
  }

  function TrimEnd(s: string): string {
    if s != "" && IsSpace(s[|s| - 1]) then TrimEnd(s[..|s| - 1]) else s
  }

  function Trim(s: string): string {
    TrimEnd(TrimStart(s))
  }

  predicate IsDigit(c: char) {
    '0' <= c <= '9'
  }

  function DigitValue(c: char): nat
    requires IsDigit(c)
  {
    (c - '0') as nat
  }

  predicate AllDigits(s: string) {
    forall i :: 0 <= i < |s| ==> IsDigit(s[i])
  }

  function DigitsValue(s: string): nat
    requires AllDigits(s)
  {
    if s == "" then 0 else 10 * DigitsValue(s[..|s| - 1]) + DigitValue(s[|s| - 1])
  }

  function Unsigned(s: string): string {
    if s != "" && s[0] == '+' then s[1..] else s
  }

  /** `str::parse::<u64>`: digits with an optional plus sign, within range. */
  function ParseU64(s: string): Option<nat> {
    var digits := Unsigned(s);
    if digits != "" && AllDigits(digits) && DigitsValue(digits) < U64_BOUND
    then Some(DigitsValue(digits)) else None
  }

  /** The position of the first comma, or the length. */
  function FirstComma(s: string): (i: nat)
    ensures i <= |s| && (i < |s| ==> s[i] == ',')
  {
    if s == "" || s[0] == ',' then 0 else 1 + FirstComma(s[1..])
  }

  function ParseOverride(raw: string): Option<(nat, nat)> {
    var text := Trim(raw);
    var cut := FirstComma(text);
    if cut == |text| then None
    else
      var limit, window := ParseU64(Trim(text[..cut])), ParseU64(Trim(text[cut + 1..]));
      if limit.Some? && window.Some? && limit.value > 0 && window.value > 0 then Some((limit.value, window.value)) else None
  }

  /** Anything malformed, out of range or zero falls back to the built-in budget. */
  function ParseLimit(raw: string, default: (nat, nat)): (nat, nat) {
    match ParseOverride(raw)
    case Some(budget) => budget
    case None => default
  }

  predicate EndsWith(s: string, suffix: string) {
    |suffix| <= |s| && s[|s| - |suffix|..] == suffix
  }

  function EnvLimit(env: string -> Option<string>, name: string, default: (nat, nat)): (nat, nat) {
    match env(name)
    case Some(raw) => ParseLimit(raw, default)
    case None => default
  }

  function LimitsForPath(env: string -> Option<string>, path: string): (nat, nat) {
    if EndsWith(path, "/login") then EnvLimit(env, "IAM_LOGIN_LIMIT", (10, 60))
    else if EndsWith(path, "/register") then EnvLimit(env, "IAM_REGISTER_LIMIT", (5, 3600))
    else EnvLimit(env, "IAM_GENERAL_LIMIT", (100, 60))
  }

  /** Whatever the environment holds, every path has a positive limit and a positive window. */
  lemma LimitsPositive(env: string -> Option<string>, path: string)
    ensures LimitsForPath(env, path).0 > 0 && LimitsForPath(env, path).1 > 0
  {
  }

  // ---- Round trip ---------------------------------------------------------------------------------

  function Decimal(n: nat): (s: string)
    ensures s != "" && AllDigits(s)
  {
    if n < 10 then ['0' + n as char] else Decimal(n / 10) + ['0' + (n % 10) as char]
  }

  lemma {:induction false} DecimalValue(n: nat)
    ensures DigitsValue(Decimal(n)) == n
  {
    var s := Decimal(n);
    if n < 10 {
      assert s[..|s| - 1] == "";
    } else {
      DecimalValue(n / 10);
      assert s[..|s| - 1] == Decimal(n / 10);
    }
  }

  lemma ParseDecimal(n: nat)
    requires n < U64_BOUND
    ensures ParseU64(Decimal(n)) == Some(n)
  {
    DecimalValue(n);
  }

  ghost predicate Blank(s: string) {
    forall i :: 0 <= i < |s| ==> IsSpace(s[i])
  }

  lemma {:induction false} TrimStartPadded(p: string, s: string)
    requires Blank(p) && (s != "" ==> !IsSpace(s[0]))
    ensures TrimStart(p + s) == s
  {
    if p == "" {
      assert p + s == s;
    } else {
      assert (p + s)[1..] == p[1..] + s;
      TrimStartPadded(p[1..], s);
    }
  }

  lemma {:induction false} TrimEndPadded(s: string, q: string)
    requires Blank(q) && (s != "" ==> !IsSpace(s[|s| - 1]))
    ensures TrimEnd(s + q) == s
  {
    if q == "" {
      assert s + q == s;
    } else {
      assert (s + q)[..|s + q| - 1] == s + q[..|q| - 1];
      TrimEndPadded(s, q[..|q| - 1]);
    }
  }

  lemma TrimPadded(p: string, s: string, q: string)
    requires Blank(p) && Blank(q) && s != "" && !IsSpace(s[0]) && !IsSpace(s[|s| - 1])
    ensures Trim(p + s + q) == s
  {
    assert p + s + q == p + (s + q);
    TrimStartPadded(p, s + q);
    TrimEndPadded(s, q);
  }

  lemma {:induction false} FirstCommaAfter(a: string, b: string)
    requires ',' !in a
    ensures FirstComma(a + "," + b) == |a|
  {
    if a == "" {
      assert (a + "," + b)[0] == ',';
    } else {
      assert (a + "," + b)[1..] == a[1..] + "," + b;
      FirstCommaAfter(a[1..], b);
    }
  }

  /** A number as the parser takes it: an optional plus sign, then digits, leading zeros included. */
  predicate Numeral(s: string) {
    ParseU64(s).Some?
  }

  lemma NumeralShape(s: string)
    requires Numeral(s)
    ensures s != "" && !IsSpace(s[0]) && IsDigit(s[|s| - 1]) && ',' !in s
  {
    var digits := Unsigned(s);
    assert AllDigits(digits);
    assert IsDigit(digits[|digits| - 1]) && s[|s| - 1] == digits[|digits| - 1];
    forall i | 0 <= i < |s|
      ensures s[i] == '+' || IsDigit(s[i])
    {
      assert digits == s ==> IsDigit(digits[i]);
      assert digits != s && i > 0 ==> s[i] == digits[i - 1];
    }
  }

  lemma Regrouped(p: string, x: string, q: string, r: string, y: string, s: string)
    ensures p + x + q + "," + r + y + s == p + ((x + q) + "," + (r + y)) + s
  {
    assert p + x + q == p + (x + q);
    assert p + (x + q) + "," + r + y == p + ((x + q) + "," + (r + y));
  }

  /** The text between the outer spaces begins and ends with a numeral, so trimming stops there. */
  lemma TrimOuter(p: string, x: string, q: string, r: string, y: string, s: string)
    requires Blank(p) && Numeral(x) && Numeral(y) && Blank(s)
    ensures Trim(p + x + q + "," + r + y + s) == (x + q) + "," + (r + y)
  {
    NumeralShape(x);
    NumeralShape(y);
    Regrouped(p, x, q, r, y, s);
    TrimPadded(p, (x + q) + "," + (r + y), s);
  }

  /** Neither padding changes a field. */
  lemma TrimFields(x: string, q: string, r: string, y: string)
    requires Numeral(x) && Blank(q) && Blank(r) && Numeral(y)
    ensures Trim(x + q) == x && ',' !in x + q && Trim(r + y) == y
  {
    NumeralShape(x);
    NumeralShape(y);
    TrimPadded("", x, q);
    TrimPadded(r, y, "");
    assert "" + x + q == x + q && r + y + "" == r + y;
  }

  lemma ParseFields(raw: string, a: string, b: string)
    requires Trim(raw) == a + "," + b && ',' !in a && Numeral(Trim(a)) && Numeral(Trim(b))
    ensures var limit, window := ParseU64(Trim(a)).value, ParseU64(Trim(b)).value;
            ParseOverride(raw) == if limit > 0 && window > 0 then Some((limit, window)) else None
  {
    var text := a + "," + b;
    FirstCommaAfter(a, b);
    assert text[..|a|] == a && text[|a| + 1..] == b;
  }

  /** Two numerals separated by a comma, with any spacing around each. */
  ghost predicate Written(raw: string, p: string, x: string, q: string, r: string, y: string, s: string) {
    && raw == p + x + q + "," + r + y + s
    && Blank(p) && Numeral(x) && Blank(q) && Blank(r) && Numeral(y) && Blank(s)
  }

  lemma WrittenParses(raw: string, p: string, x: string, q: string, r: string, y: string, s: string)
    requires Written(raw, p, x, q, r, y, s)
    ensures var limit, window := ParseU64(x).value, ParseU64(y).value;
            ParseOverride(raw) == if limit > 0 && window > 0 then Some((limit, window)) else None
  {
    TrimOuter(p, x, q, r, y, s);
    TrimFields(x, q, r, y);
    ParseFields(raw, x + q, r + y);
  }

  /** A well-formed override, with any spacing around the numbers, is read back exactly. */
  lemma ParseLimitRoundTrip(limit: nat, window: nat, p: string, q: string, r: string, s: string, default: (nat, nat))
    requires 0 < limit < U64_BOUND && 0 < window < U64_BOUND
    requires Blank(p) && Blank(q) && Blank(r) && Blank(s)
    ensures ParseLimit(p + Decimal(limit) + q + "," + r + Decimal(window) + s, default) == (limit, window)
  {
    ParseDecimal(limit);
    ParseDecimal(window);
    WrittenParses(p + Decimal(limit) + q + "," + r + Decimal(window) + s, p, Decimal(limit), q, r, Decimal(window), s);
  }

  // ---- Which numerals are taken ----------------------------------------------------------------------

  function Zeros(k: nat): string {
    seq(k, _ => '0')
  }

  /** The number in decimal, after `k` zeros and an optional plus sign. */
  function NumeralText(plus: bool, k: nat, n: nat): string {
    (if plus then "+" else "") + (Zeros(k) + Decimal(n))
  }

  ghost predicate Denotes(s: string, n: nat) {
    exists plus: bool, k: nat :: s == NumeralText(plus, k, n)
  }

  lemma {:induction false} ZerosValue(k: nat, s: string)
    requires AllDigits(s)
    ensures AllDigits(Zeros(k) + s) && DigitsValue(Zeros(k) + s) == DigitsValue(s)
    decreases k + |s|
  {
    var t := Zeros(k) + s;
    if s == "" {
      if k > 0 {
        assert t[..|t| - 1] == Zeros(k - 1) + "";
        ZerosValue(k - 1, "");
      }
    } else {
      assert t[..|t| - 1] == Zeros(k) + s[..|s| - 1];
      ZerosValue(k, s[..|s| - 1]);
    }
  }

  lemma OneDigit(c: char)
    requires IsDigit(c)
    ensures DigitValue(c) < 10 && Decimal(DigitValue(c)) == [c]
  {
  }

  lemma LastDigit(v: nat, c: char)
    requires v > 0 && IsDigit(c)
    ensures Decimal(10 * v + DigitValue(c)) == Decimal(v) + [c]
  {
    var n := 10 * v + DigitValue(c);
    OneDigit(c);
    assert n / 10 == v && n % 10 == DigitValue(c);
  }

  lemma DigitsSnoc(s: string)
    requires s != "" && AllDigits(s)
    ensures var front, c := s[..|s| - 1], s[|s| - 1];
            s == front + [c] && AllDigits(front) && IsDigit(c) && DigitsValue(s) == 10 * DigitsValue(front) + DigitValue(c)
  {
  }

  /** One more digit after `front`, which is the number `v` after `k` zeros. */
  lemma OneMoreDigit(front: string, k: nat, v: nat, c: char) returns (k': nat)
    requires front == Zeros(k) + Decimal(v) && IsDigit(c)
    ensures front + [c] == Zeros(k') + Decimal(10 * v + DigitValue(c))
  {
    OneDigit(c);
    if v == 0 {
      k' := k + 1;
      assert front == Zeros(k) + "0" == Zeros(k');
    } else {
      k' := k;
      LastDigit(v, c);
      assert Zeros(k) + Decimal(v) + [c] == Zeros(k) + (Decimal(v) + [c]);
    }
  }

  /** Every row of digits is its value in decimal after some zeros. */
  lemma {:induction false} DigitsDenote(s: string) returns (k: nat)
    requires s != "" && AllDigits(s)
    ensures s == Zeros(k) + Decimal(DigitsValue(s))
  {
    var front, c := s[..|s| - 1], s[|s| - 1];
    DigitsSnoc(s);
    if front == "" {
      k := 0;
      OneDigit(c);
      assert Zeros(0) + Decimal(DigitValue(c)) == [c];
    } else {
      var k0 := DigitsDenote(front);
      k := OneMoreDigit(front, k0, DigitsValue(front), c);
    }
  }

  lemma SignDropped(digits: string, plus: bool)
    requires digits != "" && AllDigits(digits)
    ensures Unsigned((if plus then "+" else "") + digits) == digits
  {
    assert IsDigit(digits[0]);
    assert "" + digits == digits;
    assert ("+" + digits)[1..] == digits;
  }

  lemma DenotesParses(s: string, plus: bool, k: nat, n: nat)
    requires n < U64_BOUND && s == NumeralText(plus, k, n)
    ensures ParseU64(s) == Some(n)
  {
    ZerosValue(k, Decimal(n));
    DecimalValue(n);
    SignDropped(Zeros(k) + Decimal(n), plus);
  }

  /** A numeral is taken exactly when it denotes a number below 2^64, and is taken as that number. */
  lemma ParseU64Iff(s: string, n: nat)
    ensures ParseU64(s) == Some(n) <==> n < 0x1_0000_0000_0000_0000 && Denotes(s, n)
  {
    if ParseU64(s) == Some(n) {
      var k := DigitsDenote(Unsigned(s));
      assert s == NumeralText(Unsigned(s) != s, k, n);
    }
    if n < U64_BOUND && Denotes(s, n) {
      var plus: bool, k: nat :| s == NumeralText(plus, k, n);
      DenotesParses(s, plus, k, n);
    }
  }

  // ---- Which overrides are taken -----------------------------------------------------------------------

  lemma {:induction false} TrimStartDrops(s: string) returns (p: string)
    ensures s == p + TrimStart(s) && Blank(p)
  {
    if s != "" && IsSpace(s[0]) {
      var rest := TrimStartDrops(s[1..]);
      p := [s[0]] + rest;
      assert s == [s[0]] + (rest + TrimStart(s[1..])) == p + TrimStart(s[1..]);
      assert TrimStart(s) == TrimStart(s[1..]);
    } else {
      p := "";
    }
  }

  lemma {:induction false} TrimEndDrops(s: string) returns (q: string)
    ensures s == TrimEnd(s) + q && Blank(q)
  {
    if s != "" && IsSpace(s[|s| - 1]) {
      var rest := TrimEndDrops(s[..|s| - 1]);
      q := rest + [s[|s| - 1]];
      assert s == (TrimEnd(s[..|s| - 1]) + rest) + [s[|s| - 1]] == TrimEnd(s[..|s| - 1]) + q;
      assert TrimEnd(s) == TrimEnd(s[..|s| - 1]);
    } else {
      q := "";
    }
  }

  lemma TrimDrops(s: string) returns (p: string, q: string)
    ensures s == p + Trim(s) + q && Blank(p) && Blank(q)
  {
    p := TrimStartDrops(s);
    q := TrimEndDrops(TrimStart(s));
  }

  lemma Joined(p: string, p1: string, x: string, q: string, r: string, y: string, s1: string, s: string)
    ensures p + ((p1 + x + q) + "," + (r + y + s1)) + s == (p + p1) + x + q + "," + r + y + (s1 + s)
  {
    assert p + ((p1 + x + q) + "," + (r + y + s1)) == (p + p1) + x + q + "," + r + y + s1;
  }

  lemma ParsedIsWritten(raw: string) returns (p: string, x: string, q: string, r: string, y: string, s: string)
    requires ParseOverride(raw).Some?
    ensures Written(raw, p, x, q, r, y, s) && ParseOverride(raw).value == (ParseU64(x).value, ParseU64(y).value)
  {
    var text := Trim(raw);
    var cut := FirstComma(text);
    var a, b := text[..cut], text[cut + 1..];
    assert text == a + "," + b;
    x, y := Trim(a), Trim(b);
    var p0, s0 := TrimDrops(raw);
    var p1, s1;
    p1, q := TrimDrops(a);
    r, s1 := TrimDrops(b);
    Joined(p0, p1, x, q, r, y, s1, s0);
    p, s := p0 + p1, s1 + s0;
  }

  /**
    The override is taken exactly when the text is two positive numbers below 2^64 separated by a comma,
    each with any spacing around it; everything else falls back to the default.
   */
  lemma OverrideIff(raw: string, limit: nat, window: nat)
    ensures ParseOverride(raw) == Some((limit, window))
       <==> limit > 0 && window > 0 && exists p: string, x: string, q: string, r: string, y: string, s: string ::
              Written(raw, p, x, q, r, y, s) && ParseU64(x) == Some(limit) && ParseU64(y) == Some(window)
  {
    if ParseOverride(raw) == Some((limit, window)) {
      var p, x, q, r, y, s := ParsedIsWritten(raw);
      assert Written(raw, p, x, q, r, y, s);
    }
    forall p: string, x: string, q: string, r: string, y: string, s: string | Written(raw, p, x, q, r, y, s)
      ensures limit > 0 && window > 0 && ParseU64(x) == Some(limit) && ParseU64(y) == Some(window) ==>
                ParseOverride(raw) == Some((limit, window))
    {
      WrittenParses(raw, p, x, q, r, y, s);
    }
  }

  // ---- The budget of a path ------------------------------------------------------------------------------

  /** The budget is the override if the environment holds one that parses, and the built-in one otherwise. */
  ghost predicate BudgetIs(budget: (nat, nat), raw: Option<string>, limit: nat, window: nat) {
    && (raw.Some? && ParseOverride(raw.value).Some? ==> budget == ParseOverride(raw.value).value)
    && (raw.None? || ParseOverride(raw.value).None? ==> budget == (limit, window))
  }

  lemma EndsWithIff(s: string, suffix: string)
    ensures EndsWith(s, suffix) <==> exists prefix: string :: s == prefix + suffix
  {
    if EndsWith(s, suffix) {
      assert s == s[..|s| - |suffix|] + suffix;
    }
  }

  /** Logins get 10 requests a minute, registrations 5 an hour, everything else 100 a minute, unless overridden. */
  lemma PathBudgets(env: string -> Option<string>, path: string)
    ensures (exists prefix: string :: path == prefix + "/login") ==>
              BudgetIs(LimitsForPath(env, path), env("IAM_LOGIN_LIMIT"), 10, 60)
    ensures (exists prefix: string :: path == prefix + "/register") ==>
              BudgetIs(LimitsForPath(env, path), env("IAM_REGISTER_LIMIT"), 5, 3600)
    ensures (forall prefix: string :: path != prefix + "/login" && path != prefix + "/register") ==>
              BudgetIs(LimitsForPath(env, path), env("IAM_GENERAL_LIMIT"), 100, 60)
  {
    EndsWithIff(path, "/login");
    EndsWithIff(path, "/register");
    if EndsWith(path, "/login") {
      assert path[|path| - 1] == "/login"[5];
    }
    if EndsWith(path, "/register") {
      assert path[|path| - 1] == "/register"[8];
    }
  }
}
