/**
 * The two regular expressions of the extractors, written as string functions,
 * and `strconv.ParseUint(s, 10, 64)`.
 */
module Patterns {
  import opened Wrappers
  import opened Types

  predicate IsDigit(c: char) {
    '0' <= c <= '9'
  }

  predicate AllDigits(s: string) {
    forall k | 0 <= k < |s| :: IsDigit(s[k])
  }

  function DigitValue(c: char): nat
    requires IsDigit(c)
  {
    c as int - '0' as int
  }

  function DigitChar(d: nat): (c: char)
    requires d < 10
    ensures IsDigit(c) && DigitValue(c) == d
  {
    ('0' as int + d) as char
  }

  /** The number a string of decimal digits denotes (leading zeros allowed). */
  function DecimalValue(s: string): nat
    requires AllDigits(s)
    decreases |s|
  {
    if s == [] then 0 else 10 * DecimalValue(s[..|s| - 1]) + DigitValue(s[|s| - 1])
  }

  /** The canonical decimal rendering of `n`. */
  function Decimal(n: nat): string
    decreases n
  {
    if n < 10 then [DigitChar(n)] else Decimal(n / 10) + [DigitChar(n % 10)]
  }

  lemma {:induction false} PrefixValueBound(s: string, k: nat)
    requires AllDigits(s) && k <= |s|
    ensures AllDigits(s[..k]) && DecimalValue(s[..k]) <= DecimalValue(s)
    decreases |s| - k
  {
    if k < |s| {
      PrefixValueBound(s[..|s| - 1], k);
      assert s[..|s| - 1][..k] == s[..k];
    } else {
      assert s[..k] == s;
    }
  }

  /**
   * The digit loop of `strconv.ParseUint`: `n` is the value of the digits
   * `s[..k]` read so far; a non-digit or a value that no longer fits in 64
   * bits is an error.
   */
  function Accumulate(s: string, k: nat, n: uint64): (r: Option<uint64>)
    requires k <= |s| && AllDigits(s[..k]) && n == DecimalValue(s[..k])
    ensures r.Some? <==> AllDigits(s) && DecimalValue(s) < UINT64_LIMIT
    ensures r.Some? ==> r.value == DecimalValue(s)
    decreases |s| - k
  {
    if k == |s| then
      assert s[..k] == s;
      Some(n)
    else if !IsDigit(s[k]) then
      None
    else
      assert s[..k + 1][..k] == s[..k];
      var n' := 10 * n + DigitValue(s[k]);
      if n' >= UINT64_LIMIT then
        if AllDigits(s) then PrefixValueBound(s, k + 1); None else None
      else
        Accumulate(s, k + 1, n')
  }

  /** `strconv.ParseUint(s, 10, 64)`, with `None` for every error. */
  function ParseUint64(s: string): (r: Option<uint64>)
    ensures r.Some? <==> s != [] && AllDigits(s) && DecimalValue(s) < UINT64_LIMIT
    ensures r.Some? ==> r.value == DecimalValue(s)
  {
    if s == [] then None else Accumulate(s, 0, 0)
  }

  lemma {:induction false} DecimalDigits(n: nat)
    ensures Decimal(n) != [] && AllDigits(Decimal(n)) && DecimalValue(Decimal(n)) == n
    decreases n
  {
    if n >= 10 {
      DecimalDigits(n / 10);
      var s := Decimal(n / 10) + [DigitChar(n % 10)];
      assert s[..|s| - 1] == Decimal(n / 10);
    }
  }

  /** Parsing the decimal rendering of any 64-bit value gives that value back. */
  lemma ParseDecimal(n: uint64)
    ensures ParseUint64(Decimal(n)) == Some(n)
  {
    DecimalDigits(n);
  }

  const AnswerIdPrefix := "answer-"

  /** The capture group of `^answer-(\d+)$`: the whole suffix after the prefix,
      which must be a non-empty run of ASCII digits. */
  function AnswerIdSubmatch(s: string): (r: Option<string>)
    ensures r.Some? ==> s == AnswerIdPrefix + r.value && r.value != [] && AllDigits(r.value)
  {
    var p := |AnswerIdPrefix|;
    if |s| > p && s[..p] == AnswerIdPrefix && AllDigits(s[p..]) then
      assert s == s[..p] + s[p..];
      Some(s[p..])
    else
      None
  }

  /** Every `answer-<digits>` string matches, capturing exactly those digits. */
  lemma AnswerIdSubmatchOf(d: string)
    requires d != [] && AllDigits(d)
    ensures AnswerIdSubmatch(AnswerIdPrefix + d) == Some(d)
  {
    var s := AnswerIdPrefix + d;
    assert s[..|AnswerIdPrefix|] == AnswerIdPrefix && s[|AnswerIdPrefix|..] == d;
  }

  /** The longest run of digits at the start of `s`. */
  function LeadingDigits(s: string): (r: string)
    ensures |r| <= |s| && r == s[..|r|] && AllDigits(r)
    ensures |r| == |s| || !IsDigit(s[|r|])
    decreases |s|
  {
    if s != [] && IsDigit(s[0]) then [s[0]] + LeadingDigits(s[1..]) else []
  }

  lemma {:induction false} LeadingDigitsOf(d: string, rest: string)
    requires AllDigits(d)
    requires rest == [] || !IsDigit(rest[0])
    ensures LeadingDigits(d + rest) == d
    decreases |d|
  {
    if d != [] {
      LeadingDigitsOf(d[1..], rest);
      assert (d + rest)[1..] == d[1..] + rest;
    } else {
      assert d + rest == rest;
    }
  }

  const AccountPrefix := "/account/"

  /**
   * The capture group of `^/account/(\d+)`: anchored at the start only, so it
   * is the maximal digit run right after the prefix, whatever follows it.
   */
  function UserIdSubmatch(s: string): (r: Option<string>)
    ensures r.Some? <==> |s| > |AccountPrefix| && s[..|AccountPrefix|] == AccountPrefix && IsDigit(s[|AccountPrefix|])
    ensures r.Some? ==> r.value != [] && AllDigits(r.value)
    ensures r.Some? ==> |AccountPrefix| + |r.value| <= |s| && s[..|AccountPrefix| + |r.value|] == AccountPrefix + r.value
    ensures r.Some? ==> |AccountPrefix| + |r.value| == |s| || !IsDigit(s[|AccountPrefix| + |r.value|])
  {
    var p := |AccountPrefix|;
    if |s| >= p && s[..p] == AccountPrefix && LeadingDigits(s[p..]) != [] then
      var d := LeadingDigits(s[p..]);
      assert s[..p + |d|] == s[..p] + s[p..][..|d|];
      Some(d)
    else
      None
  }

  /** `/account/<digits><rest>` captures exactly the digits when `rest` does
      not start with a digit. */
  lemma UserIdSubmatchOf(d: string, rest: string)
    requires d != [] && AllDigits(d)
    requires rest == [] || !IsDigit(rest[0])
    ensures UserIdSubmatch(AccountPrefix + d + rest) == Some(d)
  {
    var s := AccountPrefix + d + rest;
    assert s[..|AccountPrefix|] == AccountPrefix && s[|AccountPrefix|..] == d + rest;
    LeadingDigitsOf(d, rest);
  }

  /** The two compiled patterns. */
  datatype Pattern = AnswerIdRx | UserIdRx

  /** `rx.FindStringSubmatch(s)[1]`, or `None` when `rx` does not match. */
  function FindSubmatch(rx: Pattern, s: string): Option<string> {
    match rx
    case AnswerIdRx => AnswerIdSubmatch(s)
    case UserIdRx => UserIdSubmatch(s)
  }
}
