/** The parts of Go's `strings` and `strconv` packages the webhook relies on,
    for a 64-bit platform (`int` is 64 bits wide). */
module GoStrings {
  import opened Wrappers

  // ---------------------------------------------------------------------------
  // strings.Split / strings.Join with a one-character separator
  // ---------------------------------------------------------------------------

  /** No piece contains the separator. */
  predicate SeparatorFree(parts: seq<string>, sep: char)
  {
    forall i :: 0 <= i < |parts| ==> sep !in parts[i]
  }

  /** `strings.Join(parts, string(sep))`. */
  function Join(parts: seq<string>, sep: char): string
    requires |parts| > 0
    decreases |parts|
  {
    if |parts| == 1 then parts[0] else parts[0] + [sep] + Join(parts[1..], sep)
  }

  /** Position of the first occurrence of `c` in `s`. */
  function IndexOf(s: string, c: char): (i: nat)
    requires c in s
    ensures i < |s| && s[i] == c
    ensures c !in s[..i]
  {
    if s[0] == c then 0
    else
      var j := IndexOf(s[1..], c);
      assert s[..j + 1] == [s[0]] + s[1..][..j];
      j + 1
  }

  /** `strings.Split(s, string(sep))`: the pieces of `s` between separators.
      An empty `s` yields one empty piece, as Go does. */
  function Split(s: string, sep: char): (parts: seq<string>)
    ensures |parts| > 0
    ensures SeparatorFree(parts, sep)
    ensures Join(parts, sep) == s
    decreases |s|
  {
    if sep !in s then [s]
    else
      var i := IndexOf(s, sep);
      var rest := Split(s[i + 1..], sep);
      var parts := [s[..i]] + rest;
      assert parts[1..] == rest;
      assert s == s[..i] + [sep] + s[i + 1..];
      parts
  }

  /** The last piece of `strings.Split(s, string(sep))`. */
  function LastSegment(s: string, sep: char): (seg: string)
    ensures sep !in seg
    ensures seg == s || (|seg| < |s| && s[|s| - |seg| - 1..] == [sep] + seg)
  {
    var parts := Split(s, sep);
    LastOfJoin(parts, sep);
    parts[|parts| - 1]
  }

  /** The join ends with the last piece, preceded by a separator when there are several. */
  lemma {:induction false} LastOfJoin(parts: seq<string>, sep: char)
    requires |parts| > 0
    ensures var s, last := Join(parts, sep), parts[|parts| - 1];
            if |parts| == 1 then s == last
            else |last| < |s| && s[|s| - |last| - 1..] == [sep] + last
    decreases |parts|
  {
    if |parts| > 1 {
      LastOfJoin(parts[1..], sep);
    }
  }

  /** Joining one more piece appends a separator and the piece. */
  lemma {:induction false} JoinSnoc(parts: seq<string>, last: string, sep: char)
    requires |parts| > 0
    ensures Join(parts + [last], sep) == Join(parts, sep) + [sep] + last
    decreases |parts|
  {
    if |parts| == 1 {
      assert (parts + [last])[1..] == [last];
    } else {
      assert (parts + [last])[1..] == parts[1..] + [last];
      JoinSnoc(parts[1..], last, sep);
    }
  }

  /** Split inverts Join on separator-free pieces: the pieces are recovered exactly. */
  lemma {:induction false} SplitJoin(parts: seq<string>, sep: char)
    requires |parts| > 0
    requires SeparatorFree(parts, sep)
    ensures Split(Join(parts, sep), sep) == parts
    decreases |parts|
  {
    var s := Join(parts, sep);
    if |parts| == 1 {
      assert sep !in s;
    } else {
      var p := parts[0];
      assert sep !in p;
      assert s == p + [sep] + Join(parts[1..], sep);
      assert s[|p|] == sep;
      var i := IndexOf(s, sep);
      assert s[..i] == p;
      assert s[i + 1..] == Join(parts[1..], sep);
      SplitJoin(parts[1..], sep);
    }
  }

  /** The last piece of `prefix + sep + seg` is `seg` whenever `seg` is free of separators,
      whatever separators `prefix` holds. */
  lemma LastSegmentOfSuffix(prefix: string, seg: string, sep: char)
    requires sep !in seg
    ensures LastSegment(prefix + [sep] + seg, sep) == seg
  {
    var ps := Split(prefix, sep);
    JoinSnoc(ps, seg, sep);
    SplitJoin(ps + [seg], sep);
  }

  // ---------------------------------------------------------------------------
  // Decimal digits
  // ---------------------------------------------------------------------------

  predicate IsDigit(c: char)
  {
    '0' <= c <= '9'
  }

  predicate AllDigits(s: string)
  {
    forall i :: 0 <= i < |s| ==> IsDigit(s[i])
  }

  /** The number a string of decimal digits denotes (leading zeros allowed). */
  function DigitsValue(s: string): nat
    requires AllDigits(s)
  {
    if |s| == 0 then 0
    else DigitsValue(s[..|s| - 1]) * 10 + (s[|s| - 1] as int - '0' as int)
  }

  function DigitChar(d: nat): (c: char)
    requires d < 10
    ensures IsDigit(c) && c as int - '0' as int == d
  {
    ('0' as int + d) as char
  }

  /** The canonical decimal spelling of `n`, as `strconv.Itoa` writes it for `n >= 0`. */
  function Decimal(n: nat): (s: string)
    ensures |s| > 0 && AllDigits(s)
  {
    if n < 10 then [DigitChar(n)] else Decimal(n / 10) + [DigitChar(n % 10)]
  }

  /** Reading the decimal spelling of `n` gives back `n`. */
  lemma {:induction false} DecimalValue(n: nat)
    ensures DigitsValue(Decimal(n)) == n
  {
    var s := Decimal(n);
    if n >= 10 {
      assert s[..|s| - 1] == Decimal(n / 10);
      DecimalValue(n / 10);
    }
  }

  // ---------------------------------------------------------------------------
  // strconv.Atoi / strconv.Itoa on a 64-bit platform
  // ---------------------------------------------------------------------------

  const MinInt64: int := -0x8000_0000_0000_0000
  const MaxInt64: int := 0x7fff_ffff_ffff_ffff

  /** The digits of an integer literal once an optional leading sign is dropped. */
  function Unsigned(s: string): string
  {
    if |s| > 0 && (s[0] == '+' || s[0] == '-') then s[1..] else s
  }

  /** The integer a sign-prefixed digit string denotes, before any range check. */
  function Signed(s: string): int
    requires AllDigits(Unsigned(s))
  {
    var magnitude: int := DigitsValue(Unsigned(s));
    if |s| > 0 && s[0] == '-' then -magnitude else magnitude
  }

  /** `strconv.Atoi(s)` with `int` 64 bits wide: an optional sign followed by at least one
      decimal digit, denoting a value inside the int64 range. Every failure (syntax or range)
      is `None`; the kind of error is not modelled. */
  function Atoi(s: string): (r: Option<int>)
    ensures r.Some? <==> |Unsigned(s)| > 0 && AllDigits(Unsigned(s)) && MinInt64 <= Signed(s) <= MaxInt64
    ensures r.Some? ==> r.value == Signed(s)
    ensures r.Some? ==> MinInt64 <= r.value <= MaxInt64
    ensures r.Some? && r.value < 0 ==> s[0] == '-'
  {
    var digits := Unsigned(s);
    if |digits| == 0 || !AllDigits(digits) then None
    else
      var magnitude: int := DigitsValue(digits);
      var v: int := if s[0] == '-' then -magnitude else magnitude;
      if MinInt64 <= v <= MaxInt64 then Some(v) else None
  }

  /** `strconv.Itoa(v)`. */
  function Itoa(v: int): string
  {
    if v < 0 then "-" + Decimal(-v) else Decimal(v)
  }

  /** Atoi inverts Itoa on the whole int64 range. */
  lemma AtoiItoa(v: int)
    requires MinInt64 <= v <= MaxInt64
    ensures Atoi(Itoa(v)) == Some(v)
  {
    if v < 0 {
      assert Unsigned(Itoa(v)) == Decimal(-v);
      DecimalValue(-v);
    } else {
      assert Unsigned(Itoa(v)) == Decimal(v);
      DecimalValue(v);
    }
  }

  // ---------------------------------------------------------------------------
  // strconv.ParseBool / strconv.FormatBool
  // ---------------------------------------------------------------------------

  const TrueLiterals: set<string> := {"1", "t", "T", "TRUE", "true", "True"}
  const FalseLiterals: set<string> := {"0", "f", "F", "FALSE", "false", "False"}

  /** `strconv.ParseBool(s)`; `None` stands for the syntax error. */
  function ParseBool(s: string): (r: Option<bool>)
    ensures r == Some(true) <==> s in TrueLiterals
    ensures r == Some(false) <==> s in FalseLiterals
  {
    if s == "1" || s == "t" || s == "T" || s == "TRUE" || s == "true" || s == "True" then Some(true)
    else if s == "0" || s == "f" || s == "F" || s == "FALSE" || s == "false" || s == "False" then Some(false)
    else None
  }

  /** `strconv.FormatBool(b)`. */
  function FormatBool(b: bool): string
  {
    if b then "true" else "false"
  }

  /** ParseBool inverts FormatBool. */
  lemma ParseFormatBool(b: bool)
    ensures ParseBool(FormatBool(b)) == Some(b)
  {
  }
}
