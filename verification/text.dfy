/** The string primitives the detector and the parsers rely on, each given an
    independent specification: Go's `strings.ToLower`, `strings.Contains`,
    `strings.TrimSpace`, `strings.Split`, `fmt.Sprintf("%d", …)` and
    `strconv.Atoi`.
 */
module Text {
  import opened Wrappers

  // ---------------------------------------------------------------- case

  /** ASCII lower-casing of one character. */
  function LowerChar(c: char): (r: char)
    ensures 'A' <= c <= 'Z' ==> 'a' <= r <= 'z' && r as int == c as int + 32
    ensures !('A' <= c <= 'Z') ==> r == c
  {
    if 'A' <= c <= 'Z' then (c as int + 32) as char else c
  }

  /** `strings.ToLower`, restricted to ASCII letters. */
  function ToLower(s: string): (r: string)
    ensures |r| == |s|
    ensures forall i :: 0 <= i < |s| ==> r[i] == LowerChar(s[i])
  {
    seq(|s|, i requires 0 <= i < |s| => LowerChar(s[i]))
  }

  // ----------------------------------------------------------- substrings

  /** `t` occurs in `s` starting at index `i`. */
  predicate OccursAt(s: string, t: string, i: int) {
    0 <= i && i + |t| <= |s| && s[i..i + |t|] == t
  }

  /** `strings.Contains`: scans every start position left to right. */
  function Contains(s: string, t: string): (r: bool)
    ensures r <==> exists i :: OccursAt(s, t, i)
    decreases |s|
  {
    if t <= s then
      assert OccursAt(s, t, 0);
      true
    else if |s| == 0 then
      assert forall i :: !OccursAt(s, t, i);
      false
    else
      var rest := Contains(s[1..], t);
      assert forall i :: OccursAt(s[1..], t, i) <==> OccursAt(s, t, i + 1) by {
        forall i ensures OccursAt(s[1..], t, i) <==> OccursAt(s, t, i + 1) {
          if 0 <= i && i + |t| <= |s| - 1 {
            assert s[1..][i..i + |t|] == s[i + 1..i + 1 + |t|];
          }
        }
      }
      assert !OccursAt(s, t, 0);
      if rest then
        var j :| OccursAt(s[1..], t, j);
        assert OccursAt(s, t, j + 1);
        true
      else
        assert forall i :: OccursAt(s, t, i) ==> OccursAt(s[1..], t, i - 1);
        false
  }

  // ------------------------------------------------------------ trimming

  /** The bytes Go's `strings.TrimSpace` treats as white space in ASCII text:
      tab, newline, vertical tab, form feed, carriage return, space. */
  predicate IsSpace(c: char) {
    c == ' ' || c == '\t' || c == '\n' || c == '\U{000B}' || c == '\U{000C}' || c == '\r'
  }

  predicate AllSpace(s: string) {
    forall i :: 0 <= i < |s| ==> IsSpace(s[i])
  }

  /** Neither end of `s` is white space. */
  predicate Trimmed(s: string) {
    s == [] || (!IsSpace(s[0]) && !IsSpace(s[|s| - 1]))
  }

  /** Every character of `s` in positions `lo` to `hi` (exclusive) is white
      space. */
  predicate SpaceBetween(s: string, lo: int, hi: int) {
    forall k :: lo <= k < hi && 0 <= k < |s| ==> IsSpace(s[k])
  }

  function TrimLeft(s: string): (r: string)
    ensures |r| <= |s| && r == s[|s| - |r|..]
    ensures SpaceBetween(s, 0, |s| - |r|)
    ensures r == [] || !IsSpace(r[0])
  {
    if s != [] && IsSpace(s[0]) then
      var r := TrimLeft(s[1..]);
      assert r == s[1..][|s| - 1 - |r|..] == s[|s| - |r|..];
      assert SpaceBetween(s, 0, |s| - |r|) by {
        forall k | 0 <= k < |s| - |r| ensures IsSpace(s[k]) {
          if k > 0 { assert s[k] == s[1..][k - 1]; }
        }
      }
      r
    else s
  }

  function TrimRight(s: string): (r: string)
    ensures |r| <= |s| && r == s[..|r|]
    ensures SpaceBetween(s, |r|, |s|)
    ensures r == [] || !IsSpace(r[|r| - 1])
  {
    if s != [] && IsSpace(s[|s| - 1]) then
      var r := TrimRight(s[..|s| - 1]);
      assert r == s[..|s| - 1][..|r|] == s[..|r|];
      assert SpaceBetween(s, |r|, |s|) by {
        forall k | |r| <= k < |s| ensures IsSpace(s[k]) {
          if k < |s| - 1 { assert s[k] == s[..|s| - 1][k]; }
        }
      }
      r
    else s
  }

  /** `r` sits at index `i` of `s` with nothing but white space around it. */
  predicate PaddedAt(s: string, r: string, i: int) {
    0 <= i && i + |r| <= |s| && s[i..i + |r|] == r && SpaceBetween(s, 0, i) && SpaceBetween(s, i + |r|, |s|)
  }

  /** `strings.TrimSpace`: the result is `s` with white-space padding removed
      from both ends, and nothing else changed. */
  function TrimSpace(s: string): (r: string)
    ensures Trimmed(r)
    ensures exists i :: PaddedAt(s, r, i)
  {
    TrimBothEnds(s);
    TrimRight(TrimLeft(s))
  }

  lemma TrimBothEnds(s: string)
    ensures Trimmed(TrimRight(TrimLeft(s)))
    ensures PaddedAt(s, TrimRight(TrimLeft(s)), |s| - |TrimLeft(s)|)
  {
    PaddingComposes(s, TrimLeft(s), TrimRight(TrimLeft(s)));
  }

  /** A left-trimmed suffix of `s`, right-trimmed in turn, is `s` with its
      padding removed. */
  lemma PaddingComposes(s: string, l: string, r: string)
    requires |l| <= |s| && l == s[|s| - |l|..] && SpaceBetween(s, 0, |s| - |l|) && (l == [] || !IsSpace(l[0]))
    requires |r| <= |l| && r == l[..|r|] && SpaceBetween(l, |r|, |l|) && (r == [] || !IsSpace(r[|r| - 1]))
    ensures Trimmed(r) && PaddedAt(s, r, |s| - |l|)
  {
    var i := |s| - |l|;
    assert r == s[i..i + |r|];
    assert SpaceBetween(s, i + |r|, |s|) by {
      forall k | i + |r| <= k < |s| ensures IsSpace(s[k]) {
        assert s[k] == l[k - i];
      }
    }
    assert r != [] ==> r[0] == l[0];
  }

  /** Removing white-space padding around an already trimmed text yields that
      text: the trim is exactly the inverse of padding. */
  lemma {:induction false} TrimSpaceOfPadded(lead: string, t: string, tail: string)
    requires AllSpace(lead) && AllSpace(tail) && Trimmed(t)
    ensures TrimSpace(lead + t + tail) == t
  {
    var s := lead + t + tail;
    assert s == lead + (t + tail);
    TrimLeftOfPadded(lead, t + tail, t);
    if t == [] {
      assert TrimLeft(s) == [];
    } else {
      assert TrimLeft(s) == t + tail;
      TrimRightOfPadded(t, tail);
    }
  }

  lemma {:induction false} TrimLeftOfPadded(lead: string, rest: string, t: string)
    requires AllSpace(lead) && t <= rest && Trimmed(t)
    requires t == [] ==> AllSpace(rest)
    ensures TrimLeft(lead + rest) == (if t == [] then [] else rest)
    decreases |lead| + |rest|
  {
    var s := lead + rest;
    if lead != [] {
      assert s[1..] == lead[1..] + rest;
      TrimLeftOfPadded(lead[1..], rest, t);
    } else if rest != [] {
      assert s == rest;
      if t == [] {
        assert s[1..] == [] + rest[1..];
        TrimLeftOfPadded([], rest[1..], []);
      } else {
        assert s[0] == t[0];
      }
    }
  }

  lemma {:induction false} TrimRightOfPadded(t: string, tail: string)
    requires AllSpace(tail) && Trimmed(t)
    ensures TrimRight(t + tail) == t
    decreases |tail|
  {
    var s := t + tail;
    if tail != [] {
      assert s[..|s| - 1] == t + tail[..|tail| - 1];
      TrimRightOfPadded(t, tail[..|tail| - 1]);
    } else {
      assert s == t;
    }
  }

  /** Trimming twice is trimming once. */
  lemma TrimSpaceIdempotent(s: string)
    ensures TrimSpace(TrimSpace(s)) == TrimSpace(s)
  {
    var t := TrimSpace(s);
    TrimSpaceOfTrimmed(t);
  }

  /** A trimmed text is left as it is. */
  lemma TrimSpaceOfTrimmed(t: string)
    requires Trimmed(t)
    ensures TrimSpace(t) == t
  {
    assert t == [] + t + [];
    TrimSpaceOfPadded([], t, []);
  }

  // ------------------------------------------------------------ splitting

  /** Index of the first occurrence of `c` in `s`. */
  function IndexOf(s: string, c: char): (r: Option<nat>)
    ensures r.Some? ==> r.value < |s| && s[r.value] == c && c !in s[..r.value]
    ensures r.None? <==> c !in s
  {
    if s == [] then None
    else if s[0] == c then Some(0)
    else match IndexOf(s[1..], c)
      case None => None
      case Some(i) =>
        assert s[..i + 1] == [s[0]] + s[1..][..i];
        Some(i + 1)
  }

  /** Joins `parts` with the separator `sep` between consecutive parts. */
  function Join(parts: seq<string>, sep: char): string
    requires |parts| >= 1
  {
    if |parts| == 1 then parts[0] else parts[0] + [sep] + Join(parts[1..], sep)
  }

  /** `strings.Split` with a one-character separator: the parts are the
      maximal separator-free pieces of `s`, in order, so joining them back
      gives `s`. There is always at least one part (`""` splits into `[""]`). */
  function Split(s: string, sep: char): (parts: seq<string>)
    ensures |parts| >= 1
    ensures Join(parts, sep) == s
    ensures forall k :: 0 <= k < |parts| ==> sep !in parts[k]
    ensures |parts| == 1 <==> sep !in s
    decreases |s|
  {
    match IndexOf(s, sep)
    case None => [s]
    case Some(i) =>
      var rest := Split(s[i + 1..], sep);
      var parts := [s[..i]] + rest;
      assert parts[1..] == rest;
      assert s == s[..i] + [sep] + s[i + 1..];
      parts
  }

  /** Splitting text whose first separator follows `a` yields `a`, then the
      parts of what follows the separator. */
  lemma SplitAfterFirst(a: string, sep: char, b: string)
    requires sep !in a
    ensures Split(a + [sep] + b, sep) == [a] + Split(b, sep)
  {
    var s := a + [sep] + b;
    assert s[|a|] == sep;
    assert IndexOf(s, sep) == Some(|a|);
    assert s[..|a|] == a && s[|a| + 1..] == b;
  }

  /** When the separator occurs, the first part is everything before its
      first occurrence and the second part is what follows up to the next one. */
  lemma SplitFirstTwo(s: string, sep: char)
    requires sep in s
    ensures var parts := Split(s, sep);
      var i := IndexOf(s, sep).value;
      && |parts| >= 2
      && parts[0] == s[..i]
      && parts[1] == Split(s[i + 1..], sep)[0]
  {
  }

  // ----------------------------------------------------- decimal numbers

  predicate IsDigit(c: char) {
    '0' <= c <= '9'
  }

  predicate AllDigits(s: string) {
    forall i :: 0 <= i < |s| ==> IsDigit(s[i])
  }

  function DigitChar(d: nat): (c: char)
    requires d < 10
    ensures IsDigit(c) && c as int - '0' as int == d
  {
    ('0' as int + d) as char
  }

  /** The base-10 value of a string of digits (most significant first). */
  function DigitsValue(s: string): nat
    requires AllDigits(s)
  {
    if s == [] then 0 else DigitsValue(s[..|s| - 1]) * 10 + (s[|s| - 1] as int - '0' as int)
  }

  /** The shortest base-10 digit string of `n`. */
  function Digits(n: nat): (s: string)
    ensures |s| >= 1 && AllDigits(s)
    ensures |s| > 1 ==> s[0] != '0'
  {
    if n < 10 then [DigitChar(n)] else Digits(n / 10) + [DigitChar(n % 10)]
  }

  /** A digit string without superfluous leading zeros: "0" itself, or
      digits starting with a non-zero one. */
  predicate CanonicalDigits(s: string) {
    |s| >= 1 && AllDigits(s) && (|s| > 1 ==> s[0] != '0')
  }

  /** `s` is the form `%d` gives `n`: the canonical digits of the magnitude,
      preceded by a minus sign exactly when `n` is negative. */
  predicate IsDecimalOf(s: string, n: int) {
    if n < 0 then |s| >= 2 && s[0] == '-' && CanonicalDigits(s[1..]) && DigitsValue(s[1..]) == -n
    else CanonicalDigits(s) && DigitsValue(s) == n
  }

  /** `fmt.Sprintf("%d", n)`: a minus sign for negative numbers, then the
      digits of the magnitude. */
  function DecimalString(n: int): (s: string)
    ensures IsDecimalOf(s, n)
  {
    if n < 0 then
      DigitsRoundTrip(-n);
      var s := "-" + Digits(-n);
      assert s[1..] == Digits(-n);
      s
    else
      DigitsRoundTrip(n);
      Digits(n)
  }

  /** A canonical digit string with a leading non-zero digit denotes a
      positive value. */
  lemma {:induction false} LeadingNonZeroIsPositive(s: string)
    requires |s| >= 1 && AllDigits(s) && s[0] != '0'
    ensures DigitsValue(s) >= 1
  {
    if |s| > 1 {
      LeadingNonZeroIsPositive(s[..|s| - 1]);
    }
  }

  /** Canonical digit strings are exactly the ones `Digits` produces. */
  lemma {:induction false} CanonicalDigitsAreDigits(s: string)
    requires CanonicalDigits(s)
    ensures s == Digits(DigitsValue(s))
  {
    if |s| > 1 {
      var p := s[..|s| - 1];
      LeadingNonZeroIsPositive(p);
      CanonicalDigitsAreDigits(p);
      var v := DigitsValue(s);
      var d := s[|s| - 1] as int - '0' as int;
      assert v == DigitsValue(p) * 10 + d;
      assert v / 10 == DigitsValue(p) && v % 10 == d;
      assert s == p + [s[|s| - 1]];
    }
  }

  /** The decimal form of a number is unique: any string in that form is the
      one `DecimalString` gives. */
  lemma DecimalStringIsTheDecimalForm(s: string, n: int)
    requires IsDecimalOf(s, n)
    ensures s == DecimalString(n)
  {
    if n < 0 {
      CanonicalDigitsAreDigits(s[1..]);
      assert s == "-" + s[1..];
    } else {
      CanonicalDigitsAreDigits(s);
    }
  }

  const MinInt64: int := -0x8000_0000_0000_0000
  const MaxInt64: int := 0x7FFF_FFFF_FFFF_FFFF

  predicate IsInt64(n: int) {
    MinInt64 <= n <= MaxInt64
  }

  /** The syntax `strconv.Atoi` accepts: an optional sign, then at least one
      ASCII digit. */
  predicate IsNumeral(s: string) {
    if |s| >= 1 && (s[0] == '+' || s[0] == '-') then |s| >= 2 && AllDigits(s[1..])
    else |s| >= 1 && AllDigits(s)
  }

  /** The value a numeral denotes, negated after a leading minus sign. */
  function NumeralValue(s: string): int
    requires IsNumeral(s)
  {
    if s[0] == '-' then 0 - DigitsValue(s[1..])
    else if s[0] == '+' then DigitsValue(s[1..])
    else DigitsValue(s)
  }

  /** `strconv.Atoi` on a 64-bit platform: an optional `+` or `-` sign, then
      one or more ASCII digits, denoting a value that fits in 64 bits.
      Anything else is a parse failure (`None`). */
  function ParseDecimal(s: string): (r: Option<int>)
    ensures r.Some? <==> IsNumeral(s) && IsInt64(NumeralValue(s))
    ensures r.Some? ==> r.value == NumeralValue(s)
  {
    var negative := |s| > 0 && s[0] == '-';
    var body := if |s| > 0 && (s[0] == '-' || s[0] == '+') then s[1..] else s;
    if body == [] || !AllDigits(body) then None
    else
      var magnitude: int := DigitsValue(body);
      var v := if negative then -magnitude else magnitude;
      if IsInt64(v) then Some(v) else None
  }

  lemma {:induction false} DigitsRoundTrip(n: nat)
    ensures DigitsValue(Digits(n)) == n
  {
    if n >= 10 {
      DigitsRoundTrip(n / 10);
      var s := Digits(n);
      assert s[..|s| - 1] == Digits(n / 10);
    }
  }

  /** Printing a 64-bit integer in decimal and parsing it back yields the
      same integer. */
  lemma DecimalRoundTrip(n: int)
    requires IsInt64(n)
    ensures ParseDecimal(DecimalString(n)) == Some(n)
  {
    var s := DecimalString(n);
    if n >= 0 {
      assert IsDigit(s[0]);
    }
  }
}
