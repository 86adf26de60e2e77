/**
 * Stand-ins for the text helpers the collectors call: `FileParser.TrySplitLine`,
 * `FileParser.TryParseLong` and the `TryParse` methods of `ulong`, `int` and `long`.
 * Their code is not part of this model; the collectors rely only on what is stated
 * in the contracts here (chiefly: a successful `TrySplitLine(line, n)` has at least
 * `n` parts). The last part of the module gives the inverse direction, formatting
 * tokens and numbers, and proves the splitting and parsing stand-ins undo it.
 */
module FileParser {
  import opened Wrappers
  import opened ClrIntegers

  predicate IsSeparator(c: char) { c == ' ' || c == '\t' }

  predicate IsDigit(c: char) { '0' <= c <= '9' }

  predicate NoSeparator(s: string) { forall i :: 0 <= i < |s| ==> !IsSeparator(s[i]) }

  /** What a split yields: non-empty runs of non-blank characters. */
  predicate IsToken(t: string) { |t| > 0 && NoSeparator(t) }

  predicate AllTokens(ts: seq<string>) { forall k :: 0 <= k < |ts| ==> IsToken(ts[k]) }

  /** The length of the run of non-blank characters that `s` starts with. */
  function TokenLength(s: string): (n: nat)
    ensures n <= |s|
    ensures NoSeparator(s[..n])
    ensures n < |s| ==> IsSeparator(s[n])
  {
    if s == [] || IsSeparator(s[0]) then 0
    else
      var n := 1 + TokenLength(s[1..]);
      assert s[..n] == [s[0]] + s[1..][..n - 1];
      n
  }

  /** The blank-separated parts of a line, empty entries dropped. */
  function Split(s: string): (parts: seq<string>)
    ensures AllTokens(parts)
    decreases |s|
  {
    if s == [] then []
    else if IsSeparator(s[0]) then Split(s[1..])
    else
      var n := TokenLength(s);
      [s[..n]] + Split(s[n..])
  }

  /** `FileParser.TrySplitLine(line, minParts, out parts)`. */
  function TrySplitLine(line: string, minParts: nat): (r: Option<seq<string>>)
    ensures r.Some? ==> |r.value| >= minParts && AllTokens(r.value)
  {
    var parts := Split(line);
    if |parts| >= minParts then Some(parts) else None
  }

  predicate IsDigits(s: string) { |s| > 0 && forall i :: 0 <= i < |s| ==> IsDigit(s[i]) }

  function DigitValue(c: char): nat
    requires IsDigit(c)
  {
    c as int - '0' as int
  }

  /** The number a string of decimal digits denotes (most significant first). */
  function DigitsValue(s: string): nat
    requires forall i :: 0 <= i < |s| ==> IsDigit(s[i])
  {
    if s == [] then 0 else 10 * DigitsValue(s[..|s| - 1]) + DigitValue(s[|s| - 1])
  }

  /** An optionally signed decimal integer, as the integral `TryParse` methods accept it. */
  function ParseInteger(t: string): (r: Option<int>)
    ensures r.Some? ==> |t| > 0
  {
    if |t| > 0 && (t[0] == '-' || t[0] == '+') && IsDigits(t[1..]) then
      var magnitude: int := DigitsValue(t[1..]);
      Some(if t[0] == '-' then -magnitude else magnitude)
    else if IsDigits(t) then Some(DigitsValue(t))
    else None
  }

  /** `ulong.TryParse`: fails on anything out of range rather than wrapping. */
  function ParseULong(t: string): (r: Option<UInt64>)
    ensures r.Some? <==> ParseInteger(t).Some? && 0 <= ParseInteger(t).value < TWO_64
    ensures r.Some? ==> r.value == ParseInteger(t).value
  {
    match ParseInteger(t)
    case Some(v) => if 0 <= v < TWO_64 then Some(v) else None
    case None => None
  }

  /** `int.TryParse` */
  function ParseInt32(t: string): (r: Option<Int32>)
    ensures r.Some? <==> ParseInteger(t).Some? && -0x8000_0000 <= ParseInteger(t).value < 0x8000_0000
    ensures r.Some? ==> r.value == ParseInteger(t).value
  {
    match ParseInteger(t)
    case Some(v) => if -0x8000_0000 <= v < 0x8000_0000 then Some(v) else None
    case None => None
  }

  /** `long.TryParse` */
  function ParseInt64(t: string): (r: Option<Int64>)
    ensures r.Some? <==> ParseInteger(t).Some? &&
                         -0x8000_0000_0000_0000 <= ParseInteger(t).value < 0x8000_0000_0000_0000
    ensures r.Some? ==> r.value == ParseInteger(t).value
  {
    match ParseInteger(t)
    case Some(v) => if -0x8000_0000_0000_0000 <= v < 0x8000_0000_0000_0000 then Some(v) else None
    case None => None
  }

  /**
   * `FileParser.TryParseLong(line, name, out value)`: a line such as
   * `MemTotal:  16310824 kB` that starts with `name` gives its second part as a `long`.
   */
  function TryParseLong(line: string, name: string): (r: Option<Int64>)
    ensures r.Some? ==> name <= line
  {
    if name <= line then
      match TrySplitLine(line, 2)
      case Some(parts) => ParseInt64(parts[1])
      case None => None
    else None
  }

  // Formatting: the inverse direction of splitting and parsing.

  function DigitChar(d: nat): (c: char)
    requires d < 10
    ensures IsDigit(c) && DigitValue(c) == d
  {
    ('0' as int + d) as char
  }

  /** The decimal digits of `n`, without leading zeros. */
  function ShowNat(n: nat): (s: string)
    ensures IsDigits(s)
  {
    if n < 10 then [DigitChar(n)] else ShowNat(n / 10) + [DigitChar(n % 10)]
  }

  /** Parts joined with single spaces: a line that `Split` takes apart again. */
  function JoinTokens(ts: seq<string>): string
  {
    if ts == [] then "" else if |ts| == 1 then ts[0] else ts[0] + " " + JoinTokens(ts[1..])
  }

  lemma {:induction false} DigitsValueOfShow(n: nat)
    ensures DigitsValue(ShowNat(n)) == n
  {
    if n >= 10 {
      var s := ShowNat(n);
      assert s[..|s| - 1] == ShowNat(n / 10);
      DigitsValueOfShow(n / 10);
    }
  }

  /** Every decimal rendering of a value parses back to that value. */
  lemma ParseShowNat(n: nat)
    ensures ParseInteger(ShowNat(n)) == Some(n)
  {
    DigitsValueOfShow(n);
    assert IsDigit(ShowNat(n)[0]);
  }

  lemma {:induction false} TokenLengthOfRun(t: string, rest: string)
    requires NoSeparator(t)
    requires rest == [] || IsSeparator(rest[0])
    ensures TokenLength(t + rest) == |t|
  {
    if t != [] {
      assert (t + rest)[0] == t[0];
      assert (t + rest)[1..] == t[1..] + rest;
      TokenLengthOfRun(t[1..], rest);
    }
  }

  /** Splitting a line built by `JoinTokens` gives back its parts. */
  lemma {:induction false} SplitJoin(ts: seq<string>)
    requires AllTokens(ts)
    ensures Split(JoinTokens(ts)) == ts
  {
    if |ts| == 1 {
      var t := ts[0];
      TokenLengthOfRun(t, "");
      assert t + "" == t;
      assert t[..|t|] == t && t[|t|..] == "";
    } else if |ts| > 1 {
      var t, rest := ts[0], JoinTokens(ts[1..]);
      var s := t + " " + rest;
      assert s == t + (" " + rest);
      TokenLengthOfRun(t, " " + rest);
      assert s[..|t|] == t;
      assert s[|t|..] == " " + rest;
      assert (" " + rest)[1..] == rest;
      SplitJoin(ts[1..]);
      assert [t] + ts[1..] == ts;
    }
  }

  /** `ulong.TryParse` reads back the decimal rendering of any `ulong`. */
  lemma ParseShowULong(n: UInt64)
    ensures ParseULong(ShowNat(n)) == Some(n)
  {
    ParseShowNat(n);
  }

  /** `int.TryParse` reads back the decimal rendering of any non-negative `int`. */
  lemma ParseShowInt32(n: nat)
    requires n < 0x8000_0000
    ensures ParseInt32(ShowNat(n)) == Some(n)
  {
    ParseShowNat(n);
  }

  /** `long.TryParse` reads back the decimal rendering of any non-negative `long`. */
  lemma ParseShowInt64(n: nat)
    requires n < 0x8000_0000_0000_0000
    ensures ParseInt64(ShowNat(n)) == Some(n)
  {
    ParseShowNat(n);
  }
}
