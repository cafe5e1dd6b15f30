/**
 * The few Python string built-ins the bot relies on: substring test (`t in s`),
 * `str.lower()` and `int(str)` in base 10, with `str(n)` as the partner of `int`.
 */
module PyText {
  import opened Wrappers

  // ---------------------------------------------------------------------------
  // Substring test: Python's `t in s` for two strings.

  predicate IsPrefix(t: string, s: string) {
    |t| <= |s| && s[..|t|] == t
  }

  /** `t` occurs in `s` starting at index `i`. */
  predicate OccursAt(s: string, t: string, i: int) {
    0 <= i && i + |t| <= |s| && s[i..i + |t|] == t
  }

  /** Python's `t in s`: scans `s` from the left for a prefix equal to `t`. */
  function Contains(s: string, t: string): bool
    decreases |s|
  {
    IsPrefix(t, s) || (|s| > 0 && Contains(s[1..], t))
  }

  /** Where the scan succeeds, it has found an occurrence. */
  lemma {:induction false} ContainsWitness(s: string, t: string) returns (i: int)
    requires Contains(s, t)
    ensures OccursAt(s, t, i)
    decreases |s|
  {
    if IsPrefix(t, s) {
      i := 0;
      assert s[0..|t|] == s[..|t|];
    } else {
      var j := ContainsWitness(s[1..], t);
      assert s[1..][j..j + |t|] == s[j + 1..j + 1 + |t|];
      i := j + 1;
    }
  }

  /** Every occurrence is found by the scan. */
  lemma {:induction false} OccurrenceContained(s: string, t: string, i: int)
    requires OccursAt(s, t, i)
    ensures Contains(s, t)
    decreases i
  {
    if i == 0 {
      assert s[..|t|] == s[0..0 + |t|];
    } else {
      assert s[1..][i - 1..i - 1 + |t|] == s[i..i + |t|];
      OccurrenceContained(s[1..], t, i - 1);
    }
  }

  /** The scan finds `t` exactly when `t` occurs somewhere in `s`. */
  lemma ContainsIff(s: string, t: string)
    ensures Contains(s, t) <==> exists i :: OccursAt(s, t, i)
  {
    if Contains(s, t) {
      var i := ContainsWitness(s, t);
    }
    forall i | OccursAt(s, t, i) ensures Contains(s, t) {
      OccurrenceContained(s, t, i);
    }
  }

  /** A string whose first character does not occur in `s` is not in `s`. */
  lemma FirstCharAbsent(s: string, t: string)
    requires |t| > 0 && t[0] !in s
    ensures !Contains(s, t)
  {
    if Contains(s, t) {
      var i := ContainsWitness(s, t);
    }
  }

  /** A string longer than `s` is not in `s`. */
  lemma TooLong(s: string, t: string)
    requires |t| > |s|
    ensures !Contains(s, t)
  {
    if Contains(s, t) {
      var i := ContainsWitness(s, t);
    }
  }

  /** A one-character string is in `s` exactly when that character is. */
  lemma ContainsChar(s: string, c: char)
    ensures Contains(s, [c]) <==> exists i :: 0 <= i < |s| && s[i] == c
  {
    ContainsIff(s, [c]);
    forall i | 0 <= i < |s| && s[i] == c ensures OccursAt(s, [c], i) {
      assert s[i..i + 1] == [c];
    }
    forall i | OccursAt(s, [c], i) ensures s[i] == c {
      assert s[i] == s[i..i + 1][0];
    }
  }

  // ---------------------------------------------------------------------------
  // Lower-casing: `str.lower()` restricted to the ASCII letters.

  function LowerChar(c: char): char {
    if 'A' <= c <= 'Z' then (c as int + 32) as char else c
  }

  function UpperChar(c: char): char {
    if 'a' <= c <= 'z' then (c as int - 32) as char else c
  }

  function Lower(s: string): (r: string)
    ensures |r| == |s|
  {
    seq(|s|, i requires 0 <= i < |s| => LowerChar(s[i]))
  }

  /** Lowering twice is lowering once. */
  lemma LowerIdempotent(s: string)
    ensures Lower(Lower(s)) == Lower(s)
  {
    assert forall i :: 0 <= i < |s| ==> Lower(Lower(s))[i] == LowerChar(LowerChar(s[i]));
  }

  /**
   * A lower-case letter occurs in the lowered string exactly when the
   * letter occurs in the original in either case.
   */
  lemma LowerContainsLetter(s: string, c: char)
    requires 'a' <= c <= 'z'
    ensures Contains(Lower(s), [c]) <==> exists i :: 0 <= i < |s| && (s[i] == c || s[i] == UpperChar(c))
  {
    ContainsIff(Lower(s), [c]);
    forall i | 0 <= i < |s| && (s[i] == c || s[i] == UpperChar(c))
      ensures OccursAt(Lower(s), [c], i)
    {
      assert Lower(s)[i] == LowerChar(s[i]) == c;
      assert Lower(s)[i..i + 1] == [Lower(s)[i]];
    }
    forall i | OccursAt(Lower(s), [c], i)
      ensures s[i] == c || s[i] == UpperChar(c)
    {
      assert Lower(s)[i] == Lower(s)[i..i + 1][0];
    }
  }

  // ---------------------------------------------------------------------------
  // Python's `int(s)` for a string in base 10.

  /** The ASCII characters `int()` strips from both ends. */
  predicate IsSpace(c: char) {
    c == ' ' || c == '\t' || c == '\n' || c == '\r' || c == '\U{000B}' || c == '\U{000C}'
  }

  predicate IsDigit(c: char) {
    '0' <= c <= '9'
  }

  function DigitValue(c: char): nat {
    if IsDigit(c) then c as int - '0' as int else 0
  }

  function DigitChar(d: nat): char
    requires d < 10
  {
    ('0' as int + d) as char
  }

  function TrimLeft(s: string): string {
    if |s| > 0 && IsSpace(s[0]) then TrimLeft(s[1..]) else s
  }

  function TrimRight(s: string): string {
    if |s| > 0 && IsSpace(s[|s| - 1]) then TrimRight(s[..|s| - 1]) else s
  }

  /**
   * A run of decimal digits that may carry single underscores between two
   * digits (`1_000`), the literal form `int()` accepts after the sign.
   */
  predicate IsDigitRun(d: string) {
    && |d| > 0
    && IsDigit(d[0])
    && IsDigit(d[|d| - 1])
    && forall i :: 0 <= i < |d| ==> IsDigit(d[i]) || (d[i] == '_' && i + 1 < |d| && IsDigit(d[i + 1]))
  }

  /** The number a digit run denotes, underscores ignored. */
  function DigitsValue(d: string): nat {
    if d == [] then 0
    else if d[|d| - 1] == '_' then DigitsValue(d[..|d| - 1])
    else DigitsValue(d[..|d| - 1]) * 10 + DigitValue(d[|d| - 1])
  }

  /**
   * `int(s)`: `Some(n)` where Python returns n, `None` where it raises
   * ValueError. Whitespace is stripped from both ends, then an optional sign
   * and a digit run must make up the rest.
   */
  function ParseInt(s: string): Option<int> {
    var t := TrimRight(TrimLeft(s));
    if |t| > 0 && (t[0] == '+' || t[0] == '-') then
      if IsDigitRun(t[1..]) then
        var v: int := DigitsValue(t[1..]);
        Some(if t[0] == '-' then -v else v)
      else None
    else if IsDigitRun(t) then Some(DigitsValue(t))
    else None
  }

  /** `str(n)` for n >= 0. */
  function FormatNat(n: nat): (r: string)
    ensures |r| > 0
  {
    if n < 10 then [DigitChar(n)] else FormatNat(n / 10) + [DigitChar(n % 10)]
  }

  /** `str(n)`: the decimal form, with a leading minus for negatives. */
  function FormatInt(n: int): string {
    if n < 0 then "-" + FormatNat(-n) else FormatNat(n)
  }

  lemma {:induction false} FormatNatIsDigits(n: nat)
    ensures forall i :: 0 <= i < |FormatNat(n)| ==> IsDigit(FormatNat(n)[i])
    ensures DigitsValue(FormatNat(n)) == n
  {
    if n >= 10 {
      FormatNatIsDigits(n / 10);
      var s := FormatNat(n);
      assert s[..|s| - 1] == FormatNat(n / 10);
    }
  }

  /** A string with no space at either end is left alone by the stripping. */
  lemma TrimNothing(s: string)
    requires |s| > 0 && !IsSpace(s[0]) && !IsSpace(s[|s| - 1])
    ensures TrimRight(TrimLeft(s)) == s
  {
  }

  /** `str(n)` for n >= 0 is a run of digits denoting n. */
  lemma FormatNatIsRun(n: nat)
    ensures IsDigitRun(FormatNat(n)) && DigitsValue(FormatNat(n)) == n
  {
    FormatNatIsDigits(n);
  }

  lemma ParseFormatNat(n: nat)
    ensures ParseInt(FormatNat(n)) == Some(n)
  {
    var s := FormatNat(n);
    FormatNatIsRun(n);
    TrimNothing(s);
  }

  lemma ParseFormatNegative(n: nat)
    ensures ParseInt("-" + FormatNat(n)) == Some(-(n as int))
  {
    var s := "-" + FormatNat(n);
    FormatNatIsRun(n);
    TrimNothing(s);
    assert s[1..] == FormatNat(n);
  }

  /** Round trip: `int(str(n)) == n` for every integer. */
  lemma ParseFormat(n: int)
    ensures ParseInt(FormatInt(n)) == Some(n)
  {
    if n < 0 {
      ParseFormatNegative(-n);
    } else {
      ParseFormatNat(n);
    }
  }
}
