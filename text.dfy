/**
 * The JavaScript string primitives the forms and pages rely on:
 * `replace(/\D/g, "")`, `trim()`, `parseInt(s, 10)`, `toLowerCase()` and
 * `includes(...)`.
 */
module Text {
  import opened Wrappers
  import Seqs

  /** A character matched by the regular-expression class `\d` (ASCII digits only). */
  predicate IsDigit(c: char) {
    '0' <= c <= '9'
  }

  predicate AllDigits(s: string) {
    forall i :: 0 <= i < |s| ==> IsDigit(s[i])
  }

  /**
   * A character matched by `\s` and removed by `trim()`: the ECMAScript
   * WhiteSpace and LineTerminator characters.
   */
  predicate IsJsSpace(c: char) {
    || c == ' ' || c == '\t' || c == '\n' || c == '\U{B}' || c == '\U{C}' || c == '\r'
    || c == '\U{A0}' || c == '\U{1680}' || ('\U{2000}' <= c <= '\U{200A}')
    || c == '\U{2028}' || c == '\U{2029}' || c == '\U{202F}' || c == '\U{205F}'
    || c == '\U{3000}' || c == '\U{FEFF}'
  }

  /** `s.replace(/\D/g, "")`: every non-digit deleted, the digits kept in order. */
  function StripNonDigits(s: string): (r: string)
    ensures AllDigits(r)
    ensures forall c :: c in r <==> c in s && IsDigit(c)
    ensures forall c :: multiset(r)[c] == if IsDigit(c) then multiset(s)[c] else 0
    ensures Seqs.IsSubsequence(r, s)
    ensures AllDigits(s) ==> r == s
  {
    Seqs.FilterIsSubsequence(s, IsDigit);
    if AllDigits(s) then Seqs.FilterKeepsAll(s, IsDigit); Seqs.Filter(s, IsDigit)
    else Seqs.Filter(s, IsDigit)
  }

  /** The natural number written in decimal by a string of digits. */
  function DigitsValue(s: string): nat
    requires AllDigits(s)
  {
    if s == [] then 0 else DigitsValue(s[..|s| - 1]) * 10 + (s[|s| - 1] as int - '0' as int)
  }

  /** `trimStart()`: leading white space removed. */
  function TrimStart(s: string): (r: string)
    ensures |r| <= |s| && r == s[|s| - |r|..]
    ensures forall i :: 0 <= i < |s| - |r| ==> IsJsSpace(s[i])
    ensures r != [] ==> !IsJsSpace(r[0])
  {
    if s != [] && IsJsSpace(s[0]) then TrimStart(s[1..]) else s
  }

  /** `trimEnd()`: trailing white space removed. */
  function TrimEnd(s: string): (r: string)
    ensures |r| <= |s| && r == s[..|r|]
    ensures forall i :: |r| <= i < |s| ==> IsJsSpace(s[i])
    ensures r != [] ==> !IsJsSpace(r[|r| - 1])
  {
    if s != [] && IsJsSpace(s[|s| - 1]) then TrimEnd(s[..|s| - 1]) else s
  }

  /** `trim()`: white space removed at both ends. */
  function Trim(s: string): (r: string)
    ensures r == [] <==> forall i :: 0 <= i < |s| ==> IsJsSpace(s[i])
    ensures r != [] ==> !IsJsSpace(r[0]) && !IsJsSpace(r[|r| - 1])
    ensures |r| <= |s|
  {
    TrimEnd(TrimStart(s))
  }

  /**
   * `!s.trim()`: the string is empty or made only of white space, which by
   * the contract of `Trim` is exactly when trimming leaves nothing.
   */
  predicate IsBlank(s: string) {
    forall i :: 0 <= i < |s| ==> IsJsSpace(s[i])
  }

  lemma BlankIffTrimmedEmpty(s: string)
    ensures IsBlank(s) <==> Trim(s) == []
  {
  }

  /** The longest prefix of `s` made of digits. */
  function DigitPrefix(s: string): (r: string)
    ensures AllDigits(r) && |r| <= |s| && r == s[..|r|]
    ensures |r| < |s| ==> !IsDigit(s[|r|])
  {
    if s != [] && IsDigit(s[0]) then [s[0]] + DigitPrefix(s[1..]) else []
  }

  /**
   * `parseInt(s, 10)`, with `None` for NaN: leading white space is skipped,
   * one optional sign is read, then the longest run of digits; without a
   * digit the result is NaN.
   */
  function ParseInt(s: string): (r: Option<int>)
    ensures var t := TrimStart(s);
      var body := if |t| > 0 && (t[0] == '-' || t[0] == '+') then t[1..] else t;
      r.None? <==> body == [] || !IsDigit(body[0])
    ensures r.Some? ==> |TrimStart(s)| > 0
    ensures r.Some? && r.value < 0 ==> TrimStart(s)[0] == '-'
    ensures r.Some? && TrimStart(s)[0] != '-' ==> r.value >= 0
  {
    var t := TrimStart(s);
    var negative := |t| > 0 && t[0] == '-';
    var body := if |t| > 0 && (t[0] == '-' || t[0] == '+') then t[1..] else t;
    var digits := DigitPrefix(body);
    if digits == [] then None
    else
      var value: int := DigitsValue(digits);
      Some(if negative then -value else value)
  }

  /** On a string of digits, such as an amount field after `StripNonDigits`, `parseInt` reads the whole string. */
  lemma ParseIntOfDigits(s: string)
    requires AllDigits(s)
    ensures ParseInt(s) == if s == [] then None else Some(DigitsValue(s))
  {
    if s != [] {
      assert IsDigit(s[0]);
      assert !IsJsSpace(s[0]) && s[0] != '-' && s[0] != '+';
      assert TrimStart(s) == s;
      DigitPrefixOfDigits(s);
      var value: int := DigitsValue(DigitPrefix(s));
      assert ParseInt(s) == Some(value);
    }
  }

  lemma {:induction false} DigitPrefixOfDigits(s: string)
    requires AllDigits(s)
    ensures DigitPrefix(s) == s
  {
    if s != [] {
      DigitPrefixOfDigits(s[1..]);
    }
  }

  /** On digit strings `parseInt` never yields a negative number. */
  lemma ParseIntOfDigitsNonNegative(s: string)
    requires AllDigits(s)
    ensures ParseInt(s).Some? ==> ParseInt(s).value >= 0
  {
    ParseIntOfDigits(s);
  }

  function LowerChar(c: char): char {
    if 'A' <= c <= 'Z' then (c as int + 32) as char else c
  }

  /** `toLowerCase()` on ASCII letters; every other character is kept. */
  function ToLower(s: string): (r: string)
    ensures |r| == |s|
    ensures forall i :: 0 <= i < |s| ==> !('A' <= r[i] <= 'Z')
    ensures forall i :: 0 <= i < |s| && 'A' <= s[i] <= 'Z' ==> r[i] as int == s[i] as int + 32
    ensures forall i :: 0 <= i < |s| && !('A' <= s[i] <= 'Z') ==> r[i] == s[i]
  {
    seq(|s|, i requires 0 <= i < |s| => LowerChar(s[i]))
  }

  /** Lower-casing twice is lower-casing once. */
  lemma ToLowerIdempotent(s: string)
    ensures ToLower(ToLower(s)) == ToLower(s)
  {
  }

  /** Two strings that differ only in the case of their letters lower-case alike. */
  lemma ToLowerIgnoresCase(a: string, b: string)
    requires |a| == |b|
    requires forall i :: 0 <= i < |a| ==> a[i] == b[i] || LowerChar(a[i]) == b[i] || a[i] == LowerChar(b[i])
    ensures ToLower(a) == ToLower(b)
  {
  }

  predicate IsPrefix(p: string, s: string) {
    |p| <= |s| && s[..|p|] == p
  }

  /** `sub` occurs in `s` starting at position `k`. */
  predicate OccursAt(s: string, sub: string, k: nat) {
    k + |sub| <= |s| && s[k..k + |sub|] == sub
  }

  /** `s.includes(sub)`. */
  predicate Contains(s: string, sub: string)
    decreases |s|
  {
    IsPrefix(sub, s) || (s != [] && Contains(s[1..], sub))
  }

  /** `includes` holds exactly when `sub` occurs at some position of `s`. */
  lemma {:induction false} ContainsIff(s: string, sub: string)
    ensures Contains(s, sub) <==> exists k: nat :: OccursAt(s, sub, k)
  {
    if IsPrefix(sub, s) {
      assert OccursAt(s, sub, 0);
    } else if s == [] {
      forall k: nat ensures !OccursAt(s, sub, k) {
        assert OccursAt(s, sub, k) ==> sub == [] && IsPrefix(sub, s);
      }
    } else {
      ContainsIff(s[1..], sub);
      if Contains(s[1..], sub) {
        var k: nat :| OccursAt(s[1..], sub, k);
        assert s[1..][k..k + |sub|] == s[k + 1..k + 1 + |sub|];
        assert OccursAt(s, sub, k + 1);
      } else {
        forall k: nat ensures !OccursAt(s, sub, k) {
          if k == 0 {
            assert OccursAt(s, sub, 0) ==> IsPrefix(sub, s);
          } else if k + |sub| <= |s| {
            assert s[1..][k - 1..k - 1 + |sub|] == s[k..k + |sub|];
            assert !OccursAt(s[1..], sub, k - 1);
          }
        }
      }
    }
  }

  /** Every string includes the empty string. */
  lemma ContainsEmpty(s: string)
    ensures Contains(s, "")
  {
  }
}
