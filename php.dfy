/**
 * The handful of PHP language rules the plugin relies on: truthiness of
 * strings and numbers, `strtolower`, a single-character `str_replace`,
 * and `is_numeric`.
 */
module Php {

  /** A PHP string is falsy exactly when it is "" or "0" (this is also `empty()`). */
  predicate Truthy(s: string)
  {
    s != "" && s != "0"
  }

  /** A PHP integer is falsy exactly when it is 0. */
  predicate TruthyInt(n: int)
  {
    n != 0
  }

  function LowerChar(c: char): (r: char)
    ensures 'A' <= c <= 'Z' ==> r as int == c as int + 32
    ensures !('A' <= c <= 'Z') ==> r == c
    ensures !('A' <= r <= 'Z')
  {
    if 'A' <= c <= 'Z' then (c as int + 32) as char else c
  }

  /** `strtolower` (ASCII letters only, as in PHP 8). */
  function ToLower(s: string): (r: string)
    ensures |r| == |s|
    ensures forall i :: 0 <= i < |s| ==> r[i] == LowerChar(s[i])
  {
    if s == [] then [] else [LowerChar(s[0])] + ToLower(s[1..])
  }

  lemma {:induction false} ToLowerIdempotent(s: string)
    ensures ToLower(ToLower(s)) == ToLower(s)
  {
    var t := ToLower(s);
    var u := ToLower(t);
    assert |u| == |t|;
    forall i | 0 <= i < |t| ensures u[i] == t[i] {
      assert u[i] == LowerChar(t[i]);
    }
  }

  /** `str_replace(from, to, s)` for a single character. */
  function ReplaceChar(s: string, from: char, to: char): (r: string)
    ensures |r| == |s|
    ensures forall i :: 0 <= i < |s| ==> r[i] == (if s[i] == from then to else s[i])
  {
    if s == [] then [] else [if s[0] == from then to else s[0]] + ReplaceChar(s[1..], from, to)
  }

  predicate IsDigit(c: char)
  {
    '0' <= c <= '9'
  }

  /** PHP's whitespace set for numeric strings: space, tab, newline, carriage return, vertical tab, form feed. */
  predicate IsSpace(c: char)
  {
    c == ' ' || c == '\t' || c == '\n' || c == '\r' || c as int == 11 || c as int == 12
  }

  /** The number of digits at the start of `s`. */
  function DigitRun(s: string): (n: nat)
    ensures n <= |s|
    ensures forall i :: 0 <= i < n ==> IsDigit(s[i])
    ensures n < |s| ==> !IsDigit(s[n])
  {
    if s != [] && IsDigit(s[0]) then 1 + DigitRun(s[1..]) else 0
  }

  function TrimLeft(s: string): (r: string)
    ensures |r| <= |s| && r == s[|s| - |r|..]
    ensures r != [] ==> !IsSpace(r[0])
  {
    if s != [] && IsSpace(s[0]) then TrimLeft(s[1..]) else s
  }

  function TrimRight(s: string): (r: string)
    ensures |r| <= |s| && r == s[..|r|]
    ensures r != [] ==> !IsSpace(r[|r| - 1])
  {
    if s != [] && IsSpace(s[|s| - 1]) then TrimRight(s[..|s| - 1]) else s
  }

  function DropSign(s: string): string
  {
    if s != [] && (s[0] == '+' || s[0] == '-') then s[1..] else s
  }

  /** An optional exponent part `[eE][+-]?digits`, or nothing. */
  predicate ExponentPart(s: string)
  {
    s == [] ||
    ((s[0] == 'e' || s[0] == 'E') &&
     var t := DropSign(s[1..]);
     DigitRun(t) > 0 && DigitRun(t) == |t|)
  }

  /** `[+-]? (digits [. digits*] | . digits) [exponent]` with nothing else. */
  predicate DecimalNumber(s: string)
  {
    var u := DropSign(s);
    var d1 := DigitRun(u);
    var rest := u[d1..];
    if rest != [] && rest[0] == '.' then
      var d2 := DigitRun(rest[1..]);
      d1 + d2 > 0 && ExponentPart(rest[1 + d2..])
    else
      d1 > 0 && ExponentPart(rest)
  }

  /** `is_numeric` on a string (PHP 8: surrounding whitespace allowed). */
  predicate IsNumeric(s: string)
  {
    DecimalNumber(TrimRight(TrimLeft(s)))
  }

  lemma {:induction false} DigitRunAllDigits(s: string)
    requires forall i :: 0 <= i < |s| ==> IsDigit(s[i])
    ensures DigitRun(s) == |s|
  {
    if s != [] {
      DigitRunAllDigits(s[1..]);
    }
  }

  /** A non-empty run of decimal digits is numeric; the empty string is not. */
  lemma {:induction false} DigitStringsAreNumeric(s: string)
    requires s != [] && forall i :: 0 <= i < |s| ==> IsDigit(s[i])
    ensures IsNumeric(s)
    ensures !IsNumeric("")
  {
    assert !IsSpace(s[0]) && !IsSpace(s[|s| - 1]);
    assert TrimLeft(s) == s;
    assert TrimRight(s) == s;
    assert DropSign(s) == s;
    DigitRunAllDigits(s);
    assert s[DigitRun(s)..] == [];
    assert DecimalNumber(s);
    assert TrimRight(TrimLeft("")) == "" && DropSign("") == "" && DigitRun("") == 0;
  }
}
