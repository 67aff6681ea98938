/**
 * The string operations the readers rely on: Python's argument-less `str.split()`,
 * `str.startswith`, `str.lstrip(chars)`, the decimal rendering `str(int)`, and the
 * numeric decoders `int(token)` / `float(token)`, which are left abstract.
 */
module Text {
  import opened Wrappers

  /** Python's whitespace for `str.split()` with no separator. */
  predicate IsSpace(c: char) {
    || c == ' '
    || ('\t' <= c <= '\r')
    || ('\U{1C}' <= c <= '\U{1F}')
    || c == '\U{85}' || c == '\U{A0}' || c == '\U{1680}'
    || ('\U{2000}' <= c <= '\U{200A}')
    || c == '\U{2028}' || c == '\U{2029}' || c == '\U{202F}' || c == '\U{205F}' || c == '\U{3000}'
  }

  predicate NoSpace(t: string) {
    forall i :: 0 <= i < |t| ==> !IsSpace(t[i])
  }

  /** A token as `str.split()` produces it: non-empty and free of whitespace. */
  predicate IsToken(t: string) {
    |t| > 0 && NoSpace(t)
  }

  /** Length of the longest whitespace-free prefix of `s`. */
  function WordLength(s: string): (n: nat)
    ensures n <= |s|
    ensures forall i :: 0 <= i < n ==> !IsSpace(s[i])
    ensures n < |s| ==> IsSpace(s[n])
  {
    if s == [] || IsSpace(s[0]) then 0 else 1 + WordLength(s[1..])
  }

  /** `s.split()`: the maximal whitespace-free runs of `s`, in order. */
  function Split(s: string): (r: seq<string>)
    ensures forall i :: 0 <= i < |r| ==> IsToken(r[i])
    decreases |s|
  {
    if s == [] then []
    else if IsSpace(s[0]) then Split(s[1..])
    else
      var n := WordLength(s);
      [s[..n]] + Split(s[n..])
  }

  /** `" ".join(ts)`. */
  function Join(ts: seq<string>): string {
    if ts == [] then ""
    else if |ts| == 1 then ts[0]
    else ts[0] + " " + Join(ts[1..])
  }

  lemma {:induction false} SplitToken(w: string, rest: string)
    requires IsToken(w)
    requires rest == [] || IsSpace(rest[0])
    ensures Split(w + rest) == [w] + Split(rest)
  {
    var s := w + rest;
    assert !IsSpace(s[0]);
    WordLengthOfToken(w, rest);
    assert s[..|w|] == w;
    assert s[|w|..] == rest;
  }

  lemma {:induction false} WordLengthOfToken(w: string, rest: string)
    requires NoSpace(w)
    requires rest == [] || IsSpace(rest[0])
    ensures WordLength(w + rest) == |w|
    decreases |w|
  {
    if w == [] {
      assert w + rest == rest;
    } else {
      assert (w + rest)[1..] == w[1..] + rest;
      WordLengthOfToken(w[1..], rest);
    }
  }

  /** Splitting undoes joining tokens with single spaces: the tokens come back unchanged. */
  lemma {:induction false} SplitJoin(ts: seq<string>)
    requires forall i :: 0 <= i < |ts| ==> IsToken(ts[i])
    ensures Split(Join(ts)) == ts
  {
    if ts == [] {
    } else if |ts| == 1 {
      SplitToken(ts[0], "");
      assert ts[0] + "" == ts[0];
    } else {
      var rest := " " + Join(ts[1..]);
      assert Join(ts) == ts[0] + rest;
      SplitToken(ts[0], rest);
      assert rest[1..] == Join(ts[1..]);
      SplitJoin(ts[1..]);
    }
  }

  /** `s.startswith(p)`. */
  predicate StartsWith(s: string, p: string) {
    |p| <= |s| && s[..|p|] == p
  }

  /** The characters of `s`, as `lstrip` reads its argument. */
  function Chars(s: string): set<char> {
    set i | 0 <= i < |s| :: s[i]
  }

  /** `s.lstrip(chars)`: drops every leading character that belongs to `cs`. */
  function LStrip(s: string, cs: set<char>): (r: string)
    ensures |r| <= |s| && r == s[|s| - |r|..]
    ensures forall i :: 0 <= i < |s| - |r| ==> s[i] in cs
    ensures r == [] || r[0] !in cs
  {
    if s != [] && s[0] in cs then LStrip(s[1..], cs) else s
  }

  // ---- decimal rendering of integers, Python's str(int) ----

  function DigitChar(d: nat): char
    requires d < 10
  {
    "0123456789"[d]
  }

  predicate IsDigit(c: char) {
    '0' <= c <= '9'
  }

  function DigitValue(c: char): nat
    requires IsDigit(c)
  {
    (c as int) - ('0' as int)
  }

  function NatToString(n: nat): (s: string)
    ensures |s| > 0
  {
    if n < 10 then [DigitChar(n)] else NatToString(n / 10) + [DigitChar(n % 10)]
  }

  /** `str(n)`: the decimal form, with a leading '-' for negative numbers. */
  function IntToString(n: int): string {
    if n < 0 then "-" + NatToString(-n) else NatToString(n)
  }

  /** Reads back a string of decimal digits: the reference inverse of NatToString. */
  function DigitsValue(s: string): nat
    requires forall i :: 0 <= i < |s| ==> IsDigit(s[i])
  {
    if s == [] then 0 else 10 * DigitsValue(s[..|s| - 1]) + DigitValue(s[|s| - 1])
  }

  lemma {:induction false} NatToStringDigits(n: nat)
    ensures forall i :: 0 <= i < |NatToString(n)| ==> IsDigit(NatToString(n)[i])
    ensures DigitsValue(NatToString(n)) == n
  {
    if n >= 10 {
      NatToStringDigits(n / 10);
      var s := NatToString(n);
      assert s[..|s| - 1] == NatToString(n / 10);
    }
  }

  /** The rendering starts with '-' exactly for negative numbers. */
  lemma SignChar(n: int)
    ensures |IntToString(n)| > 0
    ensures IntToString(n)[0] == '-' <==> n < 0
  {
    if n >= 0 {
      NatToStringDigits(n);
      assert IsDigit(NatToString(n)[0]);
    }
  }

  /** Decimal rendering loses nothing: distinct integers get distinct strings. */
  lemma IntToStringInjective(a: int, b: int)
    ensures IntToString(a) == IntToString(b) ==> a == b
  {
    SignChar(a);
    SignChar(b);
    NatToStringDigits(if a < 0 then -a else a);
    NatToStringDigits(if b < 0 then -b else b);
    if a < 0 && b < 0 {
      assert IntToString(a)[1..] == NatToString(-a);
      assert IntToString(b)[1..] == NatToString(-b);
    }
  }

  /**
   * Python's `int(token)` and `float(token)`, as partial functions: None is the
   * ValueError they raise on a token they cannot read.
   */
  datatype Decoders = Decoders(toInt: string -> Option<int>, toFloat: string -> Option<real>)

  /**
   * `map(int, tokens)`, consumed in order: one integer per token, or the first token
   * `int` refuses, which both readers report as their own ValueError.
   */
  function IntTokens(ts: seq<string>, dec: Decoders): (r: Result<seq<int>, string>)
    ensures r.Success? ==> |r.value| == |ts| && forall i :: 0 <= i < |ts| ==> dec.toInt(ts[i]) == Some(r.value[i])
    ensures r.Failure? ==>
      exists i :: && 0 <= i < |ts| && dec.toInt(ts[i]).None? && r.error == ts[i]
                  && forall j :: 0 <= j < i ==> dec.toInt(ts[j]).Some?
  {
    if ts == [] then Success([])
    else match dec.toInt(ts[0])
      case None => Failure(ts[0])
      case Some(n) =>
        match IntTokens(ts[1..], dec)
        case Failure(t) => Failure(t)
        case Success(ns) => Success([n] + ns)
  }
}
