/** Optional values: `None` stands for a JavaScript `undefined` or `NaN`. */
module Wrappers {
  datatype Option<+T> = None | Some(value: T)
}

/**
 * The handful of JavaScript value conversions the scripts rely on, restricted
 * to integers: `Number(text)`, `parseInt(text)`, template-literal rendering of
 * numbers and of possibly-undefined strings, `String.prototype.slice`,
 * `Array.prototype.join`, and a newline counter used to state message shapes.
 */
module JsValues {
  import opened Wrappers

  predicate IsDigit(c: char) { '0' <= c <= '9' }

  predicate AllDigits(s: string) { forall i :: 0 <= i < |s| ==> IsDigit(s[i]) }

  function DigitValue(c: char): (d: nat)
    requires IsDigit(c)
    ensures d < 10
  {
    (c as int) - ('0' as int)
  }

  function DigitChar(d: nat): (c: char)
    requires d < 10
    ensures IsDigit(c) && DigitValue(c) == d
  {
    ((('0' as int) + d) as char)
  }

  /** The value of a string of decimal digits, most significant digit first. */
  function DigitsValue(s: string): nat
    requires AllDigits(s)
    decreases |s|
  {
    if s == [] then 0 else DigitsValue(s[..|s| - 1]) * 10 + DigitValue(s[|s| - 1])
  }

  /**
   * The canonical decimal text of a natural number, as `${n}` writes it: at
   * least one digit, no leading zero, and it reads back as `n`.
   */
  function NatText(n: nat): (s: string)
    ensures |s| > 0 && AllDigits(s)
    ensures DigitsValue(s) == n
    ensures |s| > 1 ==> s[0] != '0'
    decreases n
  {
    if n < 10 then [DigitChar(n)]
    else
      var prefix := NatText(n / 10);
      var s := prefix + [DigitChar(n % 10)];
      assert s[..|s| - 1] == prefix;
      s
  }

  /** `${v}` for an integer-valued JavaScript number. */
  function IntText(v: int): string {
    if v < 0 then "-" + NatText(-v) else NatText(v)
  }

  /** `${x}` for a number that may be `NaN` (`None`). */
  function NumberText(x: Option<int>): string {
    match x
    case None => "NaN"
    case Some(v) => IntText(v)
  }

  /** `${x}` for a string that may be `undefined` (`None`). */
  function Display(x: Option<string>): string {
    match x
    case None => "undefined"
    case Some(s) => s
  }

  /**
   * `Number(text)` on integer text: the empty string is 0, an optional sign
   * followed by one or more digits is that integer, and anything else is `NaN`.
   */
  function ParseNumber(s: string): (r: Option<int>)
    ensures s == "" ==> r == Some(0)
    ensures AllDigits(s) ==> r == Some(DigitsValue(s))
    ensures (exists i :: 0 < i < |s| && !IsDigit(s[i])) ==> r.None?
    ensures |s| > 0 && !IsDigit(s[0]) && s[0] != '-' && s[0] != '+' ==> r.None?
  {
    if s == "" then Some(0)
    else if (s[0] == '-' || s[0] == '+') && |s| > 1 && AllDigits(s[1..]) then
      Some(if s[0] == '-' then -(DigitsValue(s[1..]) as int) else DigitsValue(s[1..]))
    else if AllDigits(s) then Some(DigitsValue(s))
    else None
  }

  /** The longest prefix of `s` made of digits. */
  function LeadingDigits(s: string): (d: string)
    ensures d <= s && AllDigits(d)
    ensures |d| < |s| ==> !IsDigit(s[|d|])
    decreases |s|
  {
    if s == [] || !IsDigit(s[0]) then [] else [s[0]] + LeadingDigits(s[1..])
  }

  /**
   * `parseInt(text)` without whitespace skipping: an optional sign, then the
   * leading digits; no digit at all gives `NaN`.
   */
  function ParseIntPrefix(s: string): (r: Option<int>)
    ensures r.Some? <==>
      (|s| > 0 && IsDigit(s[0])) || (|s| > 1 && (s[0] == '-' || s[0] == '+') && IsDigit(s[1]))
    ensures r.Some? && |s| > 0 && s[0] != '-' ==> r.value >= 0
  {
    var negative := |s| > 0 && s[0] == '-';
    var body := if |s| > 0 && (s[0] == '-' || s[0] == '+') then s[1..] else s;
    var d := LeadingDigits(body);
    if d == [] then None else Some(if negative then -(DigitsValue(d) as int) else DigitsValue(d))
  }

  /** `s.slice(from, to)` for non-negative bounds: both are clamped to the length. */
  function Slice(s: string, from: nat, to: nat): (r: string)
    ensures from <= to <= |s| ==> r == s[from..to]
    ensures to <= from ==> r == ""
    ensures from <= |s| <= to ==> r == s[from..]
    ensures |s| <= from ==> r == ""
    ensures |r| <= |s|
  {
    var e := if to < |s| then to else |s|;
    var b := if from < e then from else e;
    s[b..e]
  }

  /** `lines.join(sep)`. */
  function Join(lines: seq<string>, sep: string): string
    decreases |lines|
  {
    if lines == [] then ""
    else if |lines| == 1 then lines[0]
    else lines[0] + sep + Join(lines[1..], sep)
  }

  /** The number of occurrences of `c` in `s`. */
  function CountChar(s: string, c: char): nat
    decreases |s|
  {
    if s == [] then 0 else CountChar(s[..|s| - 1], c) + (if s[|s| - 1] == c then 1 else 0)
  }

  // ---------------------------------------------------------------------------
  // Lemmas

  /** Rendering an integer and reading it back with `Number` gives the integer. */
  lemma NumberRoundTrip(v: int)
    ensures ParseNumber(IntText(v)) == Some(v)
  {
    if v < 0 {
      var t := NatText(-v);
      assert ("-" + t)[1..] == t;
    }
  }

  /** The digits of `t` are exactly the leading digits of `t + rest` when `rest` does not go on with a digit. */
  lemma {:induction false} LeadingDigitsOfDigits(t: string, rest: string)
    requires AllDigits(t)
    requires rest == [] || !IsDigit(rest[0])
    ensures LeadingDigits(t + rest) == t
  {
    var s := t + rest;
    var d := LeadingDigits(s);
    assert |d| == |t|;
    assert d == s[..|t|] == t;
  }

  /**
   * `parseInt` recovers an integer from its rendering, whatever non-digit text
   * follows it.
   */
  lemma ParseIntRoundTrip(v: int, rest: string)
    requires rest == [] || !IsDigit(rest[0])
    ensures ParseIntPrefix(IntText(v) + rest) == Some(v)
  {
    var s := IntText(v) + rest;
    if v < 0 {
      var t := NatText(-v);
      assert s == "-" + (t + rest);
      assert s[1..] == t + rest;
      LeadingDigitsOfDigits(t, rest);
      assert LeadingDigits(s[1..]) == t;
    } else {
      var t := NatText(v);
      assert s[0] == t[0];
      assert IsDigit(s[0]);
      LeadingDigitsOfDigits(t, rest);
    }
  }

  /** On every non-empty text that `Number` accepts, `parseInt` reads the same integer. */
  lemma ParseIntAgreesWithNumber(s: string)
    requires s != "" && ParseNumber(s).Some?
    ensures ParseIntPrefix(s) == ParseNumber(s)
  {
    if s[0] == '-' || s[0] == '+' {
      LeadingDigitsOfDigits(s[1..], []);
      assert s[1..] + [] == s[1..];
    } else {
      LeadingDigitsOfDigits(s, []);
      assert s + [] == s;
    }
  }

  /** The rendering of a number never holds a newline. */
  lemma NumberTextNoNewline(x: Option<int>)
    ensures '\n' !in NumberText(x)
  {
    if x.Some? {
      var v := x.value;
      var t := NatText(if v < 0 then -v else v);
      assert forall i :: 0 <= i < |t| ==> IsDigit(t[i]);
      assert '\n' !in t;
    }
  }

  lemma {:induction false} CountCharAppend(a: string, b: string, c: char)
    ensures CountChar(a + b, c) == CountChar(a, c) + CountChar(b, c)
    decreases |b|
  {
    if b == [] {
      assert a + b == a;
    } else {
      var b' := b[..|b| - 1];
      assert (a + b)[..|a + b| - 1] == a + b';
      CountCharAppend(a, b', c);
    }
  }

  lemma {:induction false} CountCharAbsent(s: string, c: char)
    requires c !in s
    ensures CountChar(s, c) == 0
    decreases |s|
  {
    if s != [] {
      assert s[|s| - 1] in s;
      CountCharAbsent(s[..|s| - 1], c);
    }
  }

  /** Counting over four concatenated pieces adds up the pieces' counts. */
  lemma CountCharConcat4(a: string, b: string, c: string, d: string, ch: char)
    ensures CountChar(a + b + c + d, ch) == CountChar(a, ch) + CountChar(b, ch) + CountChar(c, ch) + CountChar(d, ch)
  {
    CountCharAppend(a, b, ch);
    CountCharAppend(a + b, c, ch);
    CountCharAppend(a + b + c, d, ch);
  }

  lemma AppendAssociative(a: string, b: string, c: string)
    ensures a + b + c == a + (b + c)
  {
  }

  /** A line `s` followed by its terminator holds exactly one terminator. */
  lemma CountCharLine(s: string, c: char)
    requires c !in s
    ensures CountChar(s + [c], c) == 1
  {
    assert (s + [c])[..|s + [c]| - 1] == s;
    CountCharAbsent(s, c);
  }
}
