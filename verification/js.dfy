/**
 * The fragment of JavaScript semantics the analysis pipeline relies on:
 * `undefined` as an absent value, parsed JSON values, truthiness (what `x || d`
 * and `if (!x)` test), `String.prototype.includes`, `Array.prototype.join`
 * and the decimal rendering of a non-negative integer in a template string.
 */
module Js {

  /** A value that may be `undefined` (an absent property or optional field). */
  datatype Option<+T> = None | Some(value: T)

  /** A parsed JSON value. Numbers are integers in this model. */
  datatype Json =
    | JNull
    | JBool(b: bool)
    | JNum(n: int)
    | JStr(s: string)
    | JArr(items: seq<Json>)
    | JObj(fields: map<string, Json>)

  /** JavaScript truthiness of a JSON value: null, false, 0 and "" are falsy. */
  predicate Truthy(v: Json) {
    match v
    case JNull => false
    case JBool(b) => b
    case JNum(n) => n != 0
    case JStr(s) => s != ""
    case JArr(_) => true
    case JObj(_) => true
  }

  /** Truthiness of a possibly-undefined value: `undefined` is falsy. */
  predicate TruthyOpt(v: Option<Json>) {
    v.Some? && Truthy(v.value)
  }

  /**
   * Reading property `key` of a non-null value: only objects carry the keys
   * this pipeline reads; on any other value the read gives `undefined`.
   */
  function Prop(v: Json, key: string): (r: Option<Json>)
    ensures r.Some? <==> v.JObj? && key in v.fields
    ensures r.Some? ==> r.value == v.fields[key]
  {
    if v.JObj? && key in v.fields then Some(v.fields[key]) else None
  }

  /** `s.startsWith(p)` */
  predicate StartsWith(s: string, p: string) {
    |p| <= |s| && s[..|p|] == p
  }

  /** `s.includes(p)`: `p` occurs in `s` at some position. */
  predicate Contains(s: string, p: string)
    decreases |s|
  {
    StartsWith(s, p) || (|s| > 0 && Contains(s[1..], p))
  }

  /** An occurrence of `p` at position `i` of `s` is enough for `s.includes(p)`. */
  lemma {:induction false} ContainsAt(s: string, p: string, i: nat)
    requires i + |p| <= |s| && s[i..i + |p|] == p
    ensures Contains(s, p)
  {
    if i == 0 {
      assert s[..|p|] == s[0..|p|];
    } else {
      assert s[1..][i - 1..i - 1 + |p|] == s[i..i + |p|];
      ContainsAt(s[1..], p, i - 1);
    }
  }

  /** `a + p + b` always includes `p`. */
  lemma ContainsInfix(a: string, p: string, b: string)
    ensures Contains(a + p + b, p)
  {
    var s := a + p + b;
    assert s[|a|..|a| + |p|] == p;
    ContainsAt(s, p, |a|);
  }

  /** A string that lacks the first character of a non-empty `p` cannot include `p`. */
  lemma {:induction false} NotContainsWithoutHead(s: string, p: string)
    requires |p| > 0 && p[0] !in s
    ensures !Contains(s, p)
  {
    if |s| > 0 {
      assert s[0] in s;
      NotContainsWithoutHead(s[1..], p);
    } else {
      assert !StartsWith(s, p);
    }
  }

  /**
   * Prepending a string that lacks the first character of `p` neither creates
   * nor hides an occurrence of `p`.
   */
  lemma {:induction false} ContainsAfterPrefix(pre: string, m: string, p: string)
    requires |p| > 0 && p[0] !in pre
    ensures Contains(pre + m, p) <==> Contains(m, p)
  {
    if pre == [] {
      assert pre + m == m;
    } else {
      var s := pre + m;
      assert s[0] == pre[0] && pre[0] in pre;
      assert s[1..] == pre[1..] + m;
      ContainsAfterPrefix(pre[1..], m, p);
    }
  }

  /** The pieces of a template string, concatenated in order. */
  function Concat(parts: seq<string>): string {
    if |parts| == 0 then "" else parts[0] + Concat(parts[1..])
  }

  /** The text of the first `k` parts is a prefix of the text of all of them. */
  lemma {:induction false} ConcatPrefix(xs: seq<string>, k: nat)
    requires k <= |xs|
    ensures StartsWith(Concat(xs), Concat(xs[..k]))
  {
    if k > 0 {
      ConcatPrefix(xs[1..], k - 1);
      assert xs[..k][1..] == xs[1..][..k - 1];
      var rest, restPrefix := Concat(xs[1..]), Concat(xs[1..][..k - 1]);
      assert (xs[0] + rest)[..|xs[0]| + |restPrefix|] == xs[0] + rest[..|restPrefix|];
    }
  }

  /** `xs.join(sep)` */
  function Join(xs: seq<string>, sep: string): string {
    if |xs| == 0 then ""
    else if |xs| == 1 then xs[0]
    else xs[0] + sep + Join(xs[1..], sep)
  }

  predicate IsDigit(c: char) {
    '0' <= c <= '9'
  }

  function DigitChar(d: nat): (c: char)
    requires d < 10
    ensures IsDigit(c) && c as int - '0' as int == d
  {
    (d + '0' as int) as char
  }

  /** The decimal digits of `n`, as a template string `${n}` renders it. */
  function NatToString(n: nat): (s: string)
    ensures |s| >= 1 && forall i :: 0 <= i < |s| ==> IsDigit(s[i])
    ensures n >= 10 ==> s[0] != '0'
  {
    if n < 10 then [DigitChar(n)] else NatToString(n / 10) + [DigitChar(n % 10)]
  }

  /** The value of a string of decimal digits (its reading, for the round trip). */
  function DecimalValue(s: string): (v: int)
    requires forall i :: 0 <= i < |s| ==> IsDigit(s[i])
    ensures v >= 0
  {
    if |s| == 0 then 0
    else
      assert IsDigit(s[|s| - 1]);
      DecimalValue(s[..|s| - 1]) * 10 + (s[|s| - 1] as int - '0' as int)
  }

  /** Reading back the rendered digits gives the number. */
  lemma {:induction false} DecimalRoundTrip(n: nat)
    ensures DecimalValue(NatToString(n)) == n
  {
    if n >= 10 {
      var s := NatToString(n);
      assert s[..|s| - 1] == NatToString(n / 10);
      DecimalRoundTrip(n / 10);
    }
  }
}
