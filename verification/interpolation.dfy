/**
 * The redirect-template interpolator of dispatcher.js (`interpolate`).
 *
 * A string template is rewritten in one left-to-right pass of the regular
 * expression `\$(\d+|\$)`: `$$` becomes `$`, and `$N` (the longest run of
 * ASCII digits) becomes capture N of the match, or the empty string when that
 * capture is absent or empty.  Text produced by a substitution is never
 * scanned again.  A template that is not a string is returned unchanged.
 */
module Interpolation {
  import opened Wrappers

  /** The result of `RegExp.prototype.exec`: index 0 is the whole match,
      index N is capture group N, `None` an unset (undefined) group. */
  type Captures = seq<Option<string>>

  /** A redirect template or value: a string, a number, or a structured
      object that a handler understands natively. */
  datatype Value = Text(text: string) | Number(number: int) | Structured(id: nat)

  predicate IsDigit(c: char) {
    '0' <= c <= '9'
  }

  predicate AllDigits(s: string) {
    forall i :: 0 <= i < |s| ==> IsDigit(s[i])
  }

  /** Length of the run of digits that starts `s` (what `\d+` consumes greedily). */
  function DigitRun(s: string): (n: nat)
    ensures n <= |s|
    ensures AllDigits(s[..n])
    ensures n < |s| ==> !IsDigit(s[n])
  {
    if |s| > 0 && IsDigit(s[0]) then
      var n := 1 + DigitRun(s[1..]);
      assert s[..n] == [s[0]] + s[1..][..n - 1];
      n
    else 0
  }

  /** The decimal value of a run of digits. */
  function DigitsValue(d: string): nat
    requires AllDigits(d)
  {
    if d == [] then 0
    else DigitsValue(d[..|d| - 1]) * 10 + (d[|d| - 1] as int - '0' as int)
  }

  /** `match[d] || ''` where `d` is the digit string taken from the template.
      A property name with a leading zero ("01") is not an array index, so the
      lookup yields `undefined` and hence the empty string. */
  function Group(m: Captures, d: string): string
    requires |d| > 0 && AllDigits(d)
  {
    if |d| > 1 && d[0] == '0' then ""
    else
      var n := DigitsValue(d);
      if n < |m| && m[n].Some? then m[n].value else ""
  }

  /** The single left-to-right `replace` pass over a string template. */
  function Expand(m: Captures, t: string): string
    decreases |t|
  {
    if |t| == 0 then ""
    else if t[0] == '$' && |t| > 1 && IsDigit(t[1]) then
      var n := DigitRun(t[1..]);
      assert t[1..1 + n] == t[1..][..n];
      Group(m, t[1..1 + n]) + Expand(m, t[1 + n..])
    else if t[0] == '$' && |t| > 1 && t[1] == '$' then
      "$" + Expand(m, t[2..])
    else
      [t[0]] + Expand(m, t[1..])
  }

  /** `interpolate(match, redirect)`: only string templates are rewritten. */
  function Interpolate(m: Captures, redirect: Value): (r: Value)
    ensures r.Text? <==> redirect.Text?
    ensures !redirect.Text? ==> r == redirect
  {
    match redirect
    case Text(t) => Text(Expand(m, t))
    case _ => redirect
  }

  /** The template that denotes `s` literally: every `$` doubled. */
  function Escape(s: string): string {
    if s == [] then ""
    else (if s[0] == '$' then "$$" else [s[0]]) + Escape(s[1..])
  }

  /** A template without `$` is copied through unchanged. */
  lemma {:induction false} ExpandPlain(m: Captures, t: string)
    requires '$' !in t
    ensures Expand(m, t) == t
  {
    if |t| > 0 {
      assert t[0] != '$';
      assert '$' !in t[1..];
      ExpandPlain(m, t[1..]);
    }
  }

  /** Escaping round-trips through the pass: `$$` yields one `$` and the `$`
      it produced is not read again, so `Escape("$1")` = `"$$1"` yields `"$1"`. */
  lemma {:induction false} ExpandEscape(m: Captures, s: string)
    ensures Expand(m, Escape(s)) == s
  {
    if s != [] {
      var t := Escape(s);
      ExpandEscape(m, s[1..]);
      if s[0] == '$' {
        assert t == "$$" + Escape(s[1..]);
        assert t[2..] == Escape(s[1..]);
      } else {
        assert t == [s[0]] + Escape(s[1..]);
        assert t[1..] == Escape(s[1..]);
      }
    }
  }

  lemma {:induction false} DigitRunOfDigits(d: string, rest: string)
    requires AllDigits(d)
    requires rest == [] || !IsDigit(rest[0])
    ensures DigitRun(d + rest) == |d|
  {
    if d != [] {
      assert (d + rest)[1..] == d[1..] + rest;
      DigitRunOfDigits(d[1..], rest);
    } else {
      assert d + rest == rest;
    }
  }

  /** `$N` takes the whole digit run (greedy) and inserts capture N verbatim:
      whatever the capture contains, `$` included, is not expanded again. */
  lemma ExpandGroup(m: Captures, d: string, rest: string)
    requires |d| > 0 && AllDigits(d)
    requires rest == [] || !IsDigit(rest[0])
    ensures Expand(m, "$" + d + rest) == Group(m, d) + Expand(m, rest)
  {
    var t := "$" + d + rest;
    assert t[1..] == d + rest;
    DigitRunOfDigits(d, rest);
    assert t[1..1 + |d|] == d;
    assert t[1 + |d|..] == rest;
  }

  /** `$$` is replaced by one literal `$`. */
  lemma ExpandDollar(m: Captures, rest: string)
    ensures Expand(m, "$$" + rest) == "$" + Expand(m, rest)
  {
    assert ("$$" + rest)[2..] == rest;
  }

  /** Worked example: `"$1-$2"` over the match `["full", "a", "b"]` gives `"a-b"`. */
  lemma ExpandGroupsExample()
    ensures Expand([Some("full"), Some("a"), Some("b")], "$1-$2") == "a-b"
  {
    var m := [Some("full"), Some("a"), Some("b")];
    assert Group(m, "2") == "b" by { assert DigitsValue("2") == 2; }
    assert Group(m, "1") == "a" by { assert DigitsValue("1") == 1; }
    assert Expand(m, "") == "";
    ExpandGroup(m, "2", "");
    assert "$2" == "$" + "2" + "";
    assert Expand(m, "$2") == "b";
    assert Expand(m, "-$2") == "-" + Expand(m, "$2") by {
      assert "-$2"[1..] == "$2";
    }
    ExpandGroup(m, "1", "-$2");
    assert "$1-$2" == "$" + "1" + "-$2";
  }

  /** Worked example: `"$$1"` gives the literal `"$1"` whatever the match. */
  lemma ExpandEscapedDigitExample(m: Captures)
    ensures Expand(m, "$$1") == "$1"
  {
    ExpandDollar(m, "1");
    ExpandPlain(m, "1");
  }

  /** A capture that is unset, empty, out of range or named with a leading zero
      contributes the empty string. */
  lemma MissingGroupIsEmpty(m: Captures, d: string)
    requires |d| > 0 && AllDigits(d)
    requires (|d| > 1 && d[0] == '0') || DigitsValue(d) >= |m|
             || m[DigitsValue(d)] == None || m[DigitsValue(d)] == Some("")
    ensures Group(m, d) == ""
  {
  }
}
