/** The few JavaScript value semantics the client relies on: truthiness of
    strings, `a || b` fallbacks, `String.prototype.trim`, and
    `Number.prototype.toFixed(2)` read back with `parseFloat`. */
module Js {
  import opened Wrappers

  /** An optional string is truthy when present and non-empty
      (`null`, `undefined` and `''` are falsy). */
  predicate Truthy(s: Option<string>) {
    s.Some? && s.value != ""
  }

  /** `a || b` on optional strings. */
  function Or(a: Option<string>, b: Option<string>): Option<string> {
    if Truthy(a) then a else b
  }

  /** `a || 'fallback'` where the fallback is a literal. */
  function OrElse(a: Option<string>, fallback: string): (r: string)
    ensures Truthy(a) ==> Some(r) == a
    ensures !Truthy(a) ==> r == fallback
  {
    if Truthy(a) then a.value else fallback
  }

  /** The code points `trim` removes: ECMAScript WhiteSpace and LineTerminator. */
  predicate IsWhitespace(c: char) {
    || c == '\t' || c == '\U{B}' || c == '\U{C}' || c == ' ' || c == '\U{A0}' || c == '\U{FEFF}'
    || c == '\n' || c == '\r' || c == '\U{2028}' || c == '\U{2029}'
    || c == '\U{1680}' || ('\U{2000}' <= c <= '\U{200A}') || c == '\U{202F}' || c == '\U{205F}' || c == '\U{3000}'
  }

  function TrimStart(s: string): string {
    if s != [] && IsWhitespace(s[0]) then TrimStart(s[1..]) else s
  }

  function TrimEnd(s: string): string {
    if s != [] && IsWhitespace(s[|s| - 1]) then TrimEnd(s[..|s| - 1]) else s
  }

  /** `s.trim()` */
  function Trim(s: string): string {
    TrimEnd(TrimStart(s))
  }

  /** Some code point of `s` is not whitespace. */
  predicate HasContent(s: string) {
    exists i :: 0 <= i < |s| && !IsWhitespace(s[i])
  }

  /** `s && s.trim().length > 0` on an optional string. */
  predicate NonBlank(s: Option<string>) {
    Truthy(s) && |Trim(s.value)| > 0
  }

  /** `trimStart` removes a whitespace prefix and nothing else. */
  lemma {:induction false} TrimStartKeepsContent(s: string)
    ensures |TrimStart(s)| <= |s| && TrimStart(s) == s[|s| - |TrimStart(s)|..]
    ensures forall i :: 0 <= i < |s| - |TrimStart(s)| ==> IsWhitespace(s[i])
    ensures HasContent(TrimStart(s)) <==> HasContent(s)
    ensures TrimStart(s) != [] ==> !IsWhitespace(TrimStart(s)[0])
    decreases |s|
  {
    if s != [] && IsWhitespace(s[0]) {
      TrimStartKeepsContent(s[1..]);
      forall i | 1 <= i < |s| - |TrimStart(s)|
        ensures IsWhitespace(s[i])
      {
        assert s[1..][i - 1] == s[i];
      }
      if HasContent(s) {
        var i :| 0 <= i < |s| && !IsWhitespace(s[i]);
        assert s[1..][i - 1] == s[i];
      }
      if HasContent(s[1..]) {
        var i :| 0 <= i < |s[1..]| && !IsWhitespace(s[1..][i]);
        assert s[i + 1] == s[1..][i];
      }
    }
  }

  /** `trimEnd` removes a whitespace suffix and nothing else. */
  lemma {:induction false} TrimEndKeepsContent(s: string)
    ensures |TrimEnd(s)| <= |s| && TrimEnd(s) == s[..|TrimEnd(s)|]
    ensures forall i :: |TrimEnd(s)| <= i < |s| ==> IsWhitespace(s[i])
    ensures HasContent(TrimEnd(s)) <==> HasContent(s)
    decreases |s|
  {
    if s != [] && IsWhitespace(s[|s| - 1]) {
      var p := s[..|s| - 1];
      TrimEndKeepsContent(p);
      forall i | |TrimEnd(s)| <= i < |s| - 1
        ensures IsWhitespace(s[i])
      {
        assert p[i] == s[i];
      }
      if HasContent(s) {
        var i :| 0 <= i < |s| && !IsWhitespace(s[i]);
        assert i < |s| - 1 && p[i] == s[i];
      }
      if HasContent(p) {
        var i :| 0 <= i < |p| && !IsWhitespace(p[i]);
        assert s[i] == p[i];
      }
    }
  }

  /** `s.trim().length > 0` holds exactly when some code point of `s` is not whitespace. */
  lemma TrimNonEmptyIff(s: string)
    ensures |Trim(s)| > 0 <==> HasContent(s)
  {
    TrimStartKeepsContent(s);
    TrimEndKeepsContent(TrimStart(s));
    if HasContent(Trim(s)) {
      var i :| 0 <= i < |Trim(s)| && !IsWhitespace(Trim(s)[i]);
    }
    if |Trim(s)| > 0 {
      TrimEndNonEmpty(TrimStart(s));
    }
  }

  lemma {:induction false} TrimEndNonEmpty(s: string)
    requires |TrimEnd(s)| > 0
    ensures !IsWhitespace(TrimEnd(s)[|TrimEnd(s)| - 1])
    decreases |s|
  {
    if s != [] && IsWhitespace(s[|s| - 1]) {
      TrimEndNonEmpty(s[..|s| - 1]);
    }
  }

  /** `toFixed(2)` read back by `parseFloat`: the nearest multiple of 0.01,
      halves rounded away from zero (the sign is handled first, as
      ECMAScript does). Binary floating point is not modelled. */
  function Round2(x: real): real {
    if x < 0.0 then -RoundCents(-x) else RoundCents(x)
  }

  function RoundCents(x: real): real
    requires x >= 0.0
  {
    (x * 100.0 + 0.5).Floor as real / 100.0
  }

  /** `toFixed(2)` moves a value by at most half a cent. */
  lemma Round2Error(x: real)
    ensures -0.005 <= Round2(x) - x <= 0.005
  {
    var a := if x < 0.0 then -x else x;
    var n := (a * 100.0 + 0.5).Floor;
    assert n as real <= a * 100.0 + 0.5 < n as real + 1.0;
  }

  /** `toFixed(2)` of a non-negative value is non-negative. */
  lemma Round2NonNegative(x: real)
    requires x >= 0.0
    ensures Round2(x) >= 0.0
  {
    var n := (x * 100.0 + 0.5).Floor;
    assert 0.0 <= x * 100.0 + 0.5;
    assert 0 <= n;
  }

  /** A value that is a whole number of cents is printed and read back unchanged. */
  lemma Round2Cents(cents: int)
    ensures Round2(cents as real / 100.0) == cents as real / 100.0
  {
    if cents < 0 {
      var a := (-cents) as real / 100.0;
      assert (a * 100.0 + 0.5).Floor == -cents;
      assert -(cents as real / 100.0) == a;
    } else {
      var a := cents as real / 100.0;
      assert (a * 100.0 + 0.5).Floor == cents;
    }
  }
}
