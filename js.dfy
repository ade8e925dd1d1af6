/** JavaScript value conventions shared by every script of the automation:
    failure-compatible wrappers, string truthiness, the whitespace class used
    by `String.prototype.trim` and by `\s` in regular expressions, decimal
    rendering of numbers and substring search. */
module Js {

  datatype Option<+T> = None | Some(value: T) {
    function GetOr(default: T): T {
      match this
      case Some(v) => v
      case None => default
    }
  }

  datatype Result<+R, +E> = Ok(value: R) | Err(error: E)

  /** A pass/fail outcome that carries only the failure, like a JS function
      that either returns nothing or throws. */
  datatype Outcome<+E> = Pass | Fail(error: E)

  /** A JS string is truthy iff it is not empty. */
  predicate Truthy(s: string) {
    s != ""
  }

  /** `obj[key]` used as a boolean: an absent key is `undefined`, hence falsy. */
  predicate TruthyAt(m: map<string, string>, key: string) {
    key in m && Truthy(m[key])
  }

  /** `obj[key] || ""`: the value when present, the empty string otherwise. */
  function ValueOrEmpty(m: map<string, string>, key: string): string {
    if key in m then m[key] else ""
  }

  /** The WhiteSpace and LineTerminator code points of ECMAScript, which is
      what `trim()` removes and what `\s` matches. */
  predicate IsJsSpace(c: char) {
    c == '\t' || c == '\n' || c == '\U{000B}' || c == '\U{000C}' || c == '\r' || c == ' '
    || c == '\U{00A0}' || c == '\U{1680}' || ('\U{2000}' <= c <= '\U{200A}')
    || c == '\U{2028}' || c == '\U{2029}' || c == '\U{202F}' || c == '\U{205F}'
    || c == '\U{3000}' || c == '\U{FEFF}'
  }

  /** `s.trim() === ''`: every character of `s` is whitespace. */
  predicate IsBlank(s: string) {
    forall i :: 0 <= i < |s| ==> IsJsSpace(s[i])
  }

  function DigitChar(d: nat): char
    requires d < 10
  {
    ('0' as int + d) as char
  }

  /** The decimal rendering of a non-negative integer, as template literals and
      `Number.prototype.toString` produce it. */
  function NatToString(n: nat): (r: string)
    ensures |r| >= 1
    ensures forall i :: 0 <= i < |r| ==> '0' <= r[i] <= '9'
    ensures n >= 10 ==> r[0] != '0'
  {
    if n < 10 then [DigitChar(n)] else NatToString(n / 10) + [DigitChar(n % 10)]
  }

  /** Reads a string of decimal digits back; the inverse of NatToString. */
  function DigitsValue(s: string): nat
    requires forall i :: 0 <= i < |s| ==> '0' <= s[i] <= '9'
  {
    if s == [] then 0 else DigitsValue(s[..|s| - 1]) * 10 + (s[|s| - 1] as int - '0' as int)
  }

  lemma {:induction false} NatToStringRoundTrip(n: nat)
    ensures DigitsValue(NatToString(n)) == n
  {
    var s := NatToString(n);
    var d := n % 10;
    if n >= 10 {
      var front := NatToString(n / 10);
      assert s == front + [DigitChar(d)];
      assert s[..|s| - 1] == front;
      NatToStringRoundTrip(n / 10);
      assert DigitsValue(s) == DigitsValue(front) * 10 + d;
    }
  }

  /** `sub` occurs in `s` starting at index `i`. */
  predicate OccursAt(s: string, sub: string, i: int) {
    0 <= i <= |s| - |sub| && s[i..i + |sub|] == sub
  }

  /** `s.includes(sub)`. */
  predicate Contains(s: string, sub: string) {
    exists i | 0 <= i <= |s| - |sub| :: OccursAt(s, sub, i)
  }

  /** `parts.join(sep)`. */
  function Join(parts: seq<string>, sep: string): string {
    if parts == [] then ""
    else if |parts| == 1 then parts[0]
    else parts[0] + sep + Join(parts[1..], sep)
  }
}
