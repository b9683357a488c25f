/** Greedy scanning of strings, the building block for modelling regular expressions whose neighbouring
    character classes are disjoint: such an expression matches at a position exactly when taking the longest
    run for every piece succeeds. */
module Scanning {

  /** The length of the longest prefix of `s` in the class `p`. */
  function Span(p: char -> bool, s: string): (n: nat)
    ensures n <= |s| && (forall i | 0 <= i < n :: p(s[i])) && (n < |s| ==> !p(s[n]))
  {
    if s != "" && p(s[0]) then 1 + Span(p, s[1..]) else 0
  }

  predicate All(p: char -> bool, s: string) { forall i | 0 <= i < |s| :: p(s[i]) }

  /** `s` is empty or begins outside the class. */
  predicate Stops(p: char -> bool, s: string) { s != "" ==> !p(s[0]) }

  lemma {:induction false} SpanIs(p: char -> bool, a: string, b: string)
    requires All(p, a) && Stops(p, b)
    ensures Span(p, a + b) == |a| && (a + b)[..|a|] == a && (a + b)[|a|..] == b
    decreases |a|
  {
    if a == "" {
      assert a + b == b;
    } else {
      assert (a + b)[1..] == a[1..] + b;
      SpanIs(p, a[1..], b);
    }
  }

  predicate IsOpen(c: char) { c == '{' }

  predicate IsClose(c: char) { c == '}' }

  predicate IsBlank(c: char) { c == ' ' }

  predicate NotOpen(c: char) { c != '{' }

  predicate IsAlnum(c: char) { 'a' <= c <= 'z' || 'A' <= c <= 'Z' || '0' <= c <= '9' }

  /** The characters of Python's \s. */
  predicate IsSpace(c: char) {
    var n := c as int;
    || 9 <= n <= 13 || 28 <= n <= 32 || n == 0x85 || n == 0xA0 || n == 0x1680 || 0x2000 <= n <= 0x200A
    || n == 0x2028 || n == 0x2029 || n == 0x202F || n == 0x205F || n == 0x3000
  }

  /** [A-Za-z0-9_.-] */
  predicate IsVarChar(c: char) { IsAlnum(c) || c == '_' || c == '.' || c == '-' }

  predicate IsDigit(c: char) { '0' <= c <= '9' }

  /** A number written in decimal. */
  function Decimal(s: string): nat {
    if s == "" then 0 else Decimal(s[..|s| - 1]) * 10 + if IsDigit(s[|s| - 1]) then (s[|s| - 1] - '0') as nat else 0
  }
}
