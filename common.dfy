/**
 * Shared vocabulary of the components: optional values, outcomes of remote
 * calls, and the few JavaScript string operations the components rely on
 * (`String(n)` for a non-negative integer, `toLowerCase`, `includes`, the
 * regular-expression class `\s`, and `error.body?.message || fallback`).
 */
module Common {

  datatype Option<+T> = None | Some(value: T)

  /** The settled outcome of a remote (Apex) call: a resolved value, or a
      rejection whose `body.message` may be absent. */
  datatype Reply<+T> = Resolved(value: T) | Rejected(bodyMessage: Option<string>)

  /** `error.body?.message || fallback`: an absent or empty body message
      falls back to the component's fixed text. */
  function ErrorText(bodyMessage: Option<string>, fallback: string): (r: string)
    ensures bodyMessage.Some? && bodyMessage.value != "" ==> r == bodyMessage.value
    ensures bodyMessage.None? || bodyMessage.value == "" ==> r == fallback
    ensures fallback != "" ==> r != ""
  {
    match bodyMessage
    case Some(m) => if m != "" then m else fallback
    case None => fallback
  }

  // ---------------------------------------------------------------------
  // Decimal rendering of a count, as JavaScript prints a non-negative
  // integer when it is concatenated to a string.

  predicate IsDigit(c: char) {
    '0' <= c <= '9'
  }

  function DigitChar(d: nat): (c: char)
    requires d < 10
    ensures IsDigit(c) && DigitValue(c) == d
  {
    ('0' as int + d) as char
  }

  function DigitValue(c: char): nat
    requires IsDigit(c)
  {
    c as int - '0' as int
  }

  /** The decimal digits of `n`, most significant first, with no leading zero. */
  function NatToString(n: nat): (s: string)
    ensures |s| > 0
    ensures forall k :: 0 <= k < |s| ==> IsDigit(s[k])
    ensures s[0] == '0' ==> n == 0
    decreases n
  {
    if n < 10 then [DigitChar(n)] else NatToString(n / 10) + [DigitChar(n % 10)]
  }

  /** Reads a string of decimal digits back as a number. */
  function ParseNat(s: string): nat
    requires forall k :: 0 <= k < |s| ==> IsDigit(s[k])
  {
    if s == [] then 0 else 10 * ParseNat(s[..|s| - 1]) + DigitValue(s[|s| - 1])
  }

  /** Printing a count and reading it back gives the count again. */
  lemma {:induction false} ParseNatToString(n: nat)
    ensures ParseNat(NatToString(n)) == n
    decreases n
  {
    var s := NatToString(n);
    if n >= 10 {
      ParseNatToString(n / 10);
      assert s[..|s| - 1] == NatToString(n / 10);
    }
  }

  /** Two counts print the same only when they are equal. */
  lemma NatToStringInjective(m: nat, n: nat)
    requires NatToString(m) == NatToString(n)
    ensures m == n
  {
    ParseNatToString(m);
    ParseNatToString(n);
  }

  // ---------------------------------------------------------------------
  // Lower-casing. JavaScript's `toLowerCase` follows the Unicode tables;
  // this model lower-cases the ASCII letters A-Z and leaves every other
  // character as it is.

  function LowerChar(c: char): (l: char)
    ensures 'A' <= c <= 'Z' ==> l as int == c as int + 32
    ensures !('A' <= c <= 'Z') ==> l == c
    ensures !('A' <= l <= 'Z')
  {
    if 'A' <= c <= 'Z' then (c as int + 32) as char else c
  }

  function Lower(s: string): (r: string)
    ensures |r| == |s|
    ensures forall k :: 0 <= k < |s| ==> r[k] == LowerChar(s[k])
  {
    seq(|s|, k requires 0 <= k < |s| => LowerChar(s[k]))
  }

  // ---------------------------------------------------------------------
  // Substring search: `s.includes(t)`.

  predicate OccursAt(s: string, t: string, i: int) {
    0 <= i && i + |t| <= |s| && s[i..i + |t|] == t
  }

  /** `s.includes(t)`, searched from the front. */
  function Contains(s: string, t: string): bool
    decreases |s|
  {
    (|t| <= |s| && s[..|t|] == t) || (|s| > 0 && Contains(s[1..], t))
  }

  /** A successful search names a position where `t` occurs. */
  lemma {:induction false} ContainsWitness(s: string, t: string) returns (i: nat)
    requires Contains(s, t)
    ensures OccursAt(s, t, i)
    decreases |s|
  {
    if |t| <= |s| && s[..|t|] == t {
      i := 0;
    } else {
      var j := ContainsWitness(s[1..], t);
      assert s[j + 1..j + 1 + |t|] == s[1..][j..j + |t|];
      i := j + 1;
    }
  }

  /** An occurrence at any position is found by the search. */
  lemma {:induction false} OccursContained(s: string, t: string, i: nat)
    requires OccursAt(s, t, i)
    ensures Contains(s, t)
    decreases i
  {
    if i > 0 {
      assert s[1..][i - 1..i - 1 + |t|] == s[i..i + |t|];
      OccursContained(s[1..], t, i - 1);
    }
  }

  /** The search finds `t` exactly when `t` occurs at some position of `s`. */
  lemma ContainsIffOccurs(s: string, t: string)
    ensures Contains(s, t) <==> exists i :: OccursAt(s, t, i)
  {
    if Contains(s, t) {
      var i := ContainsWitness(s, t);
    }
    if exists i :: OccursAt(s, t, i) {
      var i :| OccursAt(s, t, i);
      OccursContained(s, t, i);
    }
  }

  // ---------------------------------------------------------------------
  // The regular-expression class `\s`: ECMAScript's WhiteSpace and
  // LineTerminator code points.

  predicate IsWhitespace(c: char) {
    var n := c as int;
    n == 0x09 || n == 0x0A || n == 0x0B || n == 0x0C || n == 0x0D || n == 0x20
    || n == 0xA0 || n == 0x1680 || (0x2000 <= n <= 0x200A)
    || n == 0x2028 || n == 0x2029 || n == 0x202F || n == 0x205F
    || n == 0x3000 || n == 0xFEFF
  }
}
