/**
 * The few JavaScript value semantics the console relies on: absent values
 * (null / undefined), truthiness of strings, the `||` and `??` fallbacks,
 * ASCII case mapping, `String.prototype.includes`, string comparison and
 * the decimal text of an integer.
 */
module Js {

  /** null or undefined (None), or a present value. */
  datatype Option<+T> = None | Some(value: T) {
    function GetOr(default: T): T {
      match this
      case Some(v) => v
      case None => default
    }
  }

  /** A string is falsy when it is absent or empty. */
  predicate Truthy(s: Option<string>) {
    s.Some? && s.value != ""
  }

  /** `s || fallback` on a string that may be absent. */
  function OrElse(s: Option<string>, fallback: string): (r: string)
    ensures Truthy(s) ==> r == s.value
    ensures !Truthy(s) ==> r == fallback
  {
    if s.Some? && s.value != "" then s.value else fallback
  }

  /** `s ?? fallback`: only null and undefined fall back; '' is kept. */
  function Coalesce(s: Option<string>, fallback: string): (r: string)
    ensures s.Some? ==> r == s.value
    ensures s.None? ==> r == fallback
  {
    match s
    case Some(v) => v
    case None => fallback
  }

  function LowerChar(c: char): char {
    if 'A' <= c <= 'Z' then (c as int + 32) as char else c
  }

  function UpperChar(c: char): char {
    if 'a' <= c <= 'z' then (c as int - 32) as char else c
  }

  /** `toLowerCase` restricted to ASCII letters. */
  function Lower(s: string): (r: string)
    ensures |r| == |s|
    ensures forall i :: 0 <= i < |s| ==> r[i] == LowerChar(s[i])
  {
    seq(|s|, i requires 0 <= i < |s| => LowerChar(s[i]))
  }

  /** Lowering twice is lowering once, so a lowered search term is stable. */
  lemma LowerIdempotent(s: string)
    ensures Lower(Lower(s)) == Lower(s)
  {
  }

  /** `s.charAt(0).toUpperCase()`: the empty string when s is empty. */
  function Initial(s: string): (r: string)
    ensures s == "" <==> r == ""
    ensures s != "" ==> r == [UpperChar(s[0])]
  {
    if s == "" then "" else [UpperChar(s[0])]
  }

  /** True when t occurs in s at position i. */
  ghost predicate OccursAt(s: string, t: string, i: int) {
    0 <= i && i + |t| <= |s| && s[i..i + |t|] == t
  }

  /** `s.includes(t)`, scanning s from the left. */
  function Includes(s: string, t: string): bool
    decreases |s|
  {
    if |t| > |s| then false
    else if s[..|t|] == t then true
    else Includes(s[1..], t)
  }

  /** A successful scan has found an occurrence. */
  lemma {:induction false} IncludesThenOccurs(s: string, t: string)
    requires Includes(s, t)
    ensures exists i :: OccursAt(s, t, i)
    decreases |s|
  {
    if |t| <= |s| && s[..|t|] == t {
      assert OccursAt(s, t, 0);
    } else {
      IncludesThenOccurs(s[1..], t);
      var i :| OccursAt(s[1..], t, i);
      assert s[1..][i..i + |t|] == s[i + 1..i + 1 + |t|];
      assert OccursAt(s, t, i + 1);
    }
  }

  /** An occurrence at any position is found by the scan. */
  lemma {:induction false} OccursThenIncludes(s: string, t: string, i: int)
    requires OccursAt(s, t, i)
    ensures Includes(s, t)
    decreases i
  {
    if i > 0 && s[..|t|] != t {
      assert s[1..][i - 1..i - 1 + |t|] == s[i..i + |t|];
      OccursThenIncludes(s[1..], t, i - 1);
    }
  }

  /** The scan agrees with the plain definition of a substring, both ways. */
  lemma IncludesIffOccurs(s: string, t: string)
    ensures Includes(s, t) <==> exists i :: OccursAt(s, t, i)
  {
    if Includes(s, t) {
      IncludesThenOccurs(s, t);
    }
    forall i | OccursAt(s, t, i)
      ensures Includes(s, t)
    {
      OccursThenIncludes(s, t, i);
    }
  }

  /** Every string includes the empty string, so an empty search term matches. */
  lemma EmptyIsIncluded(s: string)
    ensures Includes(s, "")
  {
  }

  /** t occurs somewhere in s once both are lowered. */
  ghost predicate OccursIgnoringCase(s: string, t: string) {
    exists i :: OccursAt(Lower(s), Lower(t), i)
  }

  /** `s.toLowerCase().includes(t.toLowerCase())`: the screens' search test. */
  function ContainsIgnoringCase(s: string, t: string): (b: bool)
    ensures b <==> OccursIgnoringCase(s, t)
    ensures t == "" ==> b
  {
    IncludesIffOccurs(Lower(s), Lower(t));
    EmptyIsIncluded(Lower(s));
    Includes(Lower(s), Lower(t))
  }

  /** `a <= b` on strings: code-point lexicographic order on Dafny characters, a prefix first. */
  predicate LexLessEq(a: string, b: string)
    decreases |a|
  {
    if a == "" then true
    else if b == "" then false
    else if a[0] != b[0] then a[0] < b[0]
    else LexLessEq(a[1..], b[1..])
  }

  /** The string order is total: of two strings one is at most the other. */
  lemma {:induction false} LexTotal(a: string, b: string)
    ensures LexLessEq(a, b) || LexLessEq(b, a)
    decreases |a|
  {
    if a != "" && b != "" && a[0] == b[0] {
      LexTotal(a[1..], b[1..]);
    }
  }

  /** The string order is antisymmetric: it orders equal strings only. */
  lemma {:induction false} LexAntisymmetric(a: string, b: string)
    requires LexLessEq(a, b) && LexLessEq(b, a)
    ensures a == b
    decreases |a|
  {
    if a != "" && b != "" {
      LexAntisymmetric(a[1..], b[1..]);
      assert a == [a[0]] + a[1..] && b == [b[0]] + b[1..];
    }
  }

  /** The string order is transitive. */
  lemma {:induction false} LexTransitive(a: string, b: string, c: string)
    requires LexLessEq(a, b) && LexLessEq(b, c)
    ensures LexLessEq(a, c)
    decreases |a|
  {
    if a != "" && b != "" && c != "" && a[0] == b[0] && b[0] == c[0] {
      LexTransitive(a[1..], b[1..], c[1..]);
    }
  }

  function DigitChar(d: int): (c: char)
    requires 0 <= d < 10
    ensures '0' <= c <= '9' && c as int - '0' as int == d
  {
    ('0' as int + d) as char
  }

  /** Decimal text of a natural number, most significant digit first. */
  function NatText(n: nat): (r: string)
    ensures |r| > 0
    ensures forall i :: 0 <= i < |r| ==> '0' <= r[i] <= '9'
    decreases n
  {
    if n < 10 then [DigitChar(n)] else NatText(n / 10) + [DigitChar(n % 10)]
  }

  /** `n.toString()` for an integer. */
  function IntText(n: int): string {
    if n < 0 then "-" + NatText(-n) else NatText(n)
  }

  /** The value of a string of decimal digits, most significant first. */
  function DigitsValue(s: string): (v: nat)
    requires forall i :: 0 <= i < |s| ==> '0' <= s[i] <= '9'
    decreases |s|
  {
    if s == [] then 0 else DigitsValue(s[..|s| - 1]) * 10 + (s[|s| - 1] as int - '0' as int)
  }

  /** The value of an optionally signed decimal text. */
  function SignedValue(s: string): int
    requires s != [] && s[0] == '-' ==> forall i :: 1 <= i < |s| ==> '0' <= s[i] <= '9'
    requires !(s != [] && s[0] == '-') ==> forall i :: 0 <= i < |s| ==> '0' <= s[i] <= '9'
  {
    if s != [] && s[0] == '-' then -(DigitsValue(s[1..]) as int) else DigitsValue(s)
  }

  /** Reading back the decimal text of a natural number gives the number. */
  lemma {:induction false} NatTextRoundTrip(n: nat)
    ensures DigitsValue(NatText(n)) == n
    decreases n
  {
    var r := NatText(n);
    if n < 10 {
      assert r[..|r| - 1] == [];
    } else {
      NatTextRoundTrip(n / 10);
      assert r[..|r| - 1] == NatText(n / 10);
    }
  }

  /** Reading back `n.toString()` gives n. */
  lemma IntTextRoundTrip(n: int)
    ensures SignedValue(IntText(n)) == n
  {
    if n < 0 {
      assert IntText(n)[1..] == NatText(-n);
      NatTextRoundTrip(-n);
    } else {
      NatTextRoundTrip(n);
    }
  }

  /**
   * A JSON number (a salary) as the console treats it: opaque, carried as its
   * decimal text. `parseFloat` and `toString` map between the two.
   */
  datatype Number = Number(text: string)

  function ParseFloat(s: string): Number {
    Number(s)
  }

  function ToText(n: Number): string {
    n.text
  }
}
