/** The few Python string operations the harness relies on: `startswith`,
    the `in` substring test, `strip(c)` and `str()` of a non-negative int. */
module Text {

  /** `s.startswith(prefix)` */
  predicate StartsWith(s: string, prefix: string) {
    |prefix| <= |s| && s[..|prefix|] == prefix
  }

  /** `part` occurs in `s` starting at offset `i`. */
  predicate OccursAt(s: string, part: string, i: int) {
    0 <= i && i + |part| <= |s| && s[i..i + |part|] == part
  }

  /** `part in s` for two strings. */
  predicate Contains(s: string, part: string) {
    exists i :: 0 <= i <= |s| - |part| && OccursAt(s, part, i)
  }

  lemma ContainsAt(s: string, part: string, i: int)
    requires OccursAt(s, part, i)
    ensures Contains(s, part)
  {
  }

  /** A string that occurs inside `a + part + b` is contained in it. */
  lemma ContainsInfix(a: string, part: string, b: string)
    ensures Contains(a + part + b, part)
  {
    var s := a + part + b;
    assert s[|a|..|a| + |part|] == part;
    ContainsAt(s, part, |a|);
  }

  /** `s.lstrip(c)`: drop every leading `c`. */
  function TrimLeft(s: string, c: char): (r: string)
    ensures |r| <= |s| && r == s[|s| - |r|..]
    ensures r == [] || r[0] != c
    ensures forall k :: 0 <= k < |s| - |r| ==> s[k] == c
  {
    if s != [] && s[0] == c then TrimLeft(s[1..], c) else s
  }

  /** `s.rstrip(c)`: drop every trailing `c`. */
  function TrimRight(s: string, c: char): (r: string)
    ensures |r| <= |s| && r == s[..|r|]
    ensures r == [] || r[|r| - 1] != c
    ensures forall k :: |r| <= k < |s| ==> s[k] == c
  {
    if s != [] && s[|s| - 1] == c then TrimRight(s[..|s| - 1], c) else s
  }

  /** `s.strip(c)`: the middle of `s` once every leading and trailing `c` is gone. */
  function Strip(s: string, c: char): (r: string)
    ensures r == [] || (r[0] != c && r[|r| - 1] != c)
  {
    TrimRight(TrimLeft(s, c), c)
  }

  lemma {:induction false} StripUntouched(s: string, c: char)
    requires s != [] && s[0] != c && s[|s| - 1] != c
    ensures Strip(s, c) == s
  {
  }

  /** Stripping the quotes a value was wrapped in gives the value back when
      it neither starts nor ends with that quote itself. */
  lemma {:induction false} StripWrapped(t: string, c: char)
    requires t != [] && t[0] != c && t[|t| - 1] != c
    ensures Strip([c] + t + [c], c) == t
  {
    var s := [c] + t + [c];
    assert s[1..] == t + [c];
    assert TrimLeft(s, c) == TrimLeft(t + [c], c) == t + [c];
    assert (t + [c])[..|t|] == t;
    assert TrimRight(t + [c], c) == TrimRight(t, c) == t;
  }

  /** Strip leaves a part of its input. */
  lemma StripContained(s: string, c: char)
    ensures Contains(s, Strip(s, c))
  {
    var left := TrimLeft(s, c);
    var r := Strip(s, c);
    assert r == left[..|r|];
    assert s[|s| - |left|..][..|r|] == s[|s| - |left|..|s| - |left| + |r|];
    assert OccursAt(s, r, |s| - |left|);
  }

  function DigitChar(d: nat): (c: char)
    requires d < 10
  {
    "0123456789"[d]
  }

  function DigitValue(c: char): nat {
    if '0' <= c <= '9' then (c as int - '0' as int) as nat else 0
  }

  /** `str(n)` for a non-negative int: decimal digits, no sign, no leading zero. */
  function NatToString(n: nat): (s: string)
    ensures |s| >= 1 && forall k :: 0 <= k < |s| ==> '0' <= s[k] <= '9'
    ensures |s| > 1 ==> s[0] != '0'
    decreases n
  {
    if n < 10 then [DigitChar(n)] else NatToString(n / 10) + [DigitChar(n % 10)]
  }

  /** `int(s)` for a string of decimal digits. */
  function ParseNat(s: string): nat
    decreases |s|
  {
    if s == [] then 0 else 10 * ParseNat(s[..|s| - 1]) + DigitValue(s[|s| - 1])
  }

  lemma {:induction false} ParseNatToString(n: nat)
    ensures ParseNat(NatToString(n)) == n
    decreases n
  {
    var s := NatToString(n);
    if n < 10 {
      assert s[..|s| - 1] == [];
    } else {
      ParseNatToString(n / 10);
      assert s[..|s| - 1] == NatToString(n / 10);
    }
  }
}
