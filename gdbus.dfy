/** _parse_gdbus_string: the string inside a gdbus reply of the form ('...',),
    as the pattern \('(.*)'\s*,?\s*\)$ under DOTALL selects it with re.search. */
module Gdbus {
  import opened Wrappers
  import opened Text

  /** Python's `\s` on str patterns: the characters str.isspace accepts. */
  predicate IsSpace(c: char) {
    c == ' ' || ('\t' <= c <= '\r') || ('\U{1C}' <= c <= '\U{1F}') ||
    c == '\U{85}' || c == '\U{A0}' || c == '\U{1680}' || ('\U{2000}' <= c <= '\U{200A}') ||
    c == '\U{2028}' || c == '\U{2029}' || c == '\U{202F}' || c == '\U{205F}' || c == '\U{3000}'
  }

  /** `\s*` matches all of u. */
  predicate Blank(u: string) {
    forall k :: 0 <= k < |u| ==> IsSpace(u[k])
  }

  /** `\s*,?\s*` matches all of u. */
  predicate CommaSpacing(u: string) {
    Blank(u) || exists k :: 0 <= k < |u| && u[k] == ',' && Blank(u[..k]) && Blank(u[k + 1..])
  }

  /** `\s*,?\s*\)$` matches all of t; `$` also matches just before a final newline. */
  predicate ClosesTuple(t: string) {
    (|t| >= 1 && t[|t| - 1] == ')' && CommaSpacing(t[..|t| - 1])) ||
    (|t| >= 2 && t[|t| - 2] == ')' && t[|t| - 1] == '\n' && CommaSpacing(t[..|t| - 2]))
  }

  /** The closing quote of the pattern can sit at j. */
  predicate ClosesAt(s: string, j: int) {
    0 <= j < |s| && s[j] == '\'' && ClosesTuple(s[j + 1..])
  }

  /** The pattern matches starting at i with its group being s[i + 2..j]. */
  predicate IsMatch(s: string, i: int, j: int) {
    0 <= i && i + 2 <= j && OccursAt(s, "('", i) && ClosesAt(s, j)
  }

  /** The last closing quote below n. */
  function LastCloseBelow(s: string, n: nat): (r: Option<nat>)
    requires n <= |s|
    ensures r.Some? ==> r.value < n && ClosesAt(s, r.value)
    ensures r.Some? ==> forall j :: r.value < j < n ==> !ClosesAt(s, j)
    ensures r.None? ==> forall j :: 0 <= j < n ==> !ClosesAt(s, j)
  {
    if n == 0 then None
    else if ClosesAt(s, n - 1) then Some(n - 1)
    else LastCloseBelow(s, n - 1)
  }

  /** The first opening `('` at or after i that leaves room for a group ending at `close`. */
  function FirstOpenFrom(s: string, i: nat, close: nat): (r: Option<nat>)
    decreases close - i
    ensures r.Some? ==> i <= r.value && r.value + 2 <= close && OccursAt(s, "('", r.value)
    ensures r.Some? ==> forall k :: i <= k < r.value ==> !OccursAt(s, "('", k)
    ensures r.None? ==> forall k :: i <= k && k + 2 <= close ==> !OccursAt(s, "('", k)
  {
    if i + 2 > close then None
    else if OccursAt(s, "('", i) then Some(i)
    else FirstOpenFrom(s, i + 1, close)
  }

  /** What re.search finds: the leftmost start, and for it the longest group
      (the greedy `.*` backtracks from the end). The pair is (start, end of group). */
  function GdbusMatch(s: string): (r: Option<(nat, nat)>)
    ensures r.Some? ==> IsMatch(s, r.value.0, r.value.1)
    ensures r.Some? ==> forall i, j :: 0 <= i < r.value.0 ==> !IsMatch(s, i, j)
    ensures r.Some? ==> forall j :: r.value.1 < j ==> !IsMatch(s, r.value.0, j)
    ensures r.None? <==> forall i, j :: !IsMatch(s, i, j)
  {
    match LastCloseBelow(s, |s|)
    case None => None
    case Some(close) =>
      match FirstOpenFrom(s, 0, close)
      case None => None
      case Some(open) =>
        assert IsMatch(s, open, close);
        Some((open, close))
  }

  /** _parse_gdbus_string as written: the matched group, or the output
      unchanged when the pattern does not match. Its three replace calls each
      replace a string by itself, so they leave the group as it is. */
  function ParseGdbusString(output: string): (r: string)
    ensures GdbusMatch(output).None? ==> r == output
    ensures GdbusMatch(output).Some? ==> r == output[GdbusMatch(output).value.0 + 2..GdbusMatch(output).value.1]
  {
    match GdbusMatch(output)
    case None => output
    case Some((open, close)) => output[open + 2..close]
  }

  /** The group of a one-element reply is its payload, whatever quotes,
      commas or brackets the payload holds, with or without a final newline. */
  lemma {:induction false} ParseReply(p: string, newline: bool)
    ensures ParseGdbusString("('" + p + "',)" + (if newline then "\n" else "")) == p
  {
    var s := "('" + p + "',)" + (if newline then "\n" else "");
    var close := |p| + 2;
    var t := s[close + 1..];
    assert t == ",)" + (if newline then "\n" else "");
    var u := t[..|t| - (if newline then 2 else 1)];
    assert u == ",";
    assert Blank(u[..0]) && Blank(u[1..]);
    assert ClosesAt(s, close);
    assert forall j :: close < j < |s| ==> s[j] != '\'';
    assert OccursAt(s, "('", 0);
    assert s[2..close] == p;
  }

  /** An output that does not end in `)` (or `)` and a newline) is returned as it is. */
  lemma NotATuple(output: string)
    requires output == [] || (output[|output| - 1] != ')' &&
      (|output| < 2 || output[|output| - 1] != '\n' || output[|output| - 2] != ')'))
    ensures ParseGdbusString(output) == output
  {
  }

  /** The result is the output or a part of it. */
  lemma ParsedIsInfix(output: string)
    ensures Contains(output, ParseGdbusString(output))
  {
    match GdbusMatch(output)
    case None =>
      assert OccursAt(output, output, 0);
    case Some((open, close)) =>
      assert OccursAt(output, output[open + 2..close], open + 2);
  }

  /** The escaping assumed for the text form of a reply: a backslash, a quote
      and a newline each become a backslash and a letter. The source does not
      fix this format; it is the one its comments describe. */
  function EscapeChar(c: char): (e: string)
    ensures |e| == 1 <==> c !in {'\\', '\'', '\n'}
  {
    if c == '\\' then "\\\\" else if c == '\'' then "\\'" else if c == '\n' then "\\n" else [c]
  }

  /** A string as it appears between the quotes of a reply. */
  function Escape(p: string): (e: string)
    ensures forall k :: 0 <= k < |e| ==> e[k] != '\n'
  {
    if p == [] then [] else EscapeChar(p[0]) + Escape(p[1..])
  }

  /** The unescaping the harness means to apply: `\'` to a quote, `\n` to a
      newline, `\\` to a backslash; any other character is kept. */
  function Unescape(e: string): (p: string)
    ensures (forall k :: 0 <= k < |e| ==> e[k] != '\\') ==> p == e
  {
    if e == [] then []
    else if |e| >= 2 && e[0] == '\\' && e[1] in {'\\', '\'', 'n'} then
      [if e[1] == 'n' then '\n' else e[1]] + Unescape(e[2..])
    else [e[0]] + Unescape(e[1..])
  }

  lemma UnescapeChar(c: char, rest: string)
    ensures Unescape(EscapeChar(c) + rest) == [c] + Unescape(rest)
  {
    var e := EscapeChar(c) + rest;
    if |EscapeChar(c)| == 2 {
      assert e[2..] == rest;
    } else {
      assert e[1..] == rest;
    }
  }

  /** Unescaping undoes escaping. */
  lemma {:induction false} UnescapeEscape(p: string)
    ensures Unescape(Escape(p)) == p
  {
    if p != [] {
      UnescapeChar(p[0], Escape(p[1..]));
      UnescapeEscape(p[1..]);
    }
  }

  /** The parse with the unescaping applied to the group. */
  function ParseGdbusStringUnescaped(output: string): (r: string)
    ensures GdbusMatch(output).None? ==> r == output
    ensures GdbusMatch(output).Some? ==> r == Unescape(ParseGdbusString(output))
  {
    match GdbusMatch(output)
    case None => output
    case Some((open, close)) => Unescape(output[open + 2..close])
  }

  /** With the unescaping, a reply carrying any string gives that string back. */
  lemma UnescapedReply(p: string)
    ensures ParseGdbusStringUnescaped("('" + Escape(p) + "',)") == p
  {
    var e := Escape(p);
    ParseReply(e, false);
    assert "('" + e + "',)" + "" == "('" + e + "',)";
    UnescapeEscape(p);
  }

  /** As written, a reply carrying a newline keeps its escape: the text form
      a\nb (backslash, n) comes back with the backslash, not as a newline. */
  lemma EscapedNewlineKept()
    ensures ParseGdbusString("('" + Escape("a\nb") + "',)") == "a\\nb"
    ensures ParseGdbusStringUnescaped("('" + Escape("a\nb") + "',)") == "a\nb"
  {
    assert Escape("a\nb") == "a\\nb" by {
      assert "a\nb"[1..] == "\nb" && "\nb"[1..] == "b" && "b"[1..] == "";
    }
    ParseReply("a\\nb", false);
    UnescapedReply("a\nb");
  }
}
