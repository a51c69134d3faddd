/**
  The string operations the routing core relies on: Python's `str.strip()`,
  `str.lower()`, substring membership (`needle in s`) and `sep.join(parts)`.
*/
module Text {

  /** Python's `str.isspace()` for one character. */
  predicate IsSpace(c: char) {
    || c == ' '
    || ('\t' <= c <= '\r')
    || ('\U{1c}' <= c <= '\U{1f}')
    || c == '\U{85}' || c == '\U{a0}' || c == '\U{1680}'
    || ('\U{2000}' <= c <= '\U{200a}')
    || c == '\U{2028}' || c == '\U{2029}' || c == '\U{202f}' || c == '\U{205f}' || c == '\U{3000}'
  }

  predicate AllSpace(s: string) {
    forall i | 0 <= i < |s| :: IsSpace(s[i])
  }

  /** No whitespace at either end: what `strip()` leaves behind. */
  predicate Trimmed(s: string) {
    s == [] || (!IsSpace(s[0]) && !IsSpace(s[|s| - 1]))
  }

  /** Drops the leading whitespace: the longest all-space prefix goes. */
  function TrimStart(s: string): (r: string)
    ensures |r| <= |s| && r == s[|s| - |r|..]
    ensures AllSpace(s[..|s| - |r|])
    ensures r == [] || !IsSpace(r[0])
  {
    if s != [] && IsSpace(s[0]) then
      var r := TrimStart(s[1..]);
      assert s[..|s| - |r|] == [s[0]] + s[1..][..|s| - 1 - |r|];
      r
    else s
  }

  /** Drops the trailing whitespace: the longest all-space suffix goes. */
  function TrimEnd(s: string): (r: string)
    ensures |r| <= |s| && r == s[..|r|]
    ensures AllSpace(s[|r|..])
    ensures r == [] || !IsSpace(r[|r| - 1])
  {
    if s != [] && IsSpace(s[|s| - 1]) then
      var r := TrimEnd(s[..|s| - 1]);
      assert s[|r|..] == s[..|s| - 1][|r|..] + [s[|s| - 1]];
      r
    else s
  }

  /** Python's `s.strip()`. */
  function Strip(s: string): (r: string)
    ensures Trimmed(r)
    ensures |r| <= |s|
  {
    TrimEnd(TrimStart(s))
  }

  /** Stripping removes exactly the whitespace padding around a trimmed text. */
  lemma {:induction false} StripPadding(pre: string, s: string, post: string)
    requires AllSpace(pre) && AllSpace(post) && Trimmed(s)
    ensures Strip(pre + s + post) == s
  {
    if s == [] {
      assert pre + s + post == pre + post;
      assert TrimStart(pre + post) == [];
    } else {
      assert pre + s + post == pre + (s + post);
      TrimStartPadding(pre, s + post);
      TrimEndPadding(s, post);
    }
  }

  lemma {:induction false} TrimStartPadding(pre: string, t: string)
    requires AllSpace(pre) && (t == [] || !IsSpace(t[0]))
    ensures TrimStart(pre + t) == t
  {
    if pre != [] {
      assert (pre + t)[1..] == pre[1..] + t;
      TrimStartPadding(pre[1..], t);
    } else {
      assert pre + t == t;
    }
  }

  lemma {:induction false} TrimEndPadding(s: string, post: string)
    requires AllSpace(post) && (s == [] || !IsSpace(s[|s| - 1]))
    ensures TrimEnd(s + post) == s
  {
    if post != [] {
      assert (s + post)[..|s + post| - 1] == s + post[..|post| - 1];
      TrimEndPadding(s, post[..|post| - 1]);
    } else {
      assert s + post == s;
    }
  }

  predicate IsUpper(c: char) {
    'A' <= c <= 'Z'
  }

  /** Python's `c.lower()`, restricted to ASCII letters. */
  function LowerChar(c: char): (r: char)
    ensures !IsUpper(r)
  {
    if IsUpper(c) then (c as int + 32) as char else c
  }

  /** Python's `s.lower()`, restricted to ASCII letters. */
  function Lower(s: string): (r: string)
    ensures |r| == |s|
    ensures forall i | 0 <= i < |s| :: r[i] == LowerChar(s[i])
  {
    if s == [] then [] else [LowerChar(s[0])] + Lower(s[1..])
  }

  predicate NoUpper(s: string) {
    forall i | 0 <= i < |s| :: !IsUpper(s[i])
  }

  /** Lower-casing leaves text without ASCII capitals alone. */
  lemma LowerOfLowerCase(s: string)
    requires NoUpper(s)
    ensures Lower(s) == s
  {
  }

  /** The text a classifier reply is compared with: `reply.strip().lower()`. */
  function Normalize(reply: string): string {
    Lower(Strip(reply))
  }

  /** A name already in normal form is recovered from any whitespace-padded,
      any-case reply that spells it. */
  lemma NormalizePaddedName(pre: string, reply: string, post: string, name: string)
    requires AllSpace(pre) && AllSpace(post) && Trimmed(reply)
    requires Lower(reply) == name
    ensures Normalize(pre + reply + post) == name
  {
    StripPadding(pre, reply, post);
  }

  /** Python's `prefix == s[:len(prefix)]`. */
  predicate StartsWith(s: string, prefix: string) {
    |prefix| <= |s| && s[..|prefix|] == prefix
  }

  /** Python's substring test `needle in s`. */
  predicate Contains(s: string, needle: string) {
    StartsWith(s, needle) || (s != [] && Contains(s[1..], needle))
  }

  /** An occurrence at a known offset makes `needle in s` true. */
  lemma {:induction false} ContainsAt(s: string, needle: string, i: nat)
    requires i + |needle| <= |s| && s[i..i + |needle|] == needle
    ensures Contains(s, needle)
  {
    if i > 0 {
      assert s[1..][i - 1..i - 1 + |needle|] == s[i..i + |needle|];
      ContainsAt(s[1..], needle, i - 1);
    }
  }

  /** Conversely, `needle in s` names an offset where `needle` occurs. */
  lemma {:induction false} ContainsOffset(s: string, needle: string) returns (i: nat)
    requires Contains(s, needle)
    ensures i + |needle| <= |s| && s[i..i + |needle|] == needle
  {
    if StartsWith(s, needle) {
      i := 0;
    } else {
      var j := ContainsOffset(s[1..], needle);
      assert s[1..][j..j + |needle|] == s[j + 1..j + 1 + |needle|];
      i := j + 1;
    }
  }

  /** Whatever occurs inside an occurring text occurs too. */
  lemma ContainsInfix(s: string, x: string, y: string, z: string)
    requires Contains(s, x + y + z)
    ensures Contains(s, y)
  {
    var w := x + y + z;
    var i := ContainsOffset(s, w);
    forall k | 0 <= k < |y|
      ensures s[i + |x| + k] == y[k]
    {
      assert s[i..i + |w|][|x| + k] == w[|x| + k];
    }
    assert s[i + |x|..i + |x| + |y|] == y;
    ContainsAt(s, y, i + |x|);
  }

  /** Lower-casing both sides keeps an occurrence. */
  lemma LowerKeepsContains(s: string, needle: string)
    requires Contains(s, needle)
    ensures Contains(Lower(s), Lower(needle))
  {
    var i := ContainsOffset(s, needle);
    assert Lower(s)[i..i + |needle|] == Lower(needle);
    ContainsAt(Lower(s), Lower(needle), i);
  }

  /** Text without ASCII capitals cannot contain text with one. */
  lemma NoUpperExcludesUpper(s: string, needle: string, k: nat)
    requires NoUpper(s) && k < |needle| && IsUpper(needle[k])
    ensures !Contains(s, needle)
  {
    if Contains(s, needle) {
      var i := ContainsOffset(s, needle);
    }
  }

  /** Python's `sep.join(parts)`. */
  function Join(sep: string, parts: seq<string>): string {
    if |parts| == 0 then ""
    else if |parts| == 1 then parts[0]
    else parts[0] + sep + Join(sep, parts[1..])
  }
}
