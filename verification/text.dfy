/** The Python string operations the core relies on, written out over
    `seq<char>`: `in` on strings, `lower()`, `strip()` and `strip(chars)`,
    `replace`, and the whitespace class shared by `str.strip()` and the
    regular-expression class `\s`. */
module Text {

  /** The characters for which Python's `str.isspace()` holds. */
  const Whitespace: set<char> := {
    ' ', '\t', '\n', '\r', '\U{b}', '\U{c}', '\U{1c}', '\U{1d}', '\U{1e}', '\U{1f}',
    '\U{85}', '\U{a0}', '\U{1680}', '\U{2000}', '\U{2001}', '\U{2002}', '\U{2003}',
    '\U{2004}', '\U{2005}', '\U{2006}', '\U{2007}', '\U{2008}', '\U{2009}', '\U{200a}',
    '\U{2028}', '\U{2029}', '\U{202f}', '\U{205f}', '\U{3000}'
  }

  /** Membership in `Whitespace`, written as ranges of code points. */
  predicate IsSpace(c: char) {
    c == ' ' || '\t' <= c <= '\r' || '\U{1c}' <= c <= '\U{1f}' || c == '\U{85}' || c == '\U{a0}' ||
    c == '\U{1680}' || '\U{2000}' <= c <= '\U{200a}' || c == '\U{2028}' || c == '\U{2029}' ||
    c == '\U{202f}' || c == '\U{205f}' || c == '\U{3000}'
  }

  lemma IsSpaceIsWhitespace(c: char)
    ensures IsSpace(c) <==> c in Whitespace
  {
  }

  /** `sub in s`: `sub` occurs as a contiguous piece of `s` (the empty string occurs everywhere). */
  predicate Contains(s: string, sub: string)
    decreases |s|
  {
    sub <= s || (s != [] && Contains(s[1..], sub))
  }

  lemma {:induction false} ContainsAt(s: string, sub: string, i: nat)
    requires i <= |s| && sub <= s[i..]
    ensures Contains(s, sub)
  {
    if i > 0 {
      assert s[1..][i - 1..] == s[i..];
      ContainsAt(s[1..], sub, i - 1);
    }
  }

  /** A non-empty `sub` whose first character never occurs in `s` does not occur in `s`. */
  lemma {:induction false} NotContainsWithoutFirstChar(s: string, sub: string)
    requires sub != [] && sub[0] !in s
    ensures !Contains(s, sub)
  {
    if s != [] {
      assert s[0] != sub[0];
      assert forall c :: c in s[1..] ==> c in s;
      NotContainsWithoutFirstChar(s[1..], sub);
    }
  }

  /** An occurrence of `sub` inside `a` is an occurrence inside `a + b`. */
  lemma {:induction false} ContainsInPrefix(a: string, b: string, sub: string)
    requires Contains(a, sub)
    ensures Contains(a + b, sub)
    decreases |a|
  {
    if !(sub <= a) {
      assert (a + b)[1..] == a[1..] + b;
      ContainsInPrefix(a[1..], b, sub);
    }
  }

  function LowerChar(c: char): char {
    if 'A' <= c <= 'Z' then (c as int + 32) as char else c
  }

  /** `s.lower()` on the ASCII letters. */
  function Lower(s: string): (r: string)
    ensures |r| == |s|
    ensures forall i :: 0 <= i < |s| ==> r[i] == LowerChar(s[i])
  {
    seq(|s|, i requires 0 <= i < |s| => LowerChar(s[i]))
  }

  /** `needle.lower() in hay.lower()`. */
  predicate ContainsIgnoreCase(hay: string, needle: string) {
    Contains(Lower(hay), Lower(needle))
  }

  /** `any(kw.lower() in text.lower() for kw in keywords)`, tried in order. */
  predicate AnyKeywordIn(keywords: seq<string>, text: string) {
    keywords != [] && (ContainsIgnoreCase(text, keywords[0]) || AnyKeywordIn(keywords[1..], text))
  }

  /** The ordered `any` holds exactly when some keyword occurs in the text, ignoring case. */
  lemma {:induction false} AnyKeywordInIsSome(keywords: seq<string>, text: string)
    ensures AnyKeywordIn(keywords, text) <==> exists k :: 0 <= k < |keywords| && ContainsIgnoreCase(text, keywords[k])
  {
    if keywords != [] {
      AnyKeywordInIsSome(keywords[1..], text);
      assert forall k :: 0 < k < |keywords| ==> keywords[k] == keywords[1..][k - 1];
      if exists k :: 0 <= k < |keywords| && ContainsIgnoreCase(text, keywords[k]) {
        var k :| 0 <= k < |keywords| && ContainsIgnoreCase(text, keywords[k]);
        if k > 0 {
          assert ContainsIgnoreCase(text, keywords[1..][k - 1]);
        }
      }
    }
  }

  /** Lower-casing twice is lower-casing once, so matching against lowered text is matching
      against the text, ignoring case. */
  lemma {:induction false} LowerKeepsMatches(keywords: seq<string>, text: string)
    ensures AnyKeywordIn(keywords, Lower(text)) <==> AnyKeywordIn(keywords, text)
  {
    assert Lower(Lower(text)) == Lower(text);
    if keywords != [] {
      LowerKeepsMatches(keywords[1..], text);
    }
  }

  /** Drops the leading characters that belong to `cs`. */
  function TrimStart(s: string, cs: set<char>): string
  {
    if s != [] && s[0] in cs then TrimStart(s[1..], cs) else s
  }

  /** What is left is a suffix that starts outside `cs`; everything dropped was in `cs`. */
  lemma {:induction false} TrimStartProperties(s: string, cs: set<char>)
    ensures var r := TrimStart(s, cs);
      |r| <= |s| && r == s[|s| - |r|..] && (r == [] || r[0] !in cs) &&
      (forall i :: 0 <= i < |s| - |r| ==> s[i] in cs)
  {
    if s != [] && s[0] in cs {
      TrimStartProperties(s[1..], cs);
      var r := TrimStart(s[1..], cs);
      assert s[1..][|s| - 1 - |r|..] == s[|s| - |r|..];
      assert forall i :: 1 <= i < |s| - |r| ==> s[i] == s[1..][i - 1];
    }
  }

  /** Drops the trailing characters that belong to `cs`. */
  function TrimEnd(s: string, cs: set<char>): string
  {
    if s != [] && s[|s| - 1] in cs then TrimEnd(s[..|s| - 1], cs) else s
  }

  /** What is left is a prefix that ends outside `cs`; everything dropped was in `cs`. */
  lemma {:induction false} TrimEndProperties(s: string, cs: set<char>)
    ensures var r := TrimEnd(s, cs);
      |r| <= |s| && r == s[..|r|] && (r == [] || r[|r| - 1] !in cs) &&
      (forall i :: |r| <= i < |s| ==> s[i] in cs)
  {
    if s != [] && s[|s| - 1] in cs {
      TrimEndProperties(s[..|s| - 1], cs);
      var r := TrimEnd(s[..|s| - 1], cs);
      assert s[..|s| - 1][..|r|] == s[..|r|];
      assert forall i :: |r| <= i < |s| - 1 ==> s[i] == s[..|s| - 1][i];
    }
  }

  /** `s.strip(chars)` where `cs` is the set of characters of `chars`. */
  function StripChars(s: string, cs: set<char>): string
  {
    TrimEnd(TrimStart(s, cs), cs)
  }

  /** Both ends lose every character of `cs` and the middle is kept: the result has no
      character of `cs` at either end, holds only characters of `s`, is `s` itself when
      neither end of `s` is in `cs`, and is empty when every character is. */
  lemma StripCharsProperties(s: string, cs: set<char>)
    ensures var r := StripChars(s, cs);
      (r == [] || (r[0] !in cs && r[|r| - 1] !in cs)) &&
      (forall i :: 0 <= i < |r| ==> r[i] in s) &&
      ((s == [] || (s[0] !in cs && s[|s| - 1] !in cs)) ==> r == s) &&
      ((forall i :: 0 <= i < |s| ==> s[i] in cs) ==> r == [])
  {
    var t := TrimStart(s, cs);
    TrimStartProperties(s, cs);
    TrimEndProperties(t, cs);
    var r := TrimEnd(t, cs);
    assert forall i :: 0 <= i < |r| ==> r[i] == s[|s| - |t| + i];
    if s == [] || (s[0] !in cs && s[|s| - 1] !in cs) {
      assert t == s;
    }
  }

  /** `s.strip()`. */
  function Strip(s: string): string
  {
    StripChars(s, Whitespace)
  }

  /** No whitespace is left at either end; nothing but whitespace is removed. */
  lemma StripProperties(s: string)
    ensures var r := Strip(s);
      (r == [] || (!IsSpace(r[0]) && !IsSpace(r[|r| - 1]))) &&
      (forall i :: 0 <= i < |r| ==> r[i] in s) &&
      ((s == [] || (!IsSpace(s[0]) && !IsSpace(s[|s| - 1]))) ==> r == s) &&
      ((forall i :: 0 <= i < |s| ==> IsSpace(s[i])) ==> r == [])
  {
    StripCharsProperties(s, Whitespace);
    forall c | true ensures IsSpace(c) <==> c in Whitespace {
      IsSpaceIsWhitespace(c);
    }
  }

  /** `s.replace(pat, rep)`: non-overlapping occurrences, scanned left to right. */
  function ReplaceAll(s: string, pat: string, rep: string): string
    requires pat != []
    decreases |s|
  {
    if |s| < |pat| then s
    else if s[..|pat|] == pat then rep + ReplaceAll(s[|pat|..], pat, rep)
    else [s[0]] + ReplaceAll(s[1..], pat, rep)
  }

  /** `s` with every occurrence of the character `c` left out. */
  function RemoveChar(s: string, c: char): (r: string)
    ensures c !in r
    ensures forall x :: x in r ==> x in s
    ensures c !in s ==> r == s
  {
    if s == [] then []
    else if s[0] == c then RemoveChar(s[1..], c)
    else [s[0]] + RemoveChar(s[1..], c)
  }

  lemma {:induction false} RemoveCharConcat(a: string, b: string, c: char)
    ensures RemoveChar(a + b, c) == RemoveChar(a, c) + RemoveChar(b, c)
  {
    if a == [] {
      assert a + b == b;
    } else {
      assert (a + b)[0] == a[0];
      assert (a + b)[1..] == a[1..] + b;
      RemoveCharConcat(a[1..], b, c);
    }
  }

  /** Replacing the one-character string `[c]` by nothing removes every `c`. */
  lemma {:induction false} ReplaceCharIsRemove(s: string, c: char)
    ensures ReplaceAll(s, [c], []) == RemoveChar(s, c)
  {
    if s != [] {
      ReplaceCharIsRemove(s[1..], c);
    }
  }

  /** Removing the pairs `cc` first changes nothing once every `c` is removed. */
  lemma {:induction false} ReplacePairThenRemove(s: string, c: char)
    ensures RemoveChar(ReplaceAll(s, [c, c], []), c) == RemoveChar(s, c)
    decreases |s|
  {
    if |s| >= 2 {
      if s[..2] == [c, c] {
        assert s[0] == c && s[1] == c;
        assert ReplaceAll(s, [c, c], []) == ReplaceAll(s[2..], [c, c], []);
        assert RemoveChar(s, c) == RemoveChar(s[1..], c);
        assert s[1..][1..] == s[2..];
        assert RemoveChar(s[1..], c) == RemoveChar(s[2..], c);
        ReplacePairThenRemove(s[2..], c);
      } else {
        var rest := ReplaceAll(s[1..], [c, c], []);
        assert ReplaceAll(s, [c, c], []) == [s[0]] + rest;
        RemoveCharConcat([s[0]], rest, c);
        ReplacePairThenRemove(s[1..], c);
      }
    }
  }

  /** The index of the first `c` in `s` (`s.index(c)`). */
  function IndexOf(s: string, c: char): (k: nat)
    requires c in s
    ensures k < |s| && s[k] == c && c !in s[..k]
  {
    if s[0] == c then 0
    else
      assert s == [s[0]] + s[1..];
      var k := 1 + IndexOf(s[1..], c);
      assert s[..k] == [s[0]] + s[1..][..k - 1];
      k
  }
}
