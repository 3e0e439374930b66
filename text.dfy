/** The string operations the weather service relies on, restricted to ASCII:
    `toLowerCase`, `trim`, the `\s` class, `includes` and the decimal
    rendering of integers. */
module Text {

  /** The ASCII members of JavaScript's `\s` class (and of what `trim` removes). */
  predicate IsSpace(c: char) {
    c == ' ' || c == '\t' || c == '\n' || c == '\U{000B}' || c == '\U{000C}' || c == '\r'
  }

  predicate AllSpaces(s: string) {
    forall i :: 0 <= i < |s| ==> IsSpace(s[i])
  }

  function LowerChar(c: char): char {
    if 'A' <= c <= 'Z' then (c as int + 32) as char else c
  }

  /** `String.prototype.toLowerCase` on ASCII. */
  function Lower(s: string): string {
    seq(|s|, i requires 0 <= i < |s| => LowerChar(s[i]))
  }

  predicate IsLowerCase(s: string) {
    forall i :: 0 <= i < |s| ==> !('A' <= s[i] <= 'Z')
  }

  /** Drops the leading whitespace: what is left is a suffix of `s` that does
      not start with a space, and everything dropped was a space. */
  function TrimStart(s: string): (r: string)
    ensures |r| <= |s| && r == s[|s| - |r|..]
    ensures r == [] || !IsSpace(r[0])
    ensures AllSpaces(s[..|s| - |r|])
  {
    if s != [] && IsSpace(s[0]) then TrimStart(s[1..]) else s
  }

  /** Drops the trailing whitespace: what is left is a prefix of `s` that does
      not end with a space, and everything dropped was a space. */
  function TrimEnd(s: string): (r: string)
    ensures |r| <= |s| && r == s[..|r|]
    ensures r == [] || !IsSpace(r[|r| - 1])
    ensures AllSpaces(s[|r|..])
  {
    if s != [] && IsSpace(s[|s| - 1]) then TrimEnd(s[..|s| - 1]) else s
  }

  /** `String.prototype.trim`. */
  function Trim(s: string): string {
    TrimEnd(TrimStart(s))
  }

  /** `s.replace(/\s+/g, '-')`: every maximal run of whitespace becomes one dash. */
  function CollapseSpaces(s: string): string
    decreases |s|
  {
    if s == [] then []
    else if IsSpace(s[0]) then ['-'] + CollapseSpaces(TrimStart(s))
    else [s[0]] + CollapseSpaces(s[1..])
  }

  predicate IsSlugChar(c: char) {
    ('a' <= c <= 'z') || ('0' <= c <= '9') || c == '-'
  }

  /** `s.replace(/[^a-z0-9-]/g, '')`. */
  function KeepSlugChars(s: string): string {
    if s == [] then []
    else if IsSlugChar(s[0]) then [s[0]] + KeepSlugChars(s[1..])
    else KeepSlugChars(s[1..])
  }

  /** The fallback key of the location normaliser. */
  function Slug(s: string): string {
    KeepSlugChars(CollapseSpaces(s))
  }

  predicate IsPrefix(p: string, s: string) {
    |p| <= |s| && s[..|p|] == p
  }

  /** `hay.includes(needle)`. */
  predicate Contains(hay: string, needle: string) {
    IsPrefix(needle, hay) || (hay != [] && Contains(hay[1..], needle))
  }

  function DigitChar(d: nat): (c: char)
    requires d < 10
    ensures '0' <= c <= '9' && c as int - '0' as int == d
  {
    ('0' as int + d) as char
  }

  function NatToString(n: nat): string
    decreases n
  {
    if n < 10 then [DigitChar(n)] else NatToString(n / 10) + [DigitChar(n % 10)]
  }

  /** `String(n)` for an integer. */
  function IntToString(n: int): string {
    if n < 0 then "-" + NatToString(-n) else NatToString(n)
  }

  // ---------------------------------------------------------------------
  // Properties

  lemma LowerLength(s: string)
    ensures |Lower(s)| == |s|
  {
  }

  lemma LowerIsLowerCase(s: string)
    ensures IsLowerCase(Lower(s))
  {
  }

  lemma LowerIdempotent(s: string)
    ensures Lower(Lower(s)) == Lower(s)
  {
  }

  lemma LowerOfLowerCase(s: string)
    requires IsLowerCase(s)
    ensures Lower(s) == s
  {
  }

  lemma LowerConcat(a: string, b: string)
    ensures Lower(a + b) == Lower(a) + Lower(b)
  {
  }

  lemma LowerKeepsSpaces(s: string)
    requires AllSpaces(s)
    ensures Lower(s) == s
  {
  }

  /** Whitespace before `s` makes no difference to `TrimStart`. */
  lemma {:induction false} TrimStartSkipsSpaces(w: string, s: string)
    requires AllSpaces(w)
    ensures TrimStart(w + s) == TrimStart(s)
  {
    if w == [] {
      assert w + s == s;
    } else {
      assert (w + s)[0] == w[0];
      assert (w + s)[1..] == w[1..] + s;
      TrimStartSkipsSpaces(w[1..], s);
    }
  }

  /** Whitespace after `s` makes no difference to `TrimEnd`. */
  lemma {:induction false} TrimEndSkipsSpaces(s: string, w: string)
    requires AllSpaces(w)
    ensures TrimEnd(s + w) == TrimEnd(s)
  {
    if w == [] {
      assert s + w == s;
    } else {
      var w' := w[..|w| - 1];
      assert (s + w)[|s + w| - 1] == w[|w| - 1];
      assert (s + w)[..|s + w| - 1] == s + w';
      TrimEndSkipsSpaces(s, w');
    }
  }

  /** Trailing whitespace passes through `TrimStart` unless it eats everything. */
  lemma {:induction false} TrimStartThenSpaces(s: string, w: string)
    requires AllSpaces(w)
    ensures TrimStart(s + w) == if TrimStart(s) == [] then [] else TrimStart(s) + w
  {
    if s == [] {
      assert s + w == w;
      TrimStartSkipsSpaces(w, []);
      assert w + [] == w;
    } else if IsSpace(s[0]) {
      assert (s + w)[0] == s[0];
      assert (s + w)[1..] == s[1..] + w;
      TrimStartThenSpaces(s[1..], w);
    } else {
      assert (s + w)[0] == s[0];
    }
  }

  /** `trim` ignores surrounding whitespace. */
  lemma TrimIgnoresSurroundingSpaces(w1: string, s: string, w2: string)
    requires AllSpaces(w1) && AllSpaces(w2)
    ensures Trim(w1 + s + w2) == Trim(s)
  {
    assert w1 + s + w2 == w1 + (s + w2);
    TrimStartSkipsSpaces(w1, s + w2);
    TrimStartThenSpaces(s, w2);
    if TrimStart(s) != [] {
      TrimEndSkipsSpaces(TrimStart(s), w2);
    }
  }

  lemma TrimStartIdempotent(s: string)
    ensures TrimStart(TrimStart(s)) == TrimStart(s)
  {
  }

  lemma TrimEndIdempotent(s: string)
    ensures TrimEnd(TrimEnd(s)) == TrimEnd(s)
  {
  }

  /** A string with no leading whitespace keeps none after `TrimEnd`. */
  lemma TrimEndKeepsStart(s: string)
    requires s == [] || !IsSpace(s[0])
    ensures TrimStart(TrimEnd(s)) == TrimEnd(s)
  {
  }

  lemma TrimIdempotent(s: string)
    ensures Trim(Trim(s)) == Trim(s)
  {
    TrimEndKeepsStart(TrimStart(s));
    TrimEndIdempotent(TrimStart(s));
  }

  /** Lower-casing maps spaces to spaces and other characters to other
      characters, so it commutes with trimming. */
  lemma {:induction false} LowerTrimStart(s: string)
    ensures Lower(TrimStart(s)) == TrimStart(Lower(s))
  {
    if s != [] {
      var l := Lower(s);
      assert l[0] == LowerChar(s[0]);
      assert IsSpace(l[0]) <==> IsSpace(s[0]);
      assert l[1..] == Lower(s[1..]);
      if IsSpace(s[0]) {
        LowerTrimStart(s[1..]);
        assert TrimStart(l) == TrimStart(l[1..]);
      } else {
        assert TrimStart(l) == l;
      }
    }
  }

  lemma {:induction false} LowerTrimEnd(s: string)
    ensures Lower(TrimEnd(s)) == TrimEnd(Lower(s))
  {
    if s != [] {
      assert Lower(s)[|s| - 1] == LowerChar(s[|s| - 1]);
      assert Lower(s)[..|s| - 1] == Lower(s[..|s| - 1]);
      if IsSpace(s[|s| - 1]) {
        LowerTrimEnd(s[..|s| - 1]);
      }
    }
  }

  lemma LowerTrim(s: string)
    ensures Lower(Trim(s)) == Trim(Lower(s))
  {
    LowerTrimStart(s);
    LowerTrimEnd(TrimStart(s));
  }

  /** Every character left by the slug filter is in `[a-z0-9-]`. */
  lemma {:induction false} KeepSlugCharsOnlySlugChars(s: string)
    ensures forall i :: 0 <= i < |KeepSlugChars(s)| ==> IsSlugChar(KeepSlugChars(s)[i])
  {
    if s != [] {
      KeepSlugCharsOnlySlugChars(s[1..]);
    }
  }

  lemma SlugOnlySlugChars(s: string)
    ensures forall i :: 0 <= i < |Slug(s)| ==> IsSlugChar(Slug(s)[i])
  {
    KeepSlugCharsOnlySlugChars(CollapseSpaces(s));
  }

  /** A string made of slug characters is its own slug. */
  lemma {:induction false} SlugOfSlugChars(s: string)
    requires forall i :: 0 <= i < |s| ==> IsSlugChar(s[i])
    ensures Slug(s) == s
  {
    if s != [] {
      assert !IsSpace(s[0]);
      SlugOfSlugChars(s[1..]);
    }
  }

  /** A lower-case string without surrounding spaces is its own
      lower-cased, trimmed form. */
  lemma TrimLowerOfPlain(s: string)
    requires IsLowerCase(s) && s != [] && !IsSpace(s[0]) && !IsSpace(s[|s| - 1])
    ensures Trim(Lower(s)) == s
  {
    LowerOfLowerCase(s);
    TrimUnspaced(s);
  }

  /** Whitespace collapsing leaves a string without spaces alone. */
  lemma {:induction false} CollapseUnspaced(s: string)
    requires forall i :: 0 <= i < |s| ==> !IsSpace(s[i])
    ensures CollapseSpaces(s) == s
    decreases |s|
  {
    if s != [] {
      CollapseUnspaced(s[1..]);
    }
  }

  /** The slug filter works character by character. */
  lemma {:induction false} KeepSlugCharsConcat(a: string, b: string)
    ensures KeepSlugChars(a + b) == KeepSlugChars(a) + KeepSlugChars(b)
    decreases |a|
  {
    if a == [] {
      assert a + b == b;
    } else {
      assert (a + b)[1..] == a[1..] + b;
      KeepSlugCharsConcat(a[1..], b);
    }
  }

  /** A trailing character that is neither a space nor a slug character is
      dropped from the slug. */
  lemma SlugDropsTrailing(s: string, c: char)
    requires forall i :: 0 <= i < |s| ==> IsSlugChar(s[i])
    requires !IsSpace(c) && !IsSlugChar(c)
    ensures Slug(s + [c]) == s
  {
    forall i | 0 <= i < |s + [c]|
      ensures !IsSpace((s + [c])[i])
    {
      if i < |s| {
        assert IsSlugChar(s[i]);
      }
    }
    CollapseUnspaced(s + [c]);
    KeepSlugCharsConcat(s, [c]);
    CollapseUnspaced(s);
    SlugOfSlugChars(s);
  }

  /** Every string contains the empty string. */
  lemma ContainsEmpty(s: string)
    ensures Contains(s, [])
  {
  }

  /** A string contains only strings that are no longer than itself. */
  lemma {:induction false} ContainsShorter(hay: string, needle: string)
    requires Contains(hay, needle)
    ensures |needle| <= |hay|
  {
    if !IsPrefix(needle, hay) {
      ContainsShorter(hay[1..], needle);
    }
  }

  /** `needle` occurs in `hay` starting at position `k`. */
  predicate WindowAt(hay: string, needle: string, k: int) {
    0 <= k && k + |needle| <= |hay| && hay[k..k + |needle|] == needle
  }

  /** `includes` is the existence of a matching window. */
  lemma ContainsWindow(hay: string, needle: string)
    ensures Contains(hay, needle) <==> exists k :: WindowAt(hay, needle, k)
  {
    if Contains(hay, needle) {
      var k := WindowOfContains(hay, needle);
    }
    if exists k :: WindowAt(hay, needle, k) {
      var k :| WindowAt(hay, needle, k);
      ContainsOfWindow(hay, needle, k);
    }
  }

  lemma {:induction false} WindowOfContains(hay: string, needle: string) returns (k: int)
    requires Contains(hay, needle)
    ensures WindowAt(hay, needle, k)
  {
    if IsPrefix(needle, hay) {
      k := 0;
    } else {
      var j := WindowOfContains(hay[1..], needle);
      assert hay[1..][j..j + |needle|] == hay[j + 1..j + 1 + |needle|];
      k := j + 1;
    }
  }

  lemma {:induction false} ContainsOfWindow(hay: string, needle: string, k: int)
    requires WindowAt(hay, needle, k)
    ensures Contains(hay, needle)
    decreases k
  {
    if k > 0 {
      assert hay[1..][k - 1..k - 1 + |needle|] == hay[k..k + |needle|];
      ContainsOfWindow(hay[1..], needle, k - 1);
    }
  }

  /** A string contains only strings whose first character it holds. */
  lemma {:induction false} ContainsFirstChar(hay: string, needle: string)
    requires Contains(hay, needle) && needle != []
    ensures needle[0] in hay
  {
    if IsPrefix(needle, hay) {
      assert hay[0] == needle[0];
    } else {
      ContainsFirstChar(hay[1..], needle);
      var k :| 0 <= k < |hay[1..]| && hay[1..][k] == needle[0];
      assert hay[k + 1] == needle[0];
    }
  }

  /** The two ways a string can fail to contain another. */
  lemma NotContained(hay: string, needle: string)
    requires |needle| > |hay| || (needle != [] && needle[0] !in hay)
    ensures !Contains(hay, needle)
  {
    if Contains(hay, needle) {
      ContainsShorter(hay, needle);
      ContainsFirstChar(hay, needle);
    }
  }

  /** Every string contains itself. */
  lemma ContainsSelf(s: string)
    ensures Contains(s, s)
  {
  }

  /** A string that neither starts nor ends with a space is its own trim. */
  lemma TrimUnspaced(s: string)
    requires s != [] && !IsSpace(s[0]) && !IsSpace(s[|s| - 1])
    ensures Trim(s) == s
  {
    assert TrimStart(s) == s;
  }

  /** Trimming a text padded with one space on each side gives the text. */
  lemma TrimPadded(p: string)
    requires |p| >= 3 && p[0] == ' ' && p[|p| - 1] == ' '
    requires !IsSpace(p[1]) && !IsSpace(p[|p| - 2])
    ensures Trim(p) == p[1..|p| - 1]
  {
    var tail := p[1..];
    assert TrimStart(p) == TrimStart(tail);
    assert TrimStart(tail) == tail;
    assert tail[..|tail| - 1] == p[1..|p| - 1];
    assert TrimEnd(tail) == TrimEnd(p[1..|p| - 1]);
    TrimEndUnspaced(p[1..|p| - 1]);
  }

  lemma TrimEndUnspaced(s: string)
    requires s != [] && !IsSpace(s[|s| - 1])
    ensures TrimEnd(s) == s
  {
  }
}
