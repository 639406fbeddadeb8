/**
 * String operations that the bot applies to user text and stored hints:
 * substring tests (`w in s`), occurrence counts (`re.findall` on fixed
 * words), `str.lower()` as far as ASCII keywords can observe it, and
 * `" ".join(...)`.
 */
module Strings {

  /** `w` occurs at the start of `s`. */
  predicate IsPrefix(w: string, s: string) {
    |w| <= |s| && s[..|w|] == w
  }

  /** Python's `w in s` on strings: `w` occurs at some index of `s`. */
  predicate Contains(s: string, w: string) {
    exists i :: 0 <= i <= |s| && IsPrefix(w, s[i..])
  }

  /** An occurrence at any index is found by `Contains`. */
  lemma ContainsAt(s: string, w: string, i: nat)
    requires i + |w| <= |s| && s[i..i + |w|] == w
    ensures Contains(s, w)
  {
    assert s[i..][..|w|] == s[i..i + |w|];
    assert IsPrefix(w, s[i..]);
  }

  /** Every text contains itself. */
  lemma ContainsSelf(w: string)
    ensures Contains(w, w)
  {
    ContainsAt(w, w, 0);
  }

  /** `Contains` finds nothing but real occurrences. */
  lemma ContainsWitness(s: string, w: string) returns (i: nat)
    requires Contains(s, w)
    ensures i + |w| <= |s| && s[i..i + |w|] == w
  {
    var j :| 0 <= j <= |s| && IsPrefix(w, s[j..]);
    assert s[j..][..|w|] == s[j..j + |w|];
    i := j;
  }

  /** A word longer than the text never occurs in it. */
  lemma ContainsTooLong(s: string, w: string)
    requires |w| > |s|
    ensures !Contains(s, w)
  {
  }

  /** A word with a character the text lacks never occurs in it. */
  lemma ContainsNeedsChar(s: string, w: string, i: nat)
    requires i < |w| && w[i] !in s
    ensures !Contains(s, w)
  {
    forall j | 0 <= j <= |s|
      ensures !IsPrefix(w, s[j..])
    {
      if j + |w| <= |s| {
        assert s[j..][i] == s[j + i];
        assert s[j + i] in s;
      }
    }
  }

  /** An occurrence in either part is an occurrence in the concatenation. */
  lemma ContainsConcat(a: string, b: string, w: string)
    ensures Contains(a, w) ==> Contains(a + b, w)
    ensures Contains(b, w) ==> Contains(a + b, w)
  {
    if Contains(a, w) {
      var i := ContainsWitness(a, w);
      assert (a + b)[i..i + |w|] == a[i..i + |w|];
      ContainsAt(a + b, w, i);
    }
    if Contains(b, w) {
      var i := ContainsWitness(b, w);
      assert (a + b)[|a| + i..|a| + i + |w|] == b[i..i + |w|];
      ContainsAt(a + b, w, |a| + i);
    }
  }

  /** A word occurring in a part of `s` occurs in `s`. */
  lemma ContainsInfix(s: string, lo: nat, hi: nat, w: string)
    requires lo <= hi <= |s| && Contains(s[lo..hi], w)
    ensures Contains(s, w)
  {
    assert s == s[..lo] + s[lo..hi] + s[hi..];
    ContainsConcat(s[..lo], s[lo..hi], w);
    ContainsConcat(s[..lo] + s[lo..hi], s[hi..], w);
  }

  /** A text that holds `w` also holds every infix of `w`. */
  lemma ContainsInside(s: string, w: string, lo: nat, hi: nat)
    requires lo <= hi <= |w| && Contains(s, w)
    ensures Contains(s, w[lo..hi])
  {
    var i := ContainsWitness(s, w);
    var v := s[i..i + |w|];
    forall k | 0 <= k < hi - lo
      ensures s[i + lo..i + hi][k] == w[lo..hi][k]
    {
      assert s[i + lo + k] == v[lo + k];
    }
    ContainsAt(s, w[lo..hi], i + lo);
  }

  /** A text that holds `a + w + b` holds `w`. */
  lemma ContainsMiddle(s: string, a: string, w: string, b: string)
    requires Contains(s, a + w + b)
    ensures Contains(s, w)
  {
    ContainsInside(s, a + w + b, |a|, |a| + |w|);
    assert (a + w + b)[|a|..|a| + |w|] == w;
  }

  /** Index of the first `c` in `s`, or `|s|` when there is none. */
  function Find(s: string, c: char): (k: nat)
    ensures k <= |s|
    ensures k < |s| ==> s[k] == c
    ensures forall j :: 0 <= j < k ==> s[j] != c
    ensures k == |s| <==> c !in s
    decreases |s|
  {
    if s == [] then 0
    else if s[0] == c then 0
    else 1 + Find(s[1..], c)
  }

  /** Number of positions at which `w` occurs in `s` (overlaps included). */
  function Count(w: string, s: string): nat
    decreases |s|
  {
    if |w| == 0 || |s| < |w| then 0
    else (if s[..|w|] == w then 1 else 0) + Count(w, s[1..])
  }

  /**
   * A fixed HTML tag: `<`, then no further `<` and no `>`, then a final
   * `>`. Occurrences of such a word can never overlap, so `Count` agrees
   * with `len(re.findall(w, s))`.
   */
  predicate IsTagWord(w: string) {
    |w| >= 2 && w[0] == '<' && w[|w| - 1] == '>' &&
    (forall k :: 1 <= k < |w| ==> w[k] != '<') &&
    (forall k :: 0 <= k < |w| - 1 ==> w[k] != '>')
  }

  /** Python's `re.findall` count: scanning resumes after each match. */
  function FindAllCount(w: string, s: string): nat
    decreases |s|
  {
    if |w| == 0 || |s| < |w| then 0
    else if s[..|w|] == w then 1 + FindAllCount(w, s[|w|..])
    else FindAllCount(w, s[1..])
  }

  /** For a tag word, counting every position equals `re.findall`'s count. */
  lemma {:induction false} FindAllIsCount(w: string, s: string)
    requires IsTagWord(w)
    ensures FindAllCount(w, s) == Count(w, s)
    decreases |s|
  {
    if |s| >= |w| {
      if s[..|w|] == w {
        FindAllIsCount(w, s[|w|..]);
        CountSkip(w, s, |w|);
      } else {
        FindAllIsCount(w, s[1..]);
      }
    }
  }

  /** After an occurrence of a tag word, the next `|w| - 1` positions hold none. */
  lemma {:induction false} CountSkip(w: string, s: string, k: nat)
    requires IsTagWord(w) && |w| <= |s| && s[..|w|] == w && 1 <= k <= |w|
    ensures Count(w, s[1..]) == Count(w, s[k..])
    decreases k
  {
    if k > 1 {
      CountSkip(w, s, k - 1);
      var t := s[k - 1..];
      assert t[0] == w[k - 1] != '<';
      assert t[1..] == s[k..];
      if |t| >= |w| {
        assert t[..|w|][0] != w[0];
      }
    }
  }

  /** No occurrence of a word starting with `<` lies in a text without `<`. */
  lemma {:induction false} CountAbsent(w: string, s: string)
    requires |w| > 0 && w[0] !in s
    ensures Count(w, s) == 0
    decreases |s|
  {
    if |s| >= |w| {
      assert s[0] != w[0];
      CountAbsent(w, s[1..]);
    }
  }

  /**
   * Counting splits over a concatenation when no occurrence can straddle
   * the seam: the first character after it cannot continue a match, or the
   * last character before it cannot start a proper prefix of one.
   */
  lemma {:induction false} CountSplit(w: string, a: string, b: string)
    requires |w| > 0
    requires a == [] || b == [] || b[0] !in w[1..] || a[|a| - 1] !in w[..|w| - 1]
    ensures Count(w, a + b) == Count(w, a) + Count(w, b)
    decreases |a|
  {
    if a != [] {
      assert (a + b)[1..] == a[1..] + b;
      CountSplit(w, a[1..], b);
      if |a| < |w| && |a + b| >= |w| {
        if b[0] !in w[1..] {
          assert w[1..][|a| - 1] == w[|a|];
          assert (a + b)[..|w|][|a|] != w[|a|];
        } else {
          assert w[..|w| - 1][|a| - 1] == w[|a| - 1];
          assert (a + b)[..|w|][|a| - 1] != w[|a| - 1];
        }
      }
      if |a| >= |w| {
        assert (a + b)[..|w|] == a[..|w|];
      }
    } else {
      assert a + b == b;
    }
  }

  /** Occurrences of a word starting with `<` never begin in a `<`-free prefix. */
  lemma {:induction false} CountSkipPlain(w: string, a: string, b: string)
    requires |w| > 0 && w[0] == '<' && '<' !in a
    ensures Count(w, a + b) == Count(w, b)
    decreases |a|
  {
    if a != [] {
      assert (a + b)[1..] == a[1..] + b;
      CountSkipPlain(w, a[1..], b);
      if |a + b| >= |w| {
        assert (a + b)[..|w|][0] == a[0] != w[0];
      }
    } else {
      assert a + b == b;
    }
  }

  /** Dropping a prefix never adds occurrences. */
  lemma {:induction false} CountSuffix(w: string, s: string, k: nat)
    requires k <= |s|
    ensures Count(w, s[k..]) <= Count(w, s)
    decreases k
  {
    if k > 0 {
      CountSuffix(w, s[1..], k - 1);
      assert s[1..][k - 1..] == s[k..];
    }
  }

  /** `n` copies of `w` (Python's `w * n`). */
  function Repeat(w: string, n: nat): (r: string)
    ensures |r| == n * |w|
  {
    if n == 0 then [] else w + Repeat(w, n - 1)
  }

  /** Copies of a tag word hold exactly `n` occurrences of it and none of any other tag word. */
  lemma {:induction false} CountRepeat(w: string, v: string, n: nat)
    requires IsTagWord(w) && IsTagWord(v)
    ensures Count(w, Repeat(v, n)) == if w == v then n else 0
  {
    if n > 0 {
      CountSplit(w, v, Repeat(v, n - 1));
      CountRepeat(w, v, n - 1);
      CountTagInTag(w, v);
    }
  }

  /** One tag word occurs in another only when the two are equal. */
  lemma CountTagInTag(w: string, v: string)
    requires IsTagWord(w) && IsTagWord(v)
    ensures Count(w, v) == if w == v then 1 else 0
  {
    CountAbsent(w, v[1..]);
    if |v| >= |w| && v[..|w|] == w {
      assert v[|w| - 1] == '>';
    }
  }

  /**
   * Python's `str.lower()` as far as an ASCII keyword can observe it:
   * ASCII capitals, KELVIN SIGN (lowered to `k`) and LATIN CAPITAL LETTER I
   * WITH DOT ABOVE (lowered to `i` plus COMBINING DOT ABOVE) are the only
   * characters whose lower case contains an ASCII character; every other
   * character is kept, which changes no keyword test.
   */
  function LowerChar(c: char): string {
    if 'A' <= c <= 'Z' then [(c as int + 32) as char]
    else if c == '\U{212A}' then "k"
    else if c == '\U{0130}' then "i\U{0307}"
    else [c]
  }

  function Lower(s: string): string {
    if s == [] then [] else LowerChar(s[0]) + Lower(s[1..])
  }

  lemma {:induction false} LowerConcat(a: string, b: string)
    ensures Lower(a + b) == Lower(a) + Lower(b)
    decreases |a|
  {
    if a != [] {
      assert (a + b)[0] == a[0];
      assert (a + b)[1..] == a[1..] + b;
      LowerConcat(a[1..], b);
    } else {
      assert a + b == b;
    }
  }

  /** Lower-casing keeps every occurrence: `w in s` implies `w.lower() in s.lower()`. */
  lemma LowerKeepsOccurrence(s: string, w: string)
    requires Contains(s, w)
    ensures Contains(Lower(s), Lower(w))
  {
    var i := ContainsWitness(s, w);
    var p, q := s[..i], s[i + |w|..];
    assert s == p + (w + q);
    LowerConcat(p, w + q);
    LowerConcat(w, q);
    var ls := Lower(s);
    assert ls == Lower(p) + Lower(w) + Lower(q);
    assert ls[|Lower(p)|..|Lower(p)| + |Lower(w)|] == Lower(w);
    ContainsAt(ls, Lower(w), |Lower(p)|);
  }

  /** Python's `sep.join(parts)`. */
  function Join(sep: string, parts: seq<string>): string
    decreases |parts|
  {
    if parts == [] then ""
    else if |parts| == 1 then parts[0]
    else Join(sep, parts[..|parts| - 1]) + sep + parts[|parts| - 1]
  }

  /** Appending a part keeps every word found in the joined text, and adds the new part's. */
  lemma JoinAppend(sep: string, parts: seq<string>, x: string, w: string)
    ensures Contains(Join(sep, parts), w) ==> Contains(Join(sep, parts + [x]), w)
    ensures Contains(x, w) ==> Contains(Join(sep, parts + [x]), w)
  {
    var ps := parts + [x];
    assert ps[..|ps| - 1] == parts;
    if parts == [] {
      assert Join(sep, ps) == x;
      if Contains(Join(sep, parts), w) {
        var i := ContainsWitness(Join(sep, parts), w);
        ContainsAt(x, w, 0);
      }
    } else {
      ContainsConcat(Join(sep, parts), sep + x, w);
      ContainsConcat(sep, x, w);
      assert Join(sep, ps) == Join(sep, parts) + (sep + x);
      ContainsConcat(Join(sep, parts) + sep, x, w);
    }
  }

  /** Counting looks at the first position, then at the rest. */
  lemma CountFront(w: string, s: string)
    requires |w| > 0 && |s| > 0
    ensures Count(w, s) == (if IsPrefix(w, s) then 1 else 0) + Count(w, s[1..])
  {
  }

  /** A tag word is counted in `d + c + d + rest` only inside `c` or `rest` when `d` shares no character with it. */
  lemma CountDelimited(w: string, d: string, c: string, rest: string)
    requires IsTagWord(w) && |d| > 0
    requires forall k :: 0 <= k < |d| ==> d[k] !in w
    ensures Count(w, d + (c + (d + rest))) == Count(w, c) + Count(w, rest)
  {
    CountAbsent(w, d);
    assert d[|d| - 1] !in w[..|w| - 1];
    CountSplit(w, d, c + (d + rest));
    assert (d + rest)[0] == d[0];
    assert d[0] !in w[1..];
    CountSplit(w, c, d + rest);
    CountSplit(w, d, rest);
  }

  /** Counting a tag word over `o + c + cl + r`, where `o` ends in `>` and `cl` starts with `<`. */
  lemma CountBracketed(w: string, o: string, c: string, cl: string, r: string)
    requires IsTagWord(w) && IsTagWord(o) && IsTagWord(cl)
    ensures Count(w, o + c + cl + r) == Count(w, o) + Count(w, c) + Count(w, cl) + Count(w, r)
  {
    assert o + c + cl + r == o + (c + (cl + r));
    assert o[|o| - 1] !in w[..|w| - 1];
    CountSplit(w, o, c + (cl + r));
    assert (cl + r)[0] == '<' && '<' !in w[1..];
    CountSplit(w, c, cl + r);
    CountSplit(w, cl, r);
  }

  /** Cutting a text at two points and gluing the pieces back gives the text. */
  lemma SplitThree(s: string, r: nat, e: nat)
    requires r <= e <= |s|
    ensures s == s[..r] + (s[r..e] + s[e..])
  {
    assert s[r..] == s[r..e] + s[e..];
  }
}
