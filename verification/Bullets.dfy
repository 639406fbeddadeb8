/**
 * The bullet pass of convert_to_html (bot.py:66): `re.sub(r'^\s*-\s+(.*?)$',
 * r'• \1', text, flags=re.MULTILINE)`. At each line start, a run of
 * whitespace (which may cross blank lines, since `\s` matches newlines), a
 * `-` and at least one more whitespace character are replaced by `• `; the
 * rest of that line is kept.
 */
module Bullets {
  import opened Strings
  import Markup

  /** Python's `str.isspace()`, which is what `\s` matches in a `str` pattern. */
  predicate IsSpace(c: char) {
    ('\t' <= c <= '\r') || ('\U{001C}' <= c <= ' ') || c == '\U{0085}' || c == '\U{00A0}' ||
    c == '\U{1680}' || ('\U{2000}' <= c <= '\U{200A}') || c == '\U{2028}' || c == '\U{2029}' ||
    c == '\U{202F}' || c == '\U{205F}' || c == '\U{3000}'
  }

  /** Length of the longest all-whitespace prefix: how far a greedy `\s*` runs. */
  function SpaceRun(s: string): (n: nat)
    ensures n <= |s|
    ensures forall k :: 0 <= k < n ==> IsSpace(s[k])
    ensures n < |s| ==> !IsSpace(s[n])
    decreases |s|
  {
    if s != [] && IsSpace(s[0]) then 1 + SpaceRun(s[1..]) else 0
  }

  /** `\s*-\s+` matches at the front of `s`. */
  predicate BulletAt(s: string) {
    var q := SpaceRun(s);
    q + 1 < |s| && s[q] == '-' && IsSpace(s[q + 1])
  }

  /** Where the captured group starts: after the greedy `\s+` that follows the dash. */
  function ContentStart(s: string): (r: nat)
    requires BulletAt(s)
    ensures SpaceRun(s) + 2 <= r <= |s|
  {
    var q := SpaceRun(s);
    q + 1 + SpaceRun(s[q + 1..])
  }

  /** Where the lazy `(.*?)$` stops: the first newline after the content start, or the end. */
  function ContentEnd(s: string): (e: nat)
    requires BulletAt(s)
    ensures ContentStart(s) <= e <= |s|
    ensures e < |s| ==> s[e] == '\n'
    ensures '\n' !in s[ContentStart(s)..e]
  {
    var r := ContentStart(s);
    r + Find(s[r..], '\n')
  }

  /** The bullet. */
  const Dot: string := "\U{2022} "

  /**
   * The bullet pass over `s`, where `atLineStart` says whether `^` matches at
   * the front (start of text, or just after a newline).
   */
  function Bullets(s: string, atLineStart: bool): string
    decreases |s|
  {
    if s == [] then []
    else if atLineStart && BulletAt(s) then
      Dot + s[ContentStart(s)..ContentEnd(s)] + Bullets(s[ContentEnd(s)..], false)
    else [s[0]] + Bullets(s[1..], s[0] == '\n')
  }

  /** The whole pass: `^` matches at the start of the text. */
  function ConvertBullets(s: string): string {
    Bullets(s, true)
  }

  /**
   * Off a line start, the pass copies everything up to and including the
   * first newline: bullets are only recognised after it.
   */
  lemma {:induction false} BulletsKeepHead(s: string)
    ensures Find(s, '\n') == |s| ==> Bullets(s, false) == s
    ensures Find(s, '\n') < |s| ==>
      var g := Find(s, '\n');
      var r := Bullets(s, false);
      g < |r| && r[..g] == s[..g] && r[g] == '\n'
    decreases |s|
  {
    if s != [] && s[0] != '\n' {
      BulletsKeepHead(s[1..]);
      var r := Bullets(s[1..], false);
      assert Bullets(s, false) == [s[0]] + r;
      if Find(s, '\n') < |s| {
        var g := Find(s[1..], '\n');
        assert ([s[0]] + r)[..g + 1] == [s[0]] + r[..g];
        assert s[..g + 1] == [s[0]] + s[1..][..g];
      }
    }
  }

  /** A text without `-` holds no bullet, so the pass changes nothing. */
  lemma {:induction false} NoDashKept(s: string, atLineStart: bool)
    requires '-' !in s
    ensures Bullets(s, atLineStart) == s
    decreases |s|
  {
    if s != [] {
      if SpaceRun(s) < |s| {
        assert s[SpaceRun(s)] in s;
      }
      assert forall c :: c in s[1..] ==> c in s;
      NoDashKept(s[1..], s[0] == '\n');
    }
  }

  /** A word with no whitespace in it. */
  predicate Unspaced(w: string) {
    forall k :: 0 <= k < |w| ==> !IsSpace(w[k])
  }

  /** The marker a bullet match removes (`\s*-\s+`) holds no `<` and ends in whitespace. */
  lemma MarkerPlain(s: string)
    requires BulletAt(s)
    ensures var r := ContentStart(s); '<' !in s[..r] && IsSpace(s[r - 1])
  {
    var q := SpaceRun(s);
    var r := ContentStart(s);
    var u := s[q + 1..];
    var n := SpaceRun(u);
    assert s[r - 1] == u[n - 1];
    forall k | 0 <= k < r
      ensures s[k] != '<'
    {
      if k > q {
        assert s[k] == u[k - q - 1];
      }
    }
  }

  /** A matched bullet line splits into its marker, its content and the rest. */
  lemma BulletSplits(s: string)
    requires BulletAt(s)
    ensures var r, e := ContentStart(s), ContentEnd(s);
      s == s[..r] + (s[r..e] + s[e..]) && s[..r] != [] && IsSpace(s[r - 1]) &&
      '<' !in s[..r] && (s[e..] == [] || s[e..][0] == '\n')
  {
    var r, e := ContentStart(s), ContentEnd(s);
    MarkerPlain(s);
    SplitThree(s, r, e);
  }

  /** Where a bullet is found, the marker holds no tag and no tag straddles its ends. */
  lemma BulletInputCounts(s: string, w: string)
    requires IsTagWord(w) && Unspaced(w) && BulletAt(s)
    ensures var r, e := ContentStart(s), ContentEnd(s);
      Count(w, s) == Count(w, s[r..e]) + Count(w, s[e..])
  {
    var r, e := ContentStart(s), ContentEnd(s);
    var a, c, rest := s[..r], s[r..e], s[e..];
    BulletSplits(s);
    CountAbsent(w, a);
    assert a[|a| - 1] !in w[..|w| - 1];
    CountSplit(w, a, c + rest);
    if rest != [] {
      assert rest[0] !in w[1..];
    }
    CountSplit(w, c, rest);
  }

  /** The bullet and the kept line hold no tag across their seams. */
  lemma BulletOutputCounts(c: string, rest: string, w: string)
    requires IsTagWord(w) && Unspaced(w) && (rest == [] || rest[0] == '\n')
    ensures Count(w, Dot + c + Bullets(rest, false)) == Count(w, c) + Count(w, Bullets(rest, false))
  {
    var out := Bullets(rest, false);
    BulletsKeepHead(rest);
    if out != [] {
      assert out[0] == rest[0] == '\n';
      assert out[0] !in w[1..];
    }
    CountAbsent(w, Dot);
    assert Dot[|Dot| - 1] !in w[..|w| - 1];
    assert Dot + c + out == Dot + (c + out);
    CountSplit(w, Dot, c + out);
    CountSplit(w, c, out);
  }

  /** Where no bullet is found, the front position holds a tag in the output iff in the input. */
  lemma BulletSkipCounts(s: string, ls: bool, w: string)
    requires IsTagWord(w) && Unspaced(w) && s != [] && !(ls && BulletAt(s))
    ensures Count(w, Bullets(s, ls)) - Count(w, Bullets(s[1..], s[0] == '\n')) == Count(w, s) - Count(w, s[1..])
  {
    var r := Bullets(s[1..], s[0] == '\n');
    var out := [s[0]] + r;
    assert Bullets(s, ls) == out;
    assert out[1..] == r;
    if s[0] == '\n' {
      if |w| <= |s| {
        assert s[..|w|][0] != w[0];
      }
      if |w| <= |out| {
        assert out[..|w|][0] != w[0];
      }
    } else {
      BulletsKeepHead(s[1..]);
      Markup.HeadKeptSamePrefix(w, s, r, '\n');
    }
    CountFront(w, s);
    CountFront(w, out);
  }

  /**
   * The bullet pass keeps the count of every tag word that has no whitespace
   * in it: the text it removes is whitespace and a dash, and `• ` holds no tag.
   */
  lemma {:induction false} BulletsKeepCounts(s: string, ls: bool, w: string)
    requires IsTagWord(w) && Unspaced(w)
    ensures Count(w, Bullets(s, ls)) == Count(w, s)
    decreases |s|
  {
    if s != [] {
      if ls && BulletAt(s) {
        BulletInputCounts(s, w);
        BulletSplits(s);
        BulletOutputCounts(s[ContentStart(s)..ContentEnd(s)], s[ContentEnd(s)..], w);
        BulletsKeepCounts(s[ContentEnd(s)..], false, w);
      } else {
        BulletSkipCounts(s, ls, w);
        BulletsKeepCounts(s[1..], s[0] == '\n', w);
      }
    }
  }

  /**
   * A one-line dash item becomes a bullet with its text: `- x` reads `• x`
   * for every line x that does not start with whitespace.
   */
  lemma BulletLine(x: string)
    requires '\n' !in x && (x == [] || !IsSpace(x[0]))
    ensures ConvertBullets("- " + x) == Dot + x
  {
    var s := "- " + x;
    assert s[0] == '-' && s[1] == ' ';
    assert SpaceRun(s) == 0;
    assert BulletAt(s);
    var u := s[1..];
    assert u[0] == ' ' && u[1..] == x;
    assert SpaceRun(u) == 1;
    assert ContentStart(s) == 2;
    assert s[2..] == x;
    assert Find(x, '\n') == |x|;
    assert ContentEnd(s) == |s|;
    assert s[ContentStart(s)..ContentEnd(s)] == x;
    assert s[ContentEnd(s)..] == [];
    assert Bullets(s, true) == Dot + x + Bullets([], false);
    assert Dot + x + [] == Dot + x;
  }
}
