/**
 * The rewrite passes of `convert_to_html` (bot.py:41-80), one scanner per
 * regular expression. Each scanner walks the text from the left exactly as
 * `re.sub` does: at each position it either replaces the match that starts
 * there and resumes after it, or keeps the character and moves on.
 */
module Markup {
  import opened Strings
  import opened Wrappers

  // ---------------------------------------------------------------------------
  // Pass 1: unsupported block tags become bold (bot.py:44-51)
  // ---------------------------------------------------------------------------

  /** The tags bot.py:44 turns into bold, in the order the loop visits them. */
  const UnsupportedTags: seq<string> := ["h1", "h2", "h3", "h4", "h5", "h6", "div", "span", "p"]

  /**
   * `c` matches the pattern character `t` under `re.IGNORECASE`: ASCII
   * case, plus the extra equivalences Python's engine applies to `i`
   * (DOTLESS I, CAPITAL I WITH DOT ABOVE) and `s` (LONG S).
   */
  predicate CharMatchesCI(c: char, t: char) {
    c == t
    || ('a' <= t <= 'z' && c as int == t as int - 32)
    || (t == 'i' && (c == '\U{0130}' || c == '\U{0131}'))
    || (t == 's' && c == '\U{017F}')
  }

  /** `s` starts with `body`, compared case-insensitively. */
  predicate PrefixCI(body: string, s: string) {
    |body| <= |s| && forall k :: 0 <= k < |body| ==> CharMatchesCI(s[k], body[k])
  }

  /** A tag name of bot.py:44: lower-case letters and digits, not starting with `b`. */
  predicate IsTagName(name: string) {
    |name| > 0 && name[0] != 'b' &&
    forall k :: 0 <= k < |name| ==> 'a' <= name[k] <= 'z' || '0' <= name[k] <= '9'
  }

  /** The two patterns of bot.py:49 and bot.py:51 for one tag name. */
  datatype TagPattern = OpenTag(name: string) | CloseTag(name: string) {

    /** What must follow the `<`: `tag` (then `[^>]*>`) or `/tag>`. */
    function Body(): string {
      match this
      case OpenTag(n) => n
      case CloseTag(n) => "/" + n + ">"
    }

    /** The replacement text. */
    function Replacement(): string {
      match this
      case OpenTag(_) => "<b>"
      case CloseTag(_) => "</b>"
    }
  }

  /** `<tag[^>]*>` (open) or `</tag>` (close), case-insensitively, at the start of `s`. */
  predicate MatchAt(s: string, p: TagPattern) {
    |s| > 0 && s[0] == '<' && PrefixCI(p.Body(), s[1..]) && (p.OpenTag? ==> '>' in s)
  }

  /** Length of the match at the start of `s`: through the first `>` for an opening tag. */
  function MatchLength(s: string, p: TagPattern): (n: nat)
    requires MatchAt(s, p)
    ensures 0 < n <= |s|
  {
    match p
    case OpenTag(_) => Find(s, '>') + 1
    case CloseTag(_) => 1 + |p.Body()|
  }

  /** `re.sub(pattern, replacement, s, flags=re.IGNORECASE)` for one tag pattern. */
  function Rewrite(s: string, p: TagPattern): string
    decreases |s|
  {
    if s == [] then []
    else if MatchAt(s, p) then p.Replacement() + Rewrite(s[MatchLength(s, p)..], p)
    else [s[0]] + Rewrite(s[1..], p)
  }

  /** No match of `p` starts anywhere in `s`. */
  predicate NoMatch(s: string, p: TagPattern)
    decreases |s|
  {
    s == [] || (!MatchAt(s, p) && NoMatch(s[1..], p))
  }

  /** The text after the first `n` iterations of the loop at bot.py:47-51. */
  function RewriteUnsupported(s: string, n: nat): string
    requires n <= |UnsupportedTags|
  {
    if n == 0 then s
    else
      var name := UnsupportedTags[n - 1];
      Rewrite(Rewrite(RewriteUnsupported(s, n - 1), OpenTag(name)), CloseTag(name))
  }

  lemma UnsupportedAreTagNames()
    ensures forall n :: 0 <= n < |UnsupportedTags| ==> IsTagName(UnsupportedTags[n])
  {
  }

  /** A pattern built from a tag name never starts with `<` and never matches `<` case-insensitively. */
  lemma BodyHasNoLt(p: TagPattern)
    requires IsTagName(p.name)
    ensures forall k :: 0 <= k < |p.Body()| ==> p.Body()[k] != '<' && !CharMatchesCI('<', p.Body()[k])
  {
  }

  /** Without a `>` nothing can match, so the pass changes nothing. */
  lemma {:induction false} RewriteNoGt(s: string, p: TagPattern)
    requires IsTagName(p.name) && '>' !in s
    ensures Rewrite(s, p) == s
    decreases |s|
  {
    if s != [] {
      if p.CloseTag? && |p.Body()| <= |s[1..]| {
        var k := |p.Body()| - 1;
        assert p.Body()[k] == '>';
        assert s[1..][k] in s;
        assert !CharMatchesCI(s[1..][k], p.Body()[k]);
      }
      RewriteNoGt(s[1..], p);
    }
  }

  /**
   * The pass keeps the text up to and including its first `<` (a match
   * starts with `<`, and so does its replacement).
   */
  lemma {:induction false} RewriteKeepsHead(s: string, p: TagPattern)
    ensures Find(s, '<') == |s| ==> Rewrite(s, p) == s
    ensures Find(s, '<') < |s| ==>
      Find(s, '<') < |Rewrite(s, p)| && Rewrite(s, p)[..Find(s, '<') + 1] == s[..Find(s, '<') + 1]
    decreases |s|
  {
    if s != [] && s[0] != '<' {
      RewriteKeepsHead(s[1..], p);
      var r := Rewrite(s[1..], p);
      assert Rewrite(s, p) == [s[0]] + r;
      if Find(s, '<') < |s| {
        assert Find(s, '<') == 1 + Find(s[1..], '<');
        assert ([s[0]] + r)[..Find(s, '<') + 1] == [s[0]] + r[..Find(s[1..], '<') + 1];
        assert s[..Find(s, '<') + 1] == [s[0]] + s[1..][..Find(s[1..], '<') + 1];
      }
    }
  }

  /**
   * A case-insensitive mismatch of a `<`-free body survives any rewrite
   * that keeps the text up to its first `<`.
   */
  lemma MismatchKept(body: string, t: string, u: string)
    requires forall k :: 0 <= k < |body| ==> !CharMatchesCI('<', body[k])
    requires Find(t, '<') == |t| ==> u == t
    requires Find(t, '<') < |t| ==> Find(t, '<') < |u| && u[..Find(t, '<') + 1] == t[..Find(t, '<') + 1]
    requires !PrefixCI(body, t)
    ensures !PrefixCI(body, u)
  {
    var f := Find(t, '<');
    if f < |t| {
      if f < |body| {
        assert u[f] == u[..f + 1][f] == t[..f + 1][f] == '<';
        assert !CharMatchesCI(u[f], body[f]);
      } else {
        forall k | 0 <= k < |body|
          ensures u[k] == t[k]
        {
          assert u[k] == u[..f + 1][k];
        }
        assert PrefixCI(body, u) == PrefixCI(body, t);
      }
    }
  }

  /** Text without `<` adds no match in front of a text that has none. */
  lemma {:induction false} NoMatchPlain(a: string, x: string, p: TagPattern)
    requires '<' !in a && NoMatch(x, p)
    ensures NoMatch(a + x, p)
    decreases |a|
  {
    if a == [] {
      assert a + x == x;
    } else {
      assert (a + x)[0] == a[0];
      assert (a + x)[1..] == a[1..] + x;
      NoMatchPlain(a[1..], x, p);
    }
  }

  lemma {:induction false} NoMatchSuffix(s: string, p: TagPattern, k: nat)
    requires NoMatch(s, p) && k <= |s|
    ensures NoMatch(s[k..], p)
    decreases k
  {
    if k > 0 {
      NoMatchSuffix(s[1..], p, k - 1);
      assert s[1..][k - 1..] == s[k..];
    }
  }

  /** A replacement (`<b>` or `</b>`) never starts a match of a pattern built from a tag name. */
  lemma ReplacementNoMatch(p: TagPattern, q: TagPattern, x: string)
    requires IsTagName(q.name) && NoMatch(x, q)
    ensures NoMatch(p.Replacement() + x, q)
  {
    var rep := p.Replacement();
    var y := rep + x;
    assert y[1..] == rep[1..] + x;
    NoMatchPlain(rep[1..], x, q);
    var body := q.Body();
    if q.CloseTag? {
      assert body[1] == q.name[0];
      if p.OpenTag? {
        assert !CharMatchesCI(y[1], body[0]);
      } else {
        assert !CharMatchesCI(y[2], body[1]);
      }
    } else {
      assert !CharMatchesCI(y[1], body[0]);
    }
  }

  /**
   * One pass leaves no match of its own pattern behind, and it keeps every
   * other tag pattern absent: after `re.sub`, the pattern `q` is gone if it
   * was the one replaced or was absent before.
   */
  lemma {:induction false} RewriteLeavesNoMatch(s: string, p: TagPattern, q: TagPattern)
    requires IsTagName(p.name) && IsTagName(q.name)
    requires q == p || NoMatch(s, q)
    ensures NoMatch(Rewrite(s, p), q)
    decreases |s|
  {
    if s != [] {
      if MatchAt(s, p) {
        var rest := s[MatchLength(s, p)..];
        if q != p {
          NoMatchSuffix(s, q, MatchLength(s, p));
        }
        RewriteLeavesNoMatch(rest, p, q);
        ReplacementNoMatch(p, q, Rewrite(rest, p));
      } else {
        if q != p {
          NoMatchSuffix(s, q, 1);
        }
        RewriteLeavesNoMatch(s[1..], p, q);
        var r := Rewrite(s[1..], p);
        var out := [s[0]] + r;
        assert Rewrite(s, p) == out;
        assert out[1..] == r;
        assert !MatchAt(s, q);
        if s[0] == '<' {
          BodyHasNoLt(q);
          if !PrefixCI(q.Body(), s[1..]) {
            RewriteKeepsHead(s[1..], p);
            MismatchKept(q.Body(), s[1..], r);
          } else {
            RewriteNoGt(s[1..], p);
            assert out == s;
          }
        }
      }
    }
  }

  /**
   * After the loop at bot.py:47-51, no opening form (`<h1 ...>`, `<DIV>`,
   * `<p class=x>`, `<pre>`, ...) and no closing form (`</h1>`, `</P>`, ...)
   * of any of the nine tags is left in the text.
   */
  lemma {:induction false} UnsupportedTagsGone(s: string, n: nat)
    requires n <= |UnsupportedTags|
    ensures forall m :: 0 <= m < n ==>
      NoMatch(RewriteUnsupported(s, n), OpenTag(UnsupportedTags[m])) &&
      NoMatch(RewriteUnsupported(s, n), CloseTag(UnsupportedTags[m]))
  {
    UnsupportedAreTagNames();
    if n > 0 {
      UnsupportedTagsGone(s, n - 1);
      var name := UnsupportedTags[n - 1];
      var t := RewriteUnsupported(s, n - 1);
      var t1 := Rewrite(t, OpenTag(name));
      forall m | 0 <= m < n
        ensures NoMatch(RewriteUnsupported(s, n), OpenTag(UnsupportedTags[m]))
        ensures NoMatch(RewriteUnsupported(s, n), CloseTag(UnsupportedTags[m]))
      {
        var q := UnsupportedTags[m];
        RewriteLeavesNoMatch(t, OpenTag(name), OpenTag(q));
        RewriteLeavesNoMatch(t1, CloseTag(name), OpenTag(q));
        if m < n - 1 {
          RewriteLeavesNoMatch(t, OpenTag(name), CloseTag(q));
        }
        RewriteLeavesNoMatch(t1, CloseTag(name), CloseTag(q));
      }
    }
  }

  /** Where no match of `p` starts, the pass changes nothing. */
  lemma {:induction false} NoMatchKept(s: string, p: TagPattern)
    requires NoMatch(s, p)
    ensures Rewrite(s, p) == s
    decreases |s|
  {
    if s != [] {
      NoMatchKept(s[1..], p);
    }
  }

  /** None of the eighteen patterns of the loop at bot.py:47-51 matches anywhere in `s`. */
  predicate NoUnsupported(s: string) {
    forall m :: 0 <= m < |UnsupportedTags| ==>
      NoMatch(s, OpenTag(UnsupportedTags[m])) && NoMatch(s, CloseTag(UnsupportedTags[m]))
  }

  /** A text in which none of the eighteen patterns matches goes through the loop unchanged. */
  lemma {:induction false} NoUnsupportedKept(s: string, n: nat)
    requires n <= |UnsupportedTags| && NoUnsupported(s)
    ensures RewriteUnsupported(s, n) == s
  {
    if n > 0 {
      NoUnsupportedKept(s, n - 1);
      NoMatchKept(s, OpenTag(UnsupportedTags[n - 1]));
      NoMatchKept(s, CloseTag(UnsupportedTags[n - 1]));
    }
  }

  /** Every `<` in `s` is the last character or is followed by `<`, `b` or `/b`. */
  predicate BoldTagsOnly(s: string) {
    forall i :: 0 <= i < |s| && s[i] == '<' ==>
      i + 1 == |s| || s[i + 1] == '<' || s[i + 1] == 'b' ||
      (s[i + 1] == '/' && (i + 2 == |s| || s[i + 2] == 'b'))
  }

  /** Where a `<` can start at most a bold tag, no pattern built from a tag name matches. */
  lemma {:induction false} BoldTagsOnlyNoMatch(s: string, p: TagPattern)
    requires IsTagName(p.name) && BoldTagsOnly(s)
    ensures NoMatch(s, p)
    decreases |s|
  {
    if s != [] {
      BodyHasNoLt(p);
      var b := p.Body();
      if s[0] == '<' && 2 <= |s| && 1 <= |b| && CharMatchesCI(s[1], b[0]) && p.CloseTag? {
        assert b[1] == p.name[0];
        assert |b| > 2;
        if |b| <= |s[1..]| {
          assert !CharMatchesCI(s[1..][1], b[1]);
        }
      }
      assert BoldTagsOnly(s[1..]) by {
        forall i | 0 <= i < |s[1..]| && s[1..][i] == '<'
          ensures i + 1 == |s[1..]| || s[1..][i + 1] == '<' || s[1..][i + 1] == 'b' ||
            (s[1..][i + 1] == '/' && (i + 2 == |s[1..]| || s[1..][i + 2] == 'b'))
        {
          assert s[i + 1] == '<';
          assert i + 2 == |s| || s[i + 2] == '<' || s[i + 2] == 'b' ||
            (s[i + 2] == '/' && (i + 3 == |s| || s[i + 3] == 'b'));
          if i + 2 < |s| {
            assert s[1..][i + 1] == s[i + 2];
          }
          if i + 3 < |s| {
            assert s[1..][i + 2] == s[i + 3];
          }
        }
      }
      BoldTagsOnlyNoMatch(s[1..], p);
    }
  }

  /** Where a `<` can start at most a bold tag, the loop at bot.py:47-51 finds nothing to replace. */
  lemma BoldTagsOnlyNoUnsupported(s: string)
    requires BoldTagsOnly(s)
    ensures NoUnsupported(s)
  {
    UnsupportedAreTagNames();
    forall m | 0 <= m < |UnsupportedTags|
      ensures NoMatch(s, OpenTag(UnsupportedTags[m])) && NoMatch(s, CloseTag(UnsupportedTags[m]))
    {
      BoldTagsOnlyNoMatch(s, OpenTag(UnsupportedTags[m]));
      BoldTagsOnlyNoMatch(s, CloseTag(UnsupportedTags[m]));
    }
  }

  /** A `<pre>` tag is an opening form of `p` for the pattern `<p[^>]*>`. */
  lemma PreIsParagraph(s: string)
    ensures IsPrefix("<pre>", s) ==> MatchAt(s, OpenTag("p"))
  {
    if IsPrefix("<pre>", s) {
      assert s[1..][0] == 'p' && s[4] == '>';
    }
  }

  /** Where no `<p...>` opening tag matches, `<pre>` does not occur. */
  lemma {:induction false} NoParagraphNoPre(s: string)
    requires NoMatch(s, OpenTag("p"))
    ensures Count("<pre>", s) == 0
    decreases |s|
  {
    if |s| >= 5 {
      PreIsParagraph(s);
      NoParagraphNoPre(s[1..]);
    }
  }

  // ---------------------------------------------------------------------------
  // The four tag kinds the sanitizer balances (bot.py:72)
  // ---------------------------------------------------------------------------

  datatype TagKind = Bold | Italic | Code | Pre {

    function Name(): string {
      match this
      case Bold => "b"
      case Italic => "i"
      case Code => "code"
      case Pre => "pre"
    }

    function Open(): string { "<" + Name() + ">" }

    function Close(): string { "</" + Name() + ">" }
  }

  /** The kinds in the order bot.py:72 checks them. */
  const CheckedKinds: seq<TagKind> := [Bold, Italic, Code, Pre]

  /** Opening and closing tags are tag words: one `<` at the front, one `>` at the end. */
  lemma KindTagWords(k: TagKind)
    ensures IsTagWord(k.Open()) && IsTagWord(k.Close())
  {
  }

  /** Distinct kinds give distinct tags, and no opening tag is a closing one. */
  lemma KindsDistinct(k: TagKind, j: TagKind)
    ensures k.Open() != j.Close()
    ensures k.Open() == j.Open() ==> k == j
    ensures k.Close() == j.Close() ==> k == j
  {
    assert k.Open()[1] != j.Close()[1];
    if k.Open() == j.Open() {
      assert k.Name() == k.Open()[1..|k.Open()| - 1];
    }
    if k.Close() == j.Close() {
      assert k.Name() == k.Close()[2..|k.Close()| - 1];
    }
  }

  /** Counting one kind's tag inside another kind's tag. */
  lemma KindCounts(k: TagKind, j: TagKind)
    ensures Count(k.Open(), j.Open()) == (if k == j then 1 else 0)
    ensures Count(k.Close(), j.Close()) == (if k == j then 1 else 0)
    ensures Count(k.Open(), j.Close()) == 0 && Count(k.Close(), j.Open()) == 0
  {
    KindTagWords(k);
    KindTagWords(j);
    KindsDistinct(k, j);
    KindsDistinct(j, k);
    CountTagInTag(k.Open(), j.Open());
    CountTagInTag(k.Close(), j.Close());
    CountTagInTag(k.Open(), j.Close());
    CountTagInTag(k.Close(), j.Open());
  }

  // ---------------------------------------------------------------------------
  // Passes 2-5: delimited spans (bot.py:53-63)
  // ---------------------------------------------------------------------------

  /**
   * One pattern `D(.*?)D` with its replacement `<x>\1</x>`; `dotAll` says
   * whether the span may cross a newline (`re.DOTALL`).
   */
  datatype Span = Span(delim: string, dotAll: bool, kind: TagKind)

  const BoldSpan: Span := Span("**", false, Bold)
  const ItalicSpan: Span := Span("*", false, Italic)
  const BlockCodeSpan: Span := Span("```", true, Code)
  const InlineCodeSpan: Span := Span("`", false, Code)

  /** A delimiter: one character repeated, neither `<` nor a newline. */
  predicate ValidSpan(sp: Span) {
    |sp.delim| > 0 && sp.delim[0] != '<' && sp.delim[0] != '\n' &&
    forall k :: 0 <= k < |sp.delim| ==> sp.delim[k] == sp.delim[0]
  }

  /** The four spans used by bot.py:54-63 are valid, and their delimiter occurs in no tag. */
  lemma SpansValid(sp: Span)
    requires sp in {BoldSpan, ItalicSpan, BlockCodeSpan, InlineCodeSpan}
    ensures ValidSpan(sp)
    ensures forall k: TagKind :: sp.delim[0] !in k.Open() && sp.delim[0] !in k.Close()
  {
  }

  /**
   * Where the lazy group `(.*?)` of a span stops: the first index `j` of `t`
   * at which the closing delimiter follows, provided no newline comes first
   * when `dotAll` is off; `None` when there is no such index.
   */
  function SpanEnd(t: string, d: string, dotAll: bool): (r: Option<nat>)
    requires |d| > 0 && d[0] != '\n'
    ensures r.Some? ==> r.value + |d| <= |t|
    decreases |t|
  {
    if |t| < |d| then None
    else if t[..|d|] == d then Some(0)
    else if !dotAll && t[0] == '\n' then None
    else
      match SpanEnd(t[1..], d, dotAll)
      case None => None
      case Some(j) => Some(j + 1)
  }

  /**
   * When `SpanEnd` returns an index, the delimiter follows there, no newline
   * comes before it unless `dotAll`, and the delimiter follows at no earlier
   * index: the lazy group stops at the first place it can.
   */
  lemma {:induction false} SpanEndFound(t: string, d: string, dotAll: bool)
    requires |d| > 0 && d[0] != '\n' && SpanEnd(t, d, dotAll).Some?
    ensures var j := SpanEnd(t, d, dotAll).value;
      IsPrefix(d, t[j..]) && (dotAll || '\n' !in t[..j]) &&
      forall k :: 0 <= k < j ==> !IsPrefix(d, t[k..])
    decreases |t|
  {
    if t[..|d|] != d {
      SpanEndFound(t[1..], d, dotAll);
      var j := SpanEnd(t[1..], d, dotAll).value;
      assert t[j + 1..] == t[1..][j..];
      assert t[..j + 1] == [t[0]] + t[1..][..j];
      forall k | 0 <= k < j + 1
        ensures !IsPrefix(d, t[k..])
      {
        if k > 0 {
          assert t[k..] == t[1..][k - 1..];
        }
      }
    }
  }

  /**
   * When `SpanEnd` returns `None`, the delimiter follows at no index that is
   * reachable without crossing a newline (at no index at all, under `dotAll`).
   */
  lemma {:induction false} SpanEndNotFound(t: string, d: string, dotAll: bool)
    requires |d| > 0 && d[0] != '\n' && SpanEnd(t, d, dotAll).None?
    ensures forall k :: 0 <= k <= |t| && (dotAll || '\n' !in t[..k]) ==> !IsPrefix(d, t[k..])
    decreases |t|
  {
    if |t| < |d| {
      assert forall k :: 0 <= k <= |t| ==> |t[k..]| < |d|;
    } else if !dotAll && t[0] == '\n' {
      assert forall k :: 1 <= k <= |t| ==> t[..k][0] == '\n';
    } else {
      SpanEndNotFound(t[1..], d, dotAll);
      forall k | 0 <= k <= |t| && (dotAll || '\n' !in t[..k])
        ensures !IsPrefix(d, t[k..])
      {
        if k > 0 {
          assert t[k..] == t[1..][k - 1..];
          assert t[..k] == [t[0]] + t[1..][..k - 1];
        }
      }
    }
  }

  /** A span found at the front of a text: what its group captured, and the text after it. */
  datatype Found = Found(content: string, rest: string)

  /** Where a span starts at the start of `s`: its content and the text after the closing delimiter. */
  function SpanAt(s: string, sp: Span): (r: Option<Found>)
    requires ValidSpan(sp)
    ensures r.Some? ==> |r.value.rest| < |s|
  {
    if IsPrefix(sp.delim, s) then
      var t := s[|sp.delim|..];
      match SpanEnd(t, sp.delim, sp.dotAll)
      case Some(j) => Some(Found(t[..j], t[j + |sp.delim|..]))
      case None => None
    else None
  }

  /** `re.sub(r'D(.*?)D', r'<x>\1</x>', s)` for one span pattern. */
  function ReplaceSpans(s: string, sp: Span): string
    requires ValidSpan(sp)
    decreases |s|
  {
    if s == [] then []
    else
      match SpanAt(s, sp)
      case Some(f) => sp.kind.Open() + f.content + sp.kind.Close() + ReplaceSpans(f.rest, sp)
      case None => [s[0]] + ReplaceSpans(s[1..], sp)
  }

  /** How many spans the pass replaces. */
  ghost function SpanCount(s: string, sp: Span): nat
    requires ValidSpan(sp)
    decreases |s|
  {
    if s == [] then 0
    else
      match SpanAt(s, sp)
      case Some(f) => 1 + SpanCount(f.rest, sp)
      case None => SpanCount(s[1..], sp)
  }

  /** The span pass keeps the text before the first delimiter character, and puts it or `<` there. */
  lemma {:induction false} SpansKeepHead(s: string, sp: Span)
    requires ValidSpan(sp)
    ensures Find(s, sp.delim[0]) == |s| ==> ReplaceSpans(s, sp) == s
    ensures Find(s, sp.delim[0]) < |s| ==>
      var g := Find(s, sp.delim[0]);
      var r := ReplaceSpans(s, sp);
      g < |r| && r[..g] == s[..g] && (r[g] == sp.delim[0] || r[g] == '<')
    decreases |s|
  {
    if s != [] && s[0] != sp.delim[0] {
      assert SpanAt(s, sp).None?;
      SpansKeepHead(s[1..], sp);
      var r := ReplaceSpans(s[1..], sp);
      assert ReplaceSpans(s, sp) == [s[0]] + r;
      if Find(s, sp.delim[0]) < |s| {
        var g := Find(s[1..], sp.delim[0]);
        assert Find(s, sp.delim[0]) == g + 1;
        assert ([s[0]] + r)[..g + 1] == [s[0]] + r[..g];
        assert s[..g + 1] == [s[0]] + s[1..][..g];
      }
    }
  }

  /** Two texts that agree up to `g`, and differ from `w` at `g`, both start or both fail to start with `w`. */
  lemma SamePrefixTest(w: string, x: string, y: string, g: nat)
    requires |w| > 0 && g <= |x| && g <= |y| && x[..g] == y[..g]
    requires g >= |w| || (1 <= g < |x| && g < |y| && x[g] !in w[1..] && y[g] !in w[1..])
    ensures IsPrefix(w, x) == IsPrefix(w, y)
  {
    if g >= |w| {
      if |w| <= |x| && |w| <= |y| {
        assert x[..|w|] == x[..g][..|w|] == y[..g][..|w|] == y[..|w|];
      }
    } else {
      assert w[1..][g - 1] == w[g];
      if |w| <= |x| {
        assert x[..|w|][g] != w[g];
      }
      if |w| <= |y| {
        assert y[..|w|][g] != w[g];
      }
    }
  }

  /** A text that starts with `d` and has `d` again after `j` more characters splits around both. */
  lemma DelimiterSplits(s: string, d: string, j: nat)
    requires IsPrefix(d, s) && j + |d| <= |s[|d|..]| && IsPrefix(d, s[|d|..][j..])
    ensures var t := s[|d|..]; s == d + (t[..j] + (d + t[j + |d|..])) && t == t[..j] + (d + t[j + |d|..])
  {
    var t := s[|d|..];
    assert s == d + t;
    assert t[j..] == d + t[j + |d|..];
    assert t == t[..j] + t[j..];
  }

  /** The delimiter's absence before `j` in `t` carries over to the content `t[..j]` followed by the delimiter. */
  lemma NoEarlierDelimiter(t: string, d: string, j: nat)
    requires j + |d| <= |t| && t == t[..j] + (d + t[j + |d|..])
    requires forall k :: 0 <= k < j ==> !IsPrefix(d, t[k..])
    ensures forall k :: 0 <= k < j ==> !IsPrefix(d, t[..j][k..] + d)
  {
    forall k | 0 <= k < j
      ensures !IsPrefix(d, t[..j][k..] + d)
    {
      assert !IsPrefix(d, t[k..]);
      assert t[k..] == t[..j][k..] + (d + t[j + |d|..]);
      assert (t[..j][k..] + d)[..|d|] == t[k..][..|d|];
    }
  }

  /**
   * A span found at the front splits the text into delimiter, content,
   * delimiter and the rest, and its content is the shortest one possible:
   * it holds no delimiter, and no newline unless the span is `dotAll`.
   */
  lemma SpanSplits(s: string, sp: Span)
    requires ValidSpan(sp) && SpanAt(s, sp).Some?
    ensures var f := SpanAt(s, sp).value;
      s == sp.delim + (f.content + (sp.delim + f.rest)) &&
      (sp.dotAll || '\n' !in f.content) &&
      forall k :: 0 <= k < |f.content| ==> !IsPrefix(sp.delim, f.content[k..] + sp.delim)
  {
    var d := sp.delim;
    var t := s[|d|..];
    var j := SpanEnd(t, d, sp.dotAll).value;
    SpanEndFound(t, d, sp.dotAll);
    DelimiterSplits(s, d, j);
    NoEarlierDelimiter(t, d, j);
  }

  /** Counting over one replaced span: the delimiters hold no tag, the inserted pair adds its own. */
  lemma SpanStepCounts(s: string, sp: Span, w: string)
    requires ValidSpan(sp) && IsTagWord(w) && sp.delim[0] !in w
    requires IsTagWord(sp.kind.Open()) && IsTagWord(sp.kind.Close())
    requires s != [] && SpanAt(s, sp).Some?
    ensures var f := SpanAt(s, sp).value;
      SpanCount(s, sp) == 1 + SpanCount(f.rest, sp) &&
      Count(w, s) == Count(w, f.content) + Count(w, f.rest) &&
      Count(w, ReplaceSpans(s, sp)) ==
        Count(w, sp.kind.Open()) + Count(w, f.content) + Count(w, sp.kind.Close())
        + Count(w, ReplaceSpans(f.rest, sp))
  {
    var f := SpanAt(s, sp).value;
    SpanSplits(s, sp);
    CountDelimited(w, sp.delim, f.content, f.rest);
    CountBracketed(w, sp.kind.Open(), f.content, sp.kind.Close(), ReplaceSpans(f.rest, sp));
  }

  /**
   * A rewrite of `s[1..]` that keeps everything before the first `c` and
   * puts `c` or `<` there changes no tag word's match at the front of `s`,
   * when `c` does not occur in the tag word.
   */
  lemma HeadKeptSamePrefix(w: string, s: string, r: string, c: char)
    requires IsTagWord(w) && c !in w && s != []
    requires Find(s[1..], c) == |s[1..]| ==> r == s[1..]
    requires Find(s[1..], c) < |s[1..]| ==>
      var g := Find(s[1..], c);
      g < |r| && r[..g] == s[1..][..g] && (r[g] == c || r[g] == '<')
    ensures IsPrefix(w, [s[0]] + r) == IsPrefix(w, s)
  {
    var out := [s[0]] + r;
    var g := Find(s[1..], c);
    if g < |s[1..]| {
      assert s[1 + g] == s[1..][g] == c;
      assert out[1 + g] == r[g];
      assert s[..1 + g] == [s[0]] + s[1..][..g];
      assert out[..1 + g] == [s[0]] + r[..g];
      SamePrefixTest(w, s, out, 1 + g);
    } else {
      assert out == s;
    }
  }

  /** Where no span starts at the front, the output starts with a tag word iff the input does. */
  lemma SpanSkipSamePrefix(s: string, sp: Span, w: string)
    requires ValidSpan(sp) && IsTagWord(w) && sp.delim[0] !in w
    requires s != [] && SpanAt(s, sp).None?
    ensures IsPrefix(w, ReplaceSpans(s, sp)) == IsPrefix(w, s)
  {
    assert ReplaceSpans(s, sp) == [s[0]] + ReplaceSpans(s[1..], sp);
    SpansKeepHead(s[1..], sp);
    HeadKeptSamePrefix(w, s, ReplaceSpans(s[1..], sp), sp.delim[0]);
  }

  /** Where no span starts at the front, the first position holds a tag in the output iff in the input. */
  lemma SpanSkipCounts(s: string, sp: Span, w: string)
    requires ValidSpan(sp) && IsTagWord(w) && sp.delim[0] !in w
    requires s != [] && SpanAt(s, sp).None?
    ensures SpanCount(s, sp) == SpanCount(s[1..], sp)
    ensures Count(w, ReplaceSpans(s, sp)) - Count(w, ReplaceSpans(s[1..], sp)) == Count(w, s) - Count(w, s[1..])
  {
    var out := ReplaceSpans(s, sp);
    assert out == [s[0]] + ReplaceSpans(s[1..], sp);
    assert out[1..] == ReplaceSpans(s[1..], sp);
    SpanSkipSamePrefix(s, sp, w);
    CountFront(w, s);
    CountFront(w, out);
  }

  /** One more span adds one more copy of the inserted pair. */
  lemma MulSucc(x: nat, n: nat, m: nat)
    requires x == 1 + n
    ensures x * m == m + n * m
  {
  }

  /**
   * Each span pass adds the same number of opening and closing tags of its
   * kind and keeps the count of every other fixed tag: for a tag word `w`
   * (delimiter-free), the count grows by the number of spans times the
   * occurrences of `w` in the inserted pair.
   */
  lemma {:induction false} SpanPassCounts(s: string, sp: Span, w: string, m: nat)
    requires ValidSpan(sp) && IsTagWord(w) && sp.delim[0] !in w
    requires IsTagWord(sp.kind.Open()) && IsTagWord(sp.kind.Close())
    requires m == Count(w, sp.kind.Open()) + Count(w, sp.kind.Close())
    ensures Count(w, ReplaceSpans(s, sp)) == Count(w, s) + SpanCount(s, sp) * m
    decreases |s|
  {
    if s == [] {
      assert ReplaceSpans(s, sp) == [];
    } else {
      match SpanAt(s, sp)
      case Some(f) =>
        SpanStepCounts(s, sp, w);
        SpanPassCounts(f.rest, sp, w, m);
        MulSucc(SpanCount(s, sp), SpanCount(f.rest, sp), m);
      case None =>
        SpanSkipCounts(s, sp, w);
        SpanPassCounts(s[1..], sp, w, m);
    }
  }

  lemma SpanPassKeepsBalance(s: string, sp: Span, k: TagKind)
    requires sp in {BoldSpan, ItalicSpan, BlockCodeSpan, InlineCodeSpan}
    ensures Count(k.Open(), ReplaceSpans(s, sp)) - Count(k.Close(), ReplaceSpans(s, sp)) ==
      Count(k.Open(), s) - Count(k.Close(), s)
  {
    SpansValid(sp);
    KindTagWords(k);
    KindTagWords(sp.kind);
    KindCounts(k, sp.kind);
    SpanPassCounts(s, sp, k.Open(), Count(k.Open(), sp.kind.Open()) + Count(k.Open(), sp.kind.Close()));
    SpanPassCounts(s, sp, k.Close(), Count(k.Close(), sp.kind.Open()) + Count(k.Close(), sp.kind.Close()));
  }
}
