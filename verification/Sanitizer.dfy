/**
 * convert_to_html (bot.py:41-80): the fixed pipeline of passes that turns the
 * assistant's markdown-ish reply into the HTML subset Telegram accepts, and
 * the fix-up loop that appends missing closing tags.
 */
module Sanitizer {
  import opened Strings
  import opened Markup
  import Bullets
  import Strip

  /** Position of a kind in the fix-up loop's list (bot.py:72). */
  function Rank(k: TagKind): (i: nat)
    ensures i < |CheckedKinds| && CheckedKinds[i] == k
  {
    match k
    case Bold => 0
    case Italic => 1
    case Code => 2
    case Pre => 3
  }

  /** The larger of two counts. */
  function Max(a: nat, b: nat): nat {
    if a < b then b else a
  }

  /** How many closing tags of kind `k` the fix-up appends to `t`: the surplus of openings, if any. */
  function Missing(t: string, k: TagKind): nat {
    if Count(k.Open(), t) > Count(k.Close(), t) then Count(k.Open(), t) - Count(k.Close(), t) else 0
  }

  /** What the first `n` iterations of the fix-up loop append to `t`. */
  function Closers(t: string, n: nat): string
    requires n <= |CheckedKinds|
  {
    if n == 0 then []
    else Closers(t, n - 1) + Repeat(CheckedKinds[n - 1].Close(), Missing(t, CheckedKinds[n - 1]))
  }

  /** The four span passes, in the order of bot.py:54-63. */
  function Spanned(t: string): string {
    SpansValid(BoldSpan);
    SpansValid(ItalicSpan);
    SpansValid(BlockCodeSpan);
    SpansValid(InlineCodeSpan);
    ReplaceSpans(ReplaceSpans(ReplaceSpans(ReplaceSpans(t, BoldSpan), ItalicSpan), BlockCodeSpan), InlineCodeSpan)
  }

  /** The passes before the fix-up, in the order of bot.py:47-69. */
  function Cleaned(text: string): string {
    Strip.StripDisallowed(Bullets.ConvertBullets(Spanned(RewriteUnsupported(text, |UnsupportedTags|))))
  }

  /** The whole of convert_to_html, as a function of its input. */
  function Converted(text: string): string {
    Cleaned(text) + Closers(Cleaned(text), |CheckedKinds|)
  }

  /** Appending `n` closing tags of kind `j` adds `n` to that kind's closing count and nothing else. */
  lemma AppendCloserCounts(t: string, j: TagKind, n: nat, k: TagKind)
    ensures Count(k.Open(), t + Repeat(j.Close(), n)) == Count(k.Open(), t)
    ensures Count(k.Close(), t + Repeat(j.Close(), n)) == Count(k.Close(), t) + (if k == j then n else 0)
  {
    KindTagWords(k);
    KindTagWords(j);
    KindsDistinct(k, j);
    var x := Repeat(j.Close(), n);
    if n > 0 {
      assert x[0] == '<';
      assert '<' !in k.Open()[1..] && '<' !in k.Close()[1..];
    }
    CountSplit(k.Open(), t, x);
    CountSplit(k.Close(), t, x);
    CountRepeat(k.Open(), j.Close(), n);
    CountRepeat(k.Close(), j.Close(), n);
  }

  /**
   * After the first `n` iterations of the fix-up, the opening counts are
   * unchanged and each kind already handled has its missing closers added.
   */
  lemma {:induction false} ClosersCounts(t: string, n: nat, k: TagKind)
    requires n <= |CheckedKinds|
    ensures Count(k.Open(), t + Closers(t, n)) == Count(k.Open(), t)
    ensures Count(k.Close(), t + Closers(t, n)) == Count(k.Close(), t) + (if Rank(k) < n then Missing(t, k) else 0)
  {
    if n == 0 {
      assert t + Closers(t, n) == t;
    } else {
      ClosersCounts(t, n - 1, k);
      var j := CheckedKinds[n - 1];
      ClosersStep(t, n - 1);
      AppendCloserCounts(t + Closers(t, n - 1), j, Missing(t, j), k);
      assert (k == j) == (Rank(k) == n - 1);
    }
  }

  /** One more iteration of the fix-up appends the closers of the next kind. */
  lemma ClosersStep(t: string, n: nat)
    requires n < |CheckedKinds|
    ensures t + Closers(t, n + 1) == (t + Closers(t, n)) + Repeat(CheckedKinds[n].Close(), Missing(t, CheckedKinds[n]))
  {
  }

  /** Earlier iterations of the fix-up do not change the surplus of a kind not yet handled. */
  lemma MissingBefore(t: string, n: nat)
    requires n < |CheckedKinds|
    ensures Missing(t + Closers(t, n), CheckedKinds[n]) == Missing(t, CheckedKinds[n])
  {
    ClosersCounts(t, n, CheckedKinds[n]);
  }

  /**
   * The fix-up loop (bot.py:72-79). It keeps the text, appends closing tags
   * only, leaves every opening count alone, and raises each kind's closing
   * count to the larger of its two counts.
   */
  method BalanceTags(text: string) returns (r: string)
    ensures r == text + Closers(text, |CheckedKinds|)
    ensures forall k: TagKind :: Count(k.Open(), r) == Count(k.Open(), text)
    ensures forall k: TagKind ::
      Count(k.Close(), r) == Max(Count(k.Open(), text), Count(k.Close(), text))
  {
    r := text;
    for i := 0 to |CheckedKinds|
      invariant r == text + Closers(text, i)
    {
      var k := CheckedKinds[i];
      KindTagWords(k);
      FindAllIsCount(k.Open(), r);
      FindAllIsCount(k.Close(), r);
      var opening := FindAllCount(k.Open(), r);
      var closing := FindAllCount(k.Close(), r);
      MissingBefore(text, i);
      ClosersStep(text, i);
      ghost var m := Missing(text, k);
      assert opening > closing ==> m == opening - closing;
      assert opening <= closing ==> m == 0;
      if opening > closing {
        r := r + Repeat(k.Close(), opening - closing);
      } else {
        assert Repeat(k.Close(), m) == [];
      }
    }
    forall k: TagKind
      ensures Count(k.Open(), r) == Count(k.Open(), text)
      ensures Count(k.Close(), r) == Max(Count(k.Open(), text), Count(k.Close(), text))
    {
      AllClosersCounts(text, k);
    }
  }

  /** The complete fix-up keeps each opening count and raises each closing count to the larger of the two. */
  lemma AllClosersCounts(t: string, k: TagKind)
    ensures Count(k.Open(), t + Closers(t, |CheckedKinds|)) == Count(k.Open(), t)
    ensures Count(k.Close(), t + Closers(t, |CheckedKinds|)) == Max(Count(k.Open(), t), Count(k.Close(), t))
  {
    ClosersCounts(t, |CheckedKinds|, k);
  }

  /**
   * convert_to_html (bot.py:41-80): the unsupported-tag loop, the four span
   * passes, the bullet pass, the whitelist pass and the fix-up.
   */
  method ConvertToHtml(text: string) returns (r: string)
    ensures r == Converted(text)
    ensures forall k: TagKind :: Count(k.Open(), r) <= Count(k.Close(), r)
    ensures Count("<pre>", r) == 0
  {
    var t := text;
    for n := 0 to |UnsupportedTags|
      invariant t == RewriteUnsupported(text, n)
    {
      var name := UnsupportedTags[n];
      t := Rewrite(t, OpenTag(name));
      t := Rewrite(t, CloseTag(name));
    }
    SpansValid(BoldSpan);
    SpansValid(ItalicSpan);
    SpansValid(BlockCodeSpan);
    SpansValid(InlineCodeSpan);
    ghost var u := t;
    t := ReplaceSpans(t, BoldSpan);
    t := ReplaceSpans(t, ItalicSpan);
    t := ReplaceSpans(t, BlockCodeSpan);
    t := ReplaceSpans(t, InlineCodeSpan);
    assert t == Spanned(u);
    t := Bullets.ConvertBullets(t);
    t := Strip.StripDisallowed(t);
    r := BalanceTags(t);
    ConvertedBalanced(text);
    ConvertedNoPre(text);
  }

  /** After convert_to_html, no kind has more opening than closing tags. */
  lemma ConvertedBalanced(text: string)
    ensures forall k: TagKind :: Count(k.Open(), Converted(text)) <= Count(k.Close(), Converted(text))
  {
    forall k: TagKind
      ensures Count(k.Open(), Converted(text)) <= Count(k.Close(), Converted(text))
    {
      ClosersCounts(Cleaned(text), |CheckedKinds|, k);
    }
  }

  /** The fix-up only appends: the cleaned text is a prefix of the result, and what follows is closing tags. */
  lemma ConvertedKeepsPrefix(text: string)
    ensures var c := Cleaned(text);
      |c| <= |Converted(text)| && Converted(text)[..|c|] == c &&
      forall k: TagKind :: Count(k.Open(), Converted(text)) == Count(k.Open(), c)
  {
    var c := Cleaned(text);
    assert Converted(text)[..|c|] == c;
    forall k: TagKind
      ensures Count(k.Open(), Converted(text)) == Count(k.Open(), c)
    {
      ClosersCounts(c, |CheckedKinds|, k);
    }
  }

  /** A span pass of another kind keeps a kind's opening and closing counts. */
  lemma SpanPassKeepsOtherKind(s: string, sp: Span, k: TagKind)
    requires sp in {BoldSpan, ItalicSpan, BlockCodeSpan, InlineCodeSpan} && k != sp.kind
    ensures Count(k.Open(), ReplaceSpans(s, sp)) == Count(k.Open(), s)
  {
    SpansValid(sp);
    KindTagWords(k);
    KindTagWords(sp.kind);
    KindCounts(k, sp.kind);
    SpanPassCounts(s, sp, k.Open(), 0);
  }

  /** The span passes make no `<pre>`: each of them inserts only `<b>`, `<i>` or `<code>` pairs. */
  lemma SpannedKeepsPre(t: string)
    ensures Count(Pre.Open(), Spanned(t)) == Count(Pre.Open(), t)
  {
    SpansValid(BoldSpan);
    SpansValid(ItalicSpan);
    SpansValid(BlockCodeSpan);
    SpansValid(InlineCodeSpan);
    var t1 := ReplaceSpans(t, BoldSpan);
    var t2 := ReplaceSpans(t1, ItalicSpan);
    var t3 := ReplaceSpans(t2, BlockCodeSpan);
    SpanPassKeepsOtherKind(t, BoldSpan, Pre);
    SpanPassKeepsOtherKind(t1, ItalicSpan, Pre);
    SpanPassKeepsOtherKind(t2, BlockCodeSpan, Pre);
    SpanPassKeepsOtherKind(t3, InlineCodeSpan, Pre);
  }

  /** The unsupported-tag loop leaves no `<pre>`: `<p[^>]*>` turns each one into `<b>` (bot.py:49). */
  lemma RewrittenNoPre(text: string)
    ensures Count(Pre.Open(), RewriteUnsupported(text, |UnsupportedTags|)) == 0
  {
    UnsupportedTagsGone(text, |UnsupportedTags|);
    assert UnsupportedTags[8] == "p";
    NoParagraphNoPre(RewriteUnsupported(text, |UnsupportedTags|));
    assert Pre.Open() == "<pre>";
  }

  /**
   * No `<pre>` survives the cleaning passes: the unsupported-tag loop removes
   * every one, and neither the span, bullet nor whitelist pass makes one.
   */
  lemma CleanedNoPre(text: string)
    ensures Count(Pre.Open(), Cleaned(text)) == 0
  {
    var t0 := RewriteUnsupported(text, |UnsupportedTags|);
    RewrittenNoPre(text);
    SpannedKeepsPre(t0);
    var t4 := Spanned(t0);
    assert Bullets.Unspaced(Pre.Open());
    KindTagWords(Pre);
    Bullets.BulletsKeepCounts(t4, true, Pre.Open());
    Strip.StripCountAtMost(Bullets.ConvertBullets(t4), Pre.Open());
  }

  /** Hence convert_to_html never outputs an opening `<pre>`. */
  lemma ConvertedNoPre(text: string)
    ensures Count("<pre>", Converted(text)) == 0
  {
    CleanedNoPre(text);
    ClosersCounts(Cleaned(text), |CheckedKinds|, Pre);
    assert Pre.Open() == "<pre>";
  }

  /** Before the fix-up, every `<` with a `>` after it starts one of the ten allowed tags. */
  lemma CleanedOnlyAllowed(text: string)
    ensures Strip.OnlyAllowed(Cleaned(text))
  {
    Strip.StripLeavesOnlyAllowed(Bullets.ConvertBullets(Spanned(RewriteUnsupported(text, |UnsupportedTags|))));
  }

  /** A text with no span delimiter, no dash and no unsupported tag reaches the whitelist pass unchanged. */
  lemma CleanedPlain(t: string)
    requires '*' !in t && '`' !in t && '-' !in t && NoUnsupported(t)
    ensures Cleaned(t) == Strip.StripDisallowed(t)
  {
    NoUnsupportedKept(t, |UnsupportedTags|);
    SpansValid(BoldSpan);
    SpansValid(ItalicSpan);
    SpansValid(BlockCodeSpan);
    SpansValid(InlineCodeSpan);
    SpansKeepHead(t, BoldSpan);
    SpansKeepHead(t, ItalicSpan);
    SpansKeepHead(t, BlockCodeSpan);
    SpansKeepHead(t, InlineCodeSpan);
    assert Spanned(t) == t;
    Bullets.NoDashKept(t, true);
  }

  /** Where no kind misses a closing tag, the fix-up appends nothing. */
  lemma {:induction false} NoClosersNeeded(t: string, n: nat)
    requires n <= |CheckedKinds|
    requires forall k: TagKind :: Count(k.Open(), t) <= Count(k.Close(), t)
    ensures Closers(t, n) == []
  {
    if n > 0 {
      NoClosersNeeded(t, n - 1);
      assert Missing(t, CheckedKinds[n - 1]) == 0;
    }
  }

  /**
   * Text that is already clean is a fixed point of convert_to_html: no
   * markdown delimiter, no dash, none of the nine unsupported tags, only
   * allowed tags, and no kind with more opening than closing tags.
   */
  lemma ConvertedFixedPoint(t: string)
    requires '*' !in t && '`' !in t && '-' !in t && NoUnsupported(t) && Strip.OnlyAllowed(t)
    requires forall k: TagKind :: Count(k.Open(), t) <= Count(k.Close(), t)
    ensures Converted(t) == t
  {
    CleanedPlain(t);
    Strip.OnlyAllowedKept(t);
    NoClosersNeeded(t, |CheckedKinds|);
  }

  /** Text with none of the characters that any pass of convert_to_html reacts to. */
  predicate Inert(x: string) {
    '<' !in x && '>' !in x && '*' !in x && '`' !in x && '-' !in x
  }

  /** In `<b>` followed by `<`-free text, `<b>` occurs once and no other opening or closing tag occurs. */
  lemma BoldTextCounts(x: string, k: TagKind)
    requires '<' !in x
    ensures Count(k.Open(), Bold.Open() + x) == (if k == Bold then 1 else 0)
    ensures Count(k.Close(), Bold.Open() + x) == 0
  {
    var s := Bold.Open() + x;
    KindTagWords(k);
    CountFront(k.Open(), s);
    CountFront(k.Close(), s);
    assert s[1..] == Bold.Open()[1..] + x;
    CountAbsent(k.Open(), s[1..]);
    CountAbsent(k.Close(), s[1..]);
    assert k.Close()[1] == '/';
    if k != Bold {
      assert k.Open()[1] != 'b';
    }
  }

  /** The fix-up appends one `</b>` to `<b>` followed by `<`-free text, with or without a trailing `<`. */
  lemma BoldTextClosers(x: string, t: string)
    requires '<' !in x && (t == Bold.Open() + x || t == Bold.Open() + x + "<")
    ensures Closers(t, |CheckedKinds|) == Bold.Close()
  {
    forall k: TagKind
      ensures Count(k.Open(), t) == (if k == Bold then 1 else 0) && Count(k.Close(), t) == 0
    {
      BoldTextCounts(x, k);
      KindTagWords(k);
      CountSplit(k.Open(), Bold.Open() + x, "<");
      CountSplit(k.Close(), Bold.Open() + x, "<");
    }
    assert Missing(t, Bold) == 1 && Missing(t, Italic) == 0 && Missing(t, Code) == 0 && Missing(t, Pre) == 0;
    assert Repeat(Bold.Close(), 1) == Bold.Close();
    assert Closers(t, 1) == Bold.Close();
    assert Closers(t, 2) == Bold.Close();
    assert Closers(t, 3) == Bold.Close();
  }

  /** Where no disallowed `<…>` starts, the whitelist pass keeps the first character. */
  lemma StripKeepsFront(s: string)
    requires s != [] && !(Strip.TagAt(s) && !Strip.AllowedTagAt(s))
    ensures Strip.StripDisallowed(s) == [s[0]] + Strip.StripDisallowed(s[1..])
  {
  }

  /** The whitelist pass keeps an opening `<b>` at the front of a text and moves past it. */
  lemma StripKeepsBold(y: string)
    ensures Strip.StripDisallowed(Bold.Open() + y) == Bold.Open() + Strip.StripDisallowed(y)
  {
    var s := Bold.Open() + y;
    assert IsPrefix("<b>", s);
    assert Strip.AllowedTagAt(s);
    StripKeepsFront(s);
    assert s[1..][0] == 'b' && s[1..][1..][0] == '>';
    StripKeepsFront(s[1..]);
    StripKeepsFront(s[1..][1..]);
    assert s[1..][1..][1..] == y;
  }

  /** The whitelist pass keeps `<b>`, then `<`-free text, then a lone `<`. */
  lemma StripBoldText(x: string)
    requires Inert(x)
    ensures Strip.StripDisallowed(Bold.Open() + x + "<") == Bold.Open() + x + "<"
  {
    assert Bold.Open() + x + "<" == Bold.Open() + (x + "<");
    StripKeepsBold(x + "<");
    Strip.NoCloserKept(x + "<");
  }

  /** `<</b>` is one `<…>` that starts with no allowed tag, so the whitelist pass deletes all of it. */
  lemma DisallowedTail()
    ensures Strip.TagAt("<" + Bold.Close()) && !Strip.AllowedTagAt("<" + Bold.Close())
    ensures Strip.StripDisallowed("<" + Bold.Close()) == []
  {
    var tail := "<" + Bold.Close();
    assert tail[1..][3] == '>';
    forall t | t in Strip.AllowedTags
      ensures !IsPrefix(t, tail)
    {
      assert t[1] != '<';
    }
    assert Strip.TagEnd(tail) == |tail|;
  }

  /** Inert text before a disallowed `<…>` is kept, and the `<…>` is deleted. */
  lemma {:induction false} StripInertThenTail(x: string)
    requires Inert(x)
    ensures Strip.StripDisallowed(x + ("<" + Bold.Close())) == x
    decreases |x|
  {
    var s := x + ("<" + Bold.Close());
    if x == [] {
      assert s == "<" + Bold.Close();
      DisallowedTail();
    } else {
      assert s[0] == x[0] && s[1..] == x[1..] + ("<" + Bold.Close());
      StripKeepsFront(s);
      assert forall c :: c in x[1..] ==> c in x;
      StripInertThenTail(x[1..]);
    }
  }

  /** The whitelist pass turns `<b>`, inert text, `<</b>` into `<b>` and the text: `<</b>` is one disallowed `<…>`. */
  lemma StripBoldTextTwice(x: string)
    requires Inert(x)
    ensures Strip.StripDisallowed(Bold.Open() + x + "<" + Bold.Close()) == Bold.Open() + x
  {
    assert Bold.Open() + x + "<" + Bold.Close() == Bold.Open() + (x + ("<" + Bold.Close()));
    StripKeepsBold(x + ("<" + Bold.Close()));
    StripInertThenTail(x);
  }

  /** A text whose suffix at `i` starts with a disallowed `<…>` does not hold only allowed tags. */
  lemma {:induction false} NotOnlyAllowedAt(s: string, i: nat)
    requires i <= |s| && Strip.TagAt(s[i..]) && !Strip.AllowedTagAt(s[i..])
    ensures !Strip.OnlyAllowed(s)
    decreases i
  {
    if i > 0 {
      assert s[1..][i - 1..] == s[i..];
      NotOnlyAllowedAt(s[1..], i - 1);
    }
  }

  /** Text whose every `<` can start at most a bold tag, without delimiter or dash, reaches the whitelist pass unchanged. */
  lemma BoldOnlyCleaned(t: string)
    requires '*' !in t && '`' !in t && '-' !in t && BoldTagsOnly(t)
    ensures Cleaned(t) == Strip.StripDisallowed(t)
  {
    BoldTagsOnlyNoUnsupported(t);
    CleanedPlain(t);
  }

  /** In `<b>`, inert text, then a tail holding `<` only at its front and before `/b`, every `<` can start at most a bold tag. */
  lemma BoldTextBoldOnly(x: string, tail: string)
    requires Inert(x) && (tail == "<" || tail == "<" + Bold.Close())
    ensures BoldTagsOnly(Bold.Open() + x + tail)
  {
    var s := Bold.Open() + x + tail;
    var n := 3 + |x|;
    forall j | 0 < j < n
      ensures s[j] != '<'
    {
      if j < 3 {
        assert s[j] == Bold.Open()[j];
      } else {
        assert s[j] == x[j - 3];
      }
    }
    assert s[n..] == tail;
  }

  /** convert_to_html closes an unclosed `<b>` after a stray `<`: `<b>x<` becomes `<b>x<</b>`. */
  lemma ConvertedUnclosedBold(x: string)
    requires Inert(x)
    ensures Converted(Bold.Open() + x + "<") == Bold.Open() + x + "<" + Bold.Close()
  {
    var a := Bold.Open() + x + "<";
    BoldTextBoldOnly(x, "<");
    BoldOnlyCleaned(a);
    StripBoldText(x);
    BoldTextClosers(x, a);
  }

  /** convert_to_html deletes the `<</b>` of `<b>x<</b>` and appends a fresh `</b>`. */
  lemma ConvertedStrayCloser(x: string)
    requires Inert(x)
    ensures Converted(Bold.Open() + x + "<" + Bold.Close()) == Bold.Open() + x + Bold.Close()
  {
    var b := Bold.Open() + x + "<" + Bold.Close();
    assert b == Bold.Open() + x + ("<" + Bold.Close());
    BoldTextBoldOnly(x, "<" + Bold.Close());
    BoldOnlyCleaned(b);
    StripBoldTextTwice(x);
    BoldTextClosers(x, Bold.Open() + x);
  }

  /**
   * convert_to_html is not idempotent: `<b>x<`, for any inert text x, becomes
   * `<b>x<</b>`, and a second run gives `<b>x</b>`.
   */
  lemma ConvertedNotIdempotent(x: string)
    requires Inert(x)
    ensures Converted(Bold.Open() + x + "<") == Bold.Open() + x + "<" + Bold.Close()
    ensures Converted(Converted(Bold.Open() + x + "<")) == Bold.Open() + x + Bold.Close()
    ensures Converted(Converted(Bold.Open() + x + "<")) != Converted(Bold.Open() + x + "<")
  {
    ConvertedUnclosedBold(x);
    ConvertedStrayCloser(x);
    assert |Bold.Open() + x + Bold.Close()| < |Bold.Open() + x + "<" + Bold.Close()|;
  }

  /**
   * The output of convert_to_html can hold a `<…>` that is not an allowed
   * tag: the `<</b>` that the fix-up makes out of a stray `<` in `<b>x<`.
   */
  lemma ConvertedNotOnlyAllowed(x: string)
    requires Inert(x)
    ensures !Strip.OnlyAllowed(Converted(Bold.Open() + x + "<"))
  {
    var b := Bold.Open() + x + "<" + Bold.Close();
    ConvertedUnclosedBold(x);
    assert b[3 + |x|..] == "<" + Bold.Close();
    DisallowedTail();
    NotOnlyAllowedAt(b, 3 + |x|);
  }
}
