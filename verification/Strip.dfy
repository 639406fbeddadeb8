/**
 * The two tag-removing substitutions of bot.py:
 *  - the whitelist pass of convert_to_html (bot.py:69), which deletes every
 *    `<…>` that does not start with one of the ten allowed tags;
 *  - the plain-text degrade of error_handler (bot.py:780, 786), which deletes
 *    every `<…>`.
 * Both scan left to right: at a `<` that begins a match, the match runs to
 * the first `>` after it (`[^>]*>`, which also crosses newlines and other
 * `<`), and the scan resumes after that `>`.
 */
module Strip {
  import opened Strings

  /** The tags the negative lookahead `(?!/?b>|/?i>|/?code>|/?pre>|/?a>)` lets through. */
  const AllowedTags: seq<string> :=
    ["<b>", "</b>", "<i>", "</i>", "<code>", "</code>", "<pre>", "</pre>", "<a>", "</a>"]

  /** `s` starts with an allowed tag, so the lookahead fails there. */
  predicate AllowedTagAt(s: string) {
    exists t :: t in AllowedTags && IsPrefix(t, s)
  }

  /** A `<` at the front of `s` that has a `>` somewhere after it: `<[^>]*>` matches there. */
  predicate TagAt(s: string) {
    s != [] && s[0] == '<' && '>' in s[1..]
  }

  /** Index just past the first `>` after the front `<`: where the scan resumes. */
  function TagEnd(s: string): (e: nat)
    requires TagAt(s)
    ensures 2 <= e <= |s| && s[e - 1] == '>' && '>' !in s[1..e - 1]
  {
    var k := Find(s[1..], '>');
    assert s[1..1 + k] == s[1..][..k];
    2 + k
  }

  /** `re.sub(r'<(?!/?b>|/?i>|/?code>|/?pre>|/?a>)[^>]*>', '', s)`. */
  function StripDisallowed(s: string): string
    decreases |s|
  {
    if s == [] then []
    else if TagAt(s) && !AllowedTagAt(s) then StripDisallowed(s[TagEnd(s)..])
    else [s[0]] + StripDisallowed(s[1..])
  }

  /** `re.sub(r'<[^>]*>', '', s)`. */
  function StripTags(s: string): string
    decreases |s|
  {
    if s == [] then []
    else if TagAt(s) then StripTags(s[TagEnd(s)..])
    else [s[0]] + StripTags(s[1..])
  }

  /** Every `<` with a `>` after it starts an allowed tag. */
  predicate OnlyAllowed(s: string)
    decreases |s|
  {
    s == [] || ((TagAt(s) ==> AllowedTagAt(s)) && OnlyAllowed(s[1..]))
  }

  /** No `<` has a `>` after it: there is no `<…>` left. */
  predicate TagFree(s: string)
    decreases |s|
  {
    s == [] || (!TagAt(s) && TagFree(s[1..]))
  }

  /** The recursive definition of `TagFree` says no `<` comes before any `>`. */
  lemma {:induction false} TagFreeMeans(s: string)
    ensures TagFree(s) <==> forall i, j :: 0 <= i < j < |s| ==> !(s[i] == '<' && s[j] == '>')
    decreases |s|
  {
    if s != [] {
      TagFreeMeans(s[1..]);
      if TagFree(s) {
        forall i, j | 0 <= i < j < |s|
          ensures !(s[i] == '<' && s[j] == '>')
        {
          if i == 0 {
            assert s[1..][j - 1] == s[j];
          } else {
            assert s[1..][i - 1] == s[i] && s[1..][j - 1] == s[j];
          }
        }
      } else if TagAt(s) {
        var k := Find(s[1..], '>');
        assert s[1 + k] == '>';
      } else {
        var i, j :| 0 <= i < j < |s[1..]| && s[1..][i] == '<' && s[1..][j] == '>';
        assert s[i + 1] == '<' && s[j + 1] == '>';
      }
    }
  }

  /** A text with no `>` is left alone by either pass. */
  lemma {:induction false} NoCloserKept(s: string)
    requires '>' !in s
    ensures StripDisallowed(s) == s && StripTags(s) == s
    decreases |s|
  {
    if s != [] {
      assert s[1..] == s[1..];
      assert !TagAt(s) by {
        assert forall c :: c in s[1..] ==> c in s;
      }
      NoCloserKept(s[1..]);
    }
  }

  /** Each pass keeps the text before the first `<`. */
  lemma {:induction false} StripKeepsHead(s: string)
    ensures var g := Find(s, '<');
      g <= |StripDisallowed(s)| && StripDisallowed(s)[..g] == s[..g] &&
      g <= |StripTags(s)| && StripTags(s)[..g] == s[..g]
    decreases |s|
  {
    if s != [] && s[0] != '<' {
      StripKeepsHead(s[1..]);
      var g := Find(s[1..], '<');
      assert StripDisallowed(s) == [s[0]] + StripDisallowed(s[1..]);
      assert StripTags(s) == [s[0]] + StripTags(s[1..]);
      assert s[..g + 1] == [s[0]] + s[1..][..g];
      assert ([s[0]] + StripDisallowed(s[1..]))[..g + 1] == [s[0]] + StripDisallowed(s[1..])[..g];
      assert ([s[0]] + StripTags(s[1..]))[..g + 1] == [s[0]] + StripTags(s[1..])[..g];
    }
  }

  /** Each allowed tag is a tag word: one `<` at its front, one `>` at its end. */
  lemma AllowedAreTagWords(t: string)
    requires t in AllowedTags
    ensures IsTagWord(t)
  {
  }

  /** A kept allowed tag comes out whole: the pass copies its tail, which holds no `<`. */
  lemma AllowedTagKept(s: string, t: string)
    requires t in AllowedTags && IsPrefix(t, s)
    ensures IsPrefix(t, [s[0]] + StripDisallowed(s[1..]))
  {
    AllowedAreTagWords(t);
    var u := s[1..];
    var r := StripDisallowed(u);
    StripKeepsHead(u);
    var g := Find(u, '<');
    assert forall k :: 0 <= k < |t| - 1 ==> u[k] == t[k + 1];
    assert g >= |t| - 1;
    assert r[..|t| - 1] == u[..|t| - 1] by {
      assert r[..|t| - 1] == r[..g][..|t| - 1];
      assert u[..|t| - 1] == u[..g][..|t| - 1];
    }
    assert ([s[0]] + r)[..|t|] == [s[0]] + r[..|t| - 1];
    assert s[..|t|] == [s[0]] + u[..|t| - 1];
  }

  /**
   * After the whitelist pass, every `<` that has a `>` after it starts one
   * of the ten allowed tags (bot.py:69): `<a href=…>`, `<script>`, `<br>`
   * and every other tag are gone.
   */
  lemma {:induction false} StripLeavesOnlyAllowed(s: string)
    ensures OnlyAllowed(StripDisallowed(s))
    decreases |s|
  {
    if s != [] {
      if TagAt(s) && !AllowedTagAt(s) {
        StripLeavesOnlyAllowed(s[TagEnd(s)..]);
      } else {
        StripLeavesOnlyAllowed(s[1..]);
        var out := [s[0]] + StripDisallowed(s[1..]);
        assert StripDisallowed(s) == out;
        assert out[1..] == StripDisallowed(s[1..]);
        if AllowedTagAt(s) {
          var t :| t in AllowedTags && IsPrefix(t, s);
          AllowedTagKept(s, t);
        } else if s[0] == '<' {
          NoCloserKept(s[1..]);
          assert out == s;
        }
      }
    }
  }

  /** A text holding only allowed tags is a fixed point of the whitelist pass. */
  lemma {:induction false} OnlyAllowedKept(s: string)
    requires OnlyAllowed(s)
    ensures StripDisallowed(s) == s
    decreases |s|
  {
    if s != [] {
      OnlyAllowedKept(s[1..]);
    }
  }

  /** The whitelist pass is idempotent. */
  lemma StripDisallowedIdempotent(s: string)
    ensures StripDisallowed(StripDisallowed(s)) == StripDisallowed(s)
  {
    StripLeavesOnlyAllowed(s);
    OnlyAllowedKept(StripDisallowed(s));
  }

  /** The degrade pass leaves no `<…>`: no `<` before any `>` (bot.py:780, 786). */
  lemma {:induction false} StripTagsLeavesNoTag(s: string)
    ensures TagFree(StripTags(s))
    ensures forall i, j :: 0 <= i < j < |StripTags(s)| ==> !(StripTags(s)[i] == '<' && StripTags(s)[j] == '>')
    decreases |s|
  {
    if s != [] {
      if TagAt(s) {
        StripTagsLeavesNoTag(s[TagEnd(s)..]);
      } else {
        StripTagsLeavesNoTag(s[1..]);
        var out := [s[0]] + StripTags(s[1..]);
        assert StripTags(s) == out;
        assert out[1..] == StripTags(s[1..]);
        if s[0] == '<' {
          NoCloserKept(s[1..]);
          assert out == s;
        }
      }
    }
    TagFreeMeans(StripTags(s));
  }

  /** A tag-free text is a fixed point of the degrade pass. */
  lemma {:induction false} TagFreeKept(s: string)
    requires TagFree(s)
    ensures StripTags(s) == s
    decreases |s|
  {
    if s != [] {
      TagFreeKept(s[1..]);
    }
  }

  /** The degrade pass is idempotent: applying it twice equals applying it once. */
  lemma StripTagsIdempotent(s: string)
    ensures StripTags(StripTags(s)) == StripTags(s)
  {
    StripTagsLeavesNoTag(s);
    TagFreeKept(StripTags(s));
  }

  /** Two tag words that both start a text are the same word. */
  lemma TagWordsAtSamePlace(w: string, t: string, x: string)
    requires IsTagWord(w) && IsTagWord(t) && IsPrefix(w, x) && IsPrefix(t, x)
    ensures w == t
  {
    var m := if |w| <= |t| then |w| - 1 else |t| - 1;
    assert w[m] == x[m] == t[m];
    assert |w| == |t|;
    assert w == x[..|w|] == t;
  }

  /**
   * The whitelist pass never adds an occurrence of a tag word: every tag in
   * its output was already at that place in its input. (It can remove some:
   * in `<x<pre>` the match from the first `<` swallows the `<pre>`.)
   */
  lemma {:induction false} StripCountAtMost(s: string, w: string)
    requires IsTagWord(w)
    ensures Count(w, StripDisallowed(s)) <= Count(w, s)
    decreases |s|
  {
    if s != [] {
      if TagAt(s) && !AllowedTagAt(s) {
        StripCountAtMost(s[TagEnd(s)..], w);
        CountSuffix(w, s, TagEnd(s));
      } else {
        StripCountAtMost(s[1..], w);
        var out := [s[0]] + StripDisallowed(s[1..]);
        assert StripDisallowed(s) == out;
        assert out[1..] == StripDisallowed(s[1..]);
        CountFront(w, s);
        CountFront(w, out);
        if AllowedTagAt(s) {
          var t :| t in AllowedTags && IsPrefix(t, s);
          AllowedTagKept(s, t);
          AllowedAreTagWords(t);
          if IsPrefix(w, out) {
            TagWordsAtSamePlace(w, t, out);
          }
        } else if s[0] == '<' {
          NoCloserKept(s[1..]);
          assert out == s;
        }
      }
    }
  }
}
