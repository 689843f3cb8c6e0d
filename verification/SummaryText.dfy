/** The wrapped summary cannot be closed from within (pi/harness/compaction.go). */
module SummaryText {
  import opened Compaction

  predicate At(s: string, tag: string, i: int) { 0 <= i <= |s| - |tag| && s[i..i + |tag|] == tag }

  /** A tag and its replacement, each opened by its only bracket, that differ right behind it. */
  predicate Escapable(tag: string, sub: string) {
    && |tag| > 1 && |sub| > 1 && tag[0] == '<' && sub[0] == '<' && tag[1] != sub[1]
    && (forall j :: 0 < j < |tag| ==> tag[j] != '<')
    && (forall j :: 0 < j < |sub| ==> sub[j] != '<')
  }

  lemma AtChar(s: string, tag: string, i: int, j: nat)
    requires At(s, tag, i) && j < |tag|
    ensures s[i + j] == tag[j]
  {
    assert s[i..i + |tag|][j] == s[i + j];
  }

  lemma TwoChars(s: string, tag: string, i: int)
    requires |tag| > 1
    ensures At(s, tag, i) ==> 0 <= i < |s| - 1 && s[i] == tag[0] && s[i + 1] == tag[1]
  {
    if At(s, tag, i) {
      AtChar(s, tag, i, 0);
      AtChar(s, tag, i, 1);
    }
  }

  /** Output without an opening bracket was copied. */
  lemma {:induction false} Copied(s: string, tag: string, sub: string, n: nat)
    requires Escapable(tag, sub) && n <= |ReplaceAll(s, tag, sub)|
    requires forall j :: 0 <= j < n ==> ReplaceAll(s, tag, sub)[j] != '<'
    ensures n <= |s| && s[..n] == ReplaceAll(s, tag, sub)[..n]
  {
    var out := ReplaceAll(s, tag, sub);
    if n > 0 && |s| >= |tag| {
      assert out[0] != '<';
      var rest := ReplaceAll(s[1..], tag, sub);
      assert out == [s[0]] + rest;
      forall j | 0 <= j < n - 1 ensures rest[j] != '<' { assert out[j + 1] != '<'; }
      Copied(s[1..], tag, sub, n - 1);
      assert s[..n] == [s[0]] + s[1..][..n - 1];
      assert out[..n] == [s[0]] + rest[..n - 1];
    }
  }

  /** A tag that starts with a copied letter was there before. */
  lemma {:induction false} TagAtStart(s: string, tag: string, sub: string)
    requires Escapable(tag, sub) && |s| >= |tag| && At([s[0]] + ReplaceAll(s[1..], tag, sub), tag, 0)
    ensures s[..|tag|] == tag
  {
    var rest, n := ReplaceAll(s[1..], tag, sub), |tag|;
    var out := [s[0]] + rest;
    forall j | 0 <= j < n - 1 ensures rest[j] == tag[j + 1] { AtChar(out, tag, 0, j + 1); }
    Copied(s[1..], tag, sub, n - 1);
    AtChar(out, tag, 0, 0);
    assert s[..n] == [s[0]] + s[1..][..n - 1];
    assert rest[..n - 1] == tag[1..];
  }

  /** An occurrence behind a prefix is an occurrence in what follows the prefix. */
  lemma BehindPrefix(head: string, rest: string, tag: string, i: int)
    requires |head| <= i && At(head + rest, tag, i)
    ensures At(rest, tag, i - |head|)
  {
    assert rest[i - |head|..][..|tag|] == (head + rest)[i..][..|tag|];
  }

  /** Replacing a tag leaves none behind. */
  lemma {:induction false} NoTagRemains(s: string, tag: string, sub: string, i: int)
    requires Escapable(tag, sub)
    ensures !At(ReplaceAll(s, tag, sub), tag, i)
    decreases |s|
  {
    var out := ReplaceAll(s, tag, sub);
    if |s| >= |tag| && At(out, tag, i) {
      if s[..|tag|] == tag {
        if i < |sub| {
          TwoChars(out, tag, i);
        } else {
          BehindPrefix(sub, ReplaceAll(s[|tag|..], tag, sub), tag, i);
          NoTagRemains(s[|tag|..], tag, sub, i - |sub|);
        }
      } else if i > 0 {
        BehindPrefix([s[0]], ReplaceAll(s[1..], tag, sub), tag, i);
        NoTagRemains(s[1..], tag, sub, i - 1);
      } else {
        assert i == 0;
        TagAtStart(s, tag, sub);
      }
    }
  }

  /** A tag free of line breaks lies before a line break, or behind it. */
  lemma AroundBreak(a: string, b: string, tag: string, i: int)
    requires '\n' !in tag && tag != "" && At(a + "\n" + b, tag, i)
    ensures At(a, tag, i) || At(b, tag, i - |a| - 1)
  {
    var s := a + "\n" + b;
    if i + |tag| <= |a| {
      assert a[i..i + |tag|] == s[i..i + |tag|];
    } else if i > |a| {
      assert b[i - |a| - 1..][..|tag|] == s[i..][..|tag|];
    } else {
      AtChar(s, tag, i, |a| - i);
    }
  }

  lemma TagLetters()
    ensures Escapable(CLOSE_TAG, ESCAPED_TAG) && '\n' !in CLOSE_TAG
  {}

  lemma WrapperLetters()
    ensures |OPEN_TAG| > 1 && OPEN_TAG[1] == 'c' && (forall j :: 0 < j < |OPEN_TAG| ==> OPEN_TAG[j] != '<')
    ensures CLOSE_TAG[0] == '<' && CLOSE_TAG[1] == '/' && '<' !in NOTE
  {}

  lemma Inert(s: string, i: int)
    requires |s| > 1 && s[1] != CLOSE_TAG[1] && forall j :: 0 < j < |s| ==> s[j] != '<'
    ensures !At(s, CLOSE_TAG, i)
  {
    TwoChars(s, CLOSE_TAG, i);
  }

  /** Whatever a summary says, its wrapper is closed once: at the very end. */
  lemma ClosedOnce(summary: string, i: int)
    ensures At(Wrap(summary), CLOSE_TAG, i) <==> i == |Wrap(summary)| - |CLOSE_TAG|
  {
    TagLetters();
    WrapperLetters();
    var body := Escape(summary);
    var tail := body + "\n" + CLOSE_TAG;
    var w := Wrap(summary);
    assert w == OPEN_TAG + "\n" + (NOTE + "\n" + tail);
    assert w[|w| - |CLOSE_TAG|..] == CLOSE_TAG;
    if At(w, CLOSE_TAG, i) {
      AroundBreak(OPEN_TAG, NOTE + "\n" + tail, CLOSE_TAG, i);
      Inert(OPEN_TAG, i);
      var j := i - |OPEN_TAG| - 1;
      AroundBreak(NOTE, tail, CLOSE_TAG, j);
      TwoChars(NOTE, CLOSE_TAG, j);
      AroundBreak(body, CLOSE_TAG, CLOSE_TAG, j - |NOTE| - 1);
      NoTagRemains(summary, CLOSE_TAG, ESCAPED_TAG, j - |NOTE| - 1);
    }
  }
}
