/** The HTML stripping of the search scripts: the substitution
    `re.sub('<.*?>', ' ', text)`, which replaces every tag by one space, and
    the whitespace collapse `' '.join(text.split())` that the main script
    applies after it. */
module Markup {
  import opened Common

  /** Python's `str.isspace` for one character: the characters that
      `str.split()` without an argument splits on. */
  predicate IsSpace(c: char) {
    var n := c as int;
    (9 <= n <= 13) || (28 <= n <= 32) || n == 0x85 || n == 0xA0 || n == 0x1680
    || (0x2000 <= n <= 0x200A) || n == 0x2028 || n == 0x2029 || n == 0x202F
    || n == 0x205F || n == 0x3000
  }

  // ---------------------------------------------------------------------
  // re.sub('<.*?>', ' ', s)
  // ---------------------------------------------------------------------

  /** Where the tag whose '<' stands just before position `k` ends: the first
      '>' at or after `k`, provided no newline comes before it (`.` matches
      every character but a newline, and `*?` takes as few as it can). */
  function TagClose(s: string, k: nat): (r: Option<nat>)
    requires k <= |s|
    decreases |s| - k
    ensures r.Some? ==>
      (k <= r.value < |s| && s[r.value] == '>' && '>' !in s[k..r.value] && '\n' !in s[k..r.value])
    ensures r.None? ==> forall j :: k <= j < |s| && s[j] == '>' ==> '\n' in s[k..j]
  {
    if k == |s| then None
    else if s[k] == '>' then Some(k)
    else if s[k] == '\n' then
      assert forall j :: k < j <= |s| ==> s[k..j][0] == '\n';
      None
    else
      var r := TagClose(s, k + 1);
      assert forall j :: k < j <= |s| ==> s[k..j] == [s[k]] + s[k + 1..j];
      r
  }

  /** `re.sub('<.*?>', ' ', s)`: scanning left to right, a '<' that has a
      closing '>' before any newline starts a tag, and the whole tag becomes
      one space; every other character is kept. The result is never longer,
      and holds only spaces and characters of `s`. */
  function SubTags(s: string): (r: string)
    decreases |s|
    ensures |r| <= |s|
    ensures forall i :: 0 <= i < |r| ==> r[i] == ' ' || r[i] in s
  {
    if s == [] then []
    else if s[0] == '<' then
      match TagClose(s, 1)
      case Some(j) => " " + SubTags(s[j + 1..])
      case None => "<" + SubTags(s[1..])
    else [s[0]] + SubTags(s[1..])
  }

  lemma {:induction false} TagCloseAt(s: string, k: nat, j: nat)
    requires k <= j < |s| && s[j] == '>'
    requires '>' !in s[k..j] && '\n' !in s[k..j]
    ensures TagClose(s, k) == Some(j)
    decreases j - k
  {
    if k < j {
      assert s[k] == s[k..j][0];
      assert s[k + 1..j] == s[k..j][1..];
      TagCloseAt(s, k + 1, j);
    }
  }

  /** Text before the first '<' passes through the substitution unchanged. */
  lemma {:induction false} PlainTextKept(p: string, s: string)
    requires '<' !in p
    ensures SubTags(p + s) == p + SubTags(s)
  {
    if p != [] {
      var t := p + s;
      assert t[0] == p[0] && p[0] in p;
      assert t[1..] == p[1..] + s;
      assert forall c :: c in p[1..] ==> c in p;
      PlainTextKept(p[1..], s);
      calc {
        SubTags(t);
        [t[0]] + SubTags(t[1..]);
        [p[0]] + (p[1..] + SubTags(s));
        { assert [p[0]] + p[1..] == p; }
        p + SubTags(s);
      }
    } else {
      assert p + s == s;
    }
  }

  /** A tag, '<' then characters other than '>' and newline then '>', is
      replaced by exactly one space, and the scan resumes after it. */
  lemma TagBecomesSpace(body: string, rest: string)
    requires '>' !in body && '\n' !in body
    ensures SubTags("<" + body + ">" + rest) == " " + SubTags(rest)
  {
    var s := "<" + body + ">" + rest;
    assert s[1..|body| + 1] == body;
    TagCloseAt(s, 1, |body| + 1);
    assert s[|body| + 2..] == rest;
  }

  /** A '<' with no '>' after it on the same line is not a tag: it is kept, and
      the scan goes on with the next character. */
  lemma UnclosedKept(s: string)
    requires |s| > 0 && s[0] == '<'
    requires forall j :: 1 <= j < |s| && s[j] == '>' ==> '\n' in s[1..j]
    ensures SubTags(s) == "<" + SubTags(s[1..])
  {
  }

  /** Text containing no '<' is returned unchanged by the substitution. */
  lemma NoMarkupUnchanged(s: string)
    requires '<' !in s
    ensures SubTags(s) == s
  {
    PlainTextKept(s, []);
    assert s + [] == s;
  }

  /** No '<' is followed, anywhere later, by a '>': the substitution has
      nothing to replace. */
  predicate TagFree(t: string) {
    |t| == 0 || (if t[0] == '<' then '>' !in t[1..] else TagFree(t[1..]))
  }

  lemma {:induction false} NoCloserTagFree(t: string)
    requires '>' !in t
    ensures TagFree(t)
  {
    if |t| > 0 {
      assert forall c :: c in t[1..] ==> c in t;
      NoCloserTagFree(t[1..]);
    }
  }

  /** A string without tags is a fixed point of the substitution. */
  lemma {:induction false} TagFreeUnchanged(t: string)
    requires TagFree(t)
    ensures SubTags(t) == t
  {
    if |t| > 0 {
      if t[0] == '<' {
        match TagClose(t, 1)
        case Some(j) =>
          assert false;
        case None =>
          NoCloserTagFree(t[1..]);
          TagFreeUnchanged(t[1..]);
      } else {
        TagFreeUnchanged(t[1..]);
      }
    }
  }

  /** On a single line, a '<' without a tag closer has no '>' after it. */
  lemma UnclosedOnOneLine(s: string)
    requires '\n' !in s && |s| > 0
    requires TagClose(s, 1).None?
    ensures '>' !in s[1..]
  {
    forall j | 1 <= j < |s| ensures s[j] != '>' {
      assert forall c :: c in s[1..j] ==> c in s;
    }
  }

  /** The substitution brings in no character but the space. */
  lemma SubTagsAddsOnlySpaces(s: string, c: char)
    requires c != ' ' && c !in s
    ensures c !in SubTags(s)
  {
    var x := SubTags(s);
    forall i | 0 <= i < |x| ensures x[i] != c {
      assert x[i] == ' ' || x[i] in s;
    }
  }

  /** On text without newlines, the substitution leaves no tag behind. */
  lemma {:induction false} SubTagsTagFree(s: string)
    requires '\n' !in s
    ensures TagFree(SubTags(s))
    decreases |s|
  {
    if s != [] {
      var r := SubTags(s);
      if s[0] == '<' {
        match TagClose(s, 1)
        case Some(j) =>
          assert forall c :: c in s[j + 1..] ==> c in s;
          SubTagsTagFree(s[j + 1..]);
          assert r[1..] == SubTags(s[j + 1..]);
        case None =>
          UnclosedOnOneLine(s);
          SubTagsAddsOnlySpaces(s[1..], '>');
          assert r[1..] == SubTags(s[1..]);
      } else {
        assert forall c :: c in s[1..] ==> c in s;
        SubTagsTagFree(s[1..]);
        assert r[1..] == SubTags(s[1..]);
      }
    }
  }

  /** No '>' can be reached from the start of `u` without crossing a newline:
      a '<' just before `u` does not open a tag. */
  predicate NoCloser(u: string) {
    |u| == 0 || (u[0] != '>' && (u[0] == '\n' || NoCloser(u[1..])))
  }

  /** The scan for a tag closer from `k` fails exactly when the rest of `s`
      offers no closer. */
  lemma {:induction false} TagCloseNone(s: string, k: nat)
    requires k <= |s|
    ensures TagClose(s, k).None? <==> NoCloser(s[k..])
    decreases |s| - k
  {
    if k < |s| {
      assert s[k..][0] == s[k] && s[k..][1..] == s[k + 1..];
      TagCloseNone(s, k + 1);
    }
  }

  /** The substitution keeps a text without reachable closer so: it removes
      only tags, which a newline never lies in. */
  lemma {:induction false} SubTagsKeepsNoCloser(u: string)
    requires NoCloser(u)
    ensures NoCloser(SubTags(u))
    decreases |u|
  {
    if u != [] && u[0] != '\n' {
      var r := SubTags(u);
      SubTagsKeepsNoCloser(u[1..]);
      if u[0] == '<' {
        TagCloseNone(u, 1);
        assert r == "<" + SubTags(u[1..]);
      } else {
        assert r == [u[0]] + SubTags(u[1..]);
      }
      assert r[1..] == SubTags(u[1..]);
    }
  }

  /** Every '<' of `t` is left alone by the substitution: none opens a tag. */
  predicate NoTags(t: string) {
    |t| == 0 || ((t[0] == '<' ==> NoCloser(t[1..])) && NoTags(t[1..]))
  }

  /** A text in which no '<' opens a tag is a fixed point of the substitution. */
  lemma {:induction false} NoTagsUnchanged(t: string)
    requires NoTags(t)
    ensures SubTags(t) == t
    decreases |t|
  {
    if t != [] {
      NoTagsUnchanged(t[1..]);
      if t[0] == '<' {
        TagCloseNone(t, 1);
      }
    }
  }

  /** No '<' left in the output of the substitution opens a tag. */
  lemma {:induction false} SubTagsNoTags(s: string)
    ensures NoTags(SubTags(s))
    decreases |s|
  {
    if s != [] {
      var r := SubTags(s);
      if s[0] == '<' {
        match TagClose(s, 1)
        case Some(j) =>
          SubTagsNoTags(s[j + 1..]);
          assert r[1..] == SubTags(s[j + 1..]);
        case None =>
          SubTagsNoTags(s[1..]);
          TagCloseNone(s, 1);
          SubTagsKeepsNoCloser(s[1..]);
          assert r[1..] == SubTags(s[1..]);
      } else {
        SubTagsNoTags(s[1..]);
        assert r[1..] == SubTags(s[1..]);
      }
    }
  }

  /** The substitution is idempotent on every text: a '<' it keeps has a
      newline before every later '>', and that newline survives. */
  lemma SubTagsIdempotent(s: string)
    ensures SubTags(SubTags(s)) == SubTags(s)
  {
    SubTagsNoTags(s);
    NoTagsUnchanged(SubTags(s));
  }

  lemma ClosingTagExample()
    ensures SubTags("</b>") == " "
  {
    assert "</b>" == "<" + "/b" + ">" + "";
    TagBecomesSpace("/b", "");
  }

  lemma WordBeforeTagExample()
    ensures SubTags("cat</b>") == "cat "
  {
    assert "cat</b>" == "cat" + "</b>";
    PlainTextKept("cat", "</b>");
    ClosingTagExample();
  }

  /** The running example: `<b>cat</b>` keeps a space for each tag. */
  lemma SubTagsExample()
    ensures SubTags("<b>cat</b>") == " cat "
  {
    assert "<b>cat</b>" == "<" + "b" + ">" + "cat</b>";
    TagBecomesSpace("b", "cat</b>");
    WordBeforeTagExample();
  }

  // ---------------------------------------------------------------------
  // ' '.join(s.split())
  // ---------------------------------------------------------------------

  /** No whitespace character in `w`. */
  predicate SpaceFree(w: string) {
    forall i :: 0 <= i < |w| ==> !IsSpace(w[i])
  }

  /** A word of `str.split()`: a non-empty run of non-whitespace characters. */
  predicate IsWord(w: string) {
    w != [] && SpaceFree(w)
  }

  /** The words of `s`, after the word `cur` that the scan has begun. */
  function WordsFrom(s: string, cur: string): (ws: seq<string>)
    requires SpaceFree(cur)
    ensures forall k :: 0 <= k < |ws| ==> IsWord(ws[k])
    decreases |s|
  {
    if s == [] then (if cur == [] then [] else [cur])
    else if IsSpace(s[0]) then
      (if cur == [] then WordsFrom(s[1..], []) else [cur] + WordsFrom(s[1..], []))
    else WordsFrom(s[1..], cur + [s[0]])
  }

  /** `s.split()`: the maximal runs of non-whitespace characters, in order. */
  function Words(s: string): seq<string> {
    WordsFrom(s, [])
  }

  /** `' '.join(s.split())`. */
  function Collapse(s: string): string {
    JoinWith(Words(s), " ")
  }

  /** `_strip_html` of the main script: tags become spaces, then runs of
      whitespace become single spaces and the ends are trimmed. */
  function StripHtml(s: string): string {
    Collapse(SubTags(s))
  }

  /** What `' '.join(s.split())` promises: no whitespace at either end, never two
      whitespace characters in a row, and no whitespace but ' '. */
  predicate Normalised(t: string) {
    && (|t| > 0 ==> !IsSpace(t[0]) && !IsSpace(t[|t| - 1]))
    && (forall i :: 0 <= i < |t| && IsSpace(t[i]) ==> t[i] == ' ')
    && (forall i :: 0 <= i < |t| - 1 ==> !(IsSpace(t[i]) && IsSpace(t[i + 1])))
  }

  /** The non-whitespace characters of `s`, in order. */
  function Visible(s: string): string {
    if s == [] then [] else (if IsSpace(s[0]) then [] else [s[0]]) + Visible(s[1..])
  }

  /** The words written one after another. */
  function Concat(ws: seq<string>): string {
    if ws == [] then [] else ws[0] + Concat(ws[1..])
  }

  /** Words joined by single spaces form a normalised string. */
  lemma {:induction false} JoinWordsNormalised(ws: seq<string>)
    requires forall k :: 0 <= k < |ws| ==> IsWord(ws[k])
    ensures Normalised(JoinWith(ws, " "))
    ensures |ws| > 0 ==> |JoinWith(ws, " ")| > 0
  {
    if |ws| > 1 {
      var w := ws[0];
      JoinWordsNormalised(ws[1..]);
      var t := JoinWith(ws[1..], " ");
      var u := JoinWith(ws, " ");
      assert u == w + " " + t;
      forall i | 0 <= i < |u| && IsSpace(u[i]) ensures u[i] == ' ' {
        if i > |w| {
          assert u[i] == t[i - |w| - 1];
        }
      }
      forall i | 0 <= i < |u| - 1 ensures !(IsSpace(u[i]) && IsSpace(u[i + 1])) {
        if i > |w| {
          assert u[i] == t[i - |w| - 1] && u[i + 1] == t[i - |w|];
        } else if i == |w| {
          assert u[i + 1] == t[0];
        } else if i == |w| - 1 {
          assert u[i] == w[|w| - 1];
        } else {
          assert u[i] == w[i] && u[i + 1] == w[i + 1];
        }
      }
      assert u[|u| - 1] == t[|t| - 1];
    }
  }

  /** The result of `' '.join(s.split())` is normalised. */
  lemma CollapseNormalised(s: string)
    ensures Normalised(Collapse(s))
  {
    JoinWordsNormalised(Words(s));
  }

  /** The output of the main script's `_strip_html` has no whitespace at its
      ends, no two whitespace characters in a row, and no whitespace but ' '. */
  lemma StripHtmlNormalised(s: string)
    ensures Normalised(StripHtml(s))
  {
    CollapseNormalised(SubTags(s));
  }

  lemma {:induction false} VisibleAppend(a: string, b: string)
    ensures Visible(a + b) == Visible(a) + Visible(b)
  {
    if a == [] {
      assert a + b == b;
    } else {
      var head := if IsSpace(a[0]) then [] else [a[0]];
      assert (a + b)[0] == a[0];
      assert (a + b)[1..] == a[1..] + b;
      assert Visible(a + b) == head + Visible(a[1..] + b);
      VisibleAppend(a[1..], b);
      assert Visible(a) == head + Visible(a[1..]);
    }
  }

  lemma {:induction false} VisibleOfWord(w: string)
    requires SpaceFree(w)
    ensures Visible(w) == w
  {
    if w != [] {
      VisibleOfWord(w[1..]);
    }
  }

  lemma {:induction false} WordsFromVisible(s: string, cur: string)
    requires SpaceFree(cur)
    ensures Concat(WordsFrom(s, cur)) == cur + Visible(s)
    decreases |s|
  {
    if s == [] {
    } else if IsSpace(s[0]) {
      WordsFromVisible(s[1..], []);
    } else {
      WordsFromVisible(s[1..], cur + [s[0]]);
    }
  }

  lemma {:induction false} JoinVisible(ws: seq<string>)
    requires forall k :: 0 <= k < |ws| ==> IsWord(ws[k])
    ensures Visible(JoinWith(ws, " ")) == Concat(ws)
  {
    if |ws| == 1 {
      VisibleOfWord(ws[0]);
    } else if |ws| > 1 {
      JoinVisible(ws[1..]);
      VisibleOfWord(ws[0]);
      VisibleAppend(ws[0] + " ", JoinWith(ws[1..], " "));
      VisibleAppend(ws[0], " ");
    }
  }

  /** Collapsing whitespace keeps every non-whitespace character, in order. */
  lemma CollapseKeepsVisible(s: string)
    ensures Visible(Collapse(s)) == Visible(s)
  {
    JoinVisible(Words(s));
    WordsFromVisible(s, []);
  }

  lemma NormalisedSuffix(t: string, k: nat)
    requires Normalised(t) && k < |t| && !IsSpace(t[k])
    ensures Normalised(t[k..])
  {
    var u := t[k..];
    forall i | 0 <= i < |u| ensures u[i] == t[k + i] {
    }
  }

  /** Scanning a normalised `t` after a begun word `cur` gives back `cur + t`;
      so does scanning a single space followed by a normalised rest. */
  lemma {:induction false} WordsFromJoin(t: string, cur: string)
    requires SpaceFree(cur)
    requires Normalised(t) || (cur != [] && |t| > 1 && t[0] == ' ' && Normalised(t[1..]))
    ensures JoinWith(WordsFrom(t, cur), " ") == cur + t
    decreases |t|, 1
  {
    if t == [] {
    } else if IsSpace(t[0]) {
      WordsFromJoinAtSpace(t, cur);
    } else {
      WordsFromJoinAtWord(t, cur);
    }
  }

  /** The space case: the begun word ends, and the rest is a normalised text. */
  lemma {:induction false} WordsFromJoinAtSpace(t: string, cur: string)
    requires SpaceFree(cur)
    requires cur != [] && |t| > 1 && t[0] == ' ' && Normalised(t[1..])
    ensures JoinWith(WordsFrom(t, cur), " ") == cur + t
    decreases |t|, 0
  {
    var rest := t[1..];
    WordsFromJoin(rest, []);
    var ws := WordsFrom(rest, []);
    assert ws != [];
    assert JoinWith([cur] + ws, " ") == cur + " " + JoinWith(ws, " ");
    assert t == " " + rest;
  }

  /** The word case: the first character extends the begun word. */
  lemma {:induction false} WordsFromJoinAtWord(t: string, cur: string)
    requires SpaceFree(cur)
    requires Normalised(t) && t != [] && !IsSpace(t[0])
    ensures JoinWith(WordsFrom(t, cur), " ") == cur + t
    decreases |t|, 0
  {
    var rest := t[1..];
    if |rest| > 0 && IsSpace(rest[0]) {
      assert t[1] == rest[0];
      assert |t| > 2 && !IsSpace(t[2]);
      NormalisedSuffix(t, 2);
      assert rest[1..] == t[2..];
    } else if |rest| > 0 {
      NormalisedSuffix(t, 1);
    }
    WordsFromJoin(rest, cur + [t[0]]);
    assert cur + [t[0]] + rest == cur + t;
  }

  /** A normalised string is a fixed point of the whitespace collapse. */
  lemma CollapseFixesNormalised(t: string)
    requires Normalised(t)
    ensures Collapse(t) == t
  {
    WordsFromJoin(t, []);
  }

  /** Joining words by single spaces and splitting again gives the words
      back. */
  lemma {:induction false} WordsOfJoin(ws: seq<string>)
    requires forall k :: 0 <= k < |ws| ==> IsWord(ws[k])
    ensures Words(JoinWith(ws, " ")) == ws
  {
    if |ws| == 1 {
      var w := ws[0];
      WordsFromWord(w, "", []);
      assert w + "" == w && [] + w == w;
    } else if |ws| > 1 {
      var w := ws[0];
      var t := JoinWith(ws[1..], " ");
      assert JoinWith(ws, " ") == w + (" " + t);
      WordsFromWord(w, " " + t, []);
      assert [] + w == w;
      assert (" " + t)[1..] == t;
      assert WordsFrom(" " + t, w) == [w] + WordsFrom(t, []);
      WordsOfJoin(ws[1..]);
      assert ws == [w] + ws[1..];
    }
  }

  /** The collapse keeps the words of the text and their order: a run of
      whitespace between two words becomes one space, never none. */
  lemma CollapseKeepsWords(s: string)
    ensures Words(Collapse(s)) == Words(s)
  {
    WordsOfJoin(Words(s));
  }

  /** Collapsing whitespace twice is the same as once. */
  lemma CollapseIdempotent(s: string)
    ensures Collapse(Collapse(s)) == Collapse(s)
  {
    CollapseNormalised(s);
    CollapseFixesNormalised(Collapse(s));
  }

  lemma {:induction false} VisibleKeepsChar(t: string, c: char)
    requires !IsSpace(c)
    ensures c in t <==> c in Visible(t)
  {
    if t != [] {
      VisibleKeepsChar(t[1..], c);
      assert t == [t[0]] + t[1..];
    }
  }

  /** Whether a string holds a tag does not depend on its whitespace. */
  lemma {:induction false} TagFreeVisible(t: string)
    ensures TagFree(t) <==> TagFree(Visible(t))
  {
    if t != [] {
      TagFreeVisible(t[1..]);
      VisibleKeepsChar(t[1..], '>');
      var v := Visible(t[1..]);
      if IsSpace(t[0]) {
        assert Visible(t) == v;
      } else {
        assert Visible(t) == [t[0]] + v;
        assert Visible(t)[1..] == v;
      }
    }
  }

  /** For text without newlines the main script's `_strip_html` is idempotent:
      its output holds no tag, and is already collapsed. */
  lemma StripHtmlIdempotent(s: string)
    requires '\n' !in s
    ensures StripHtml(StripHtml(s)) == StripHtml(s)
  {
    var x := SubTags(s);
    var y := Collapse(x);
    SubTagsTagFree(s);
    TagFreeVisible(x);
    CollapseKeepsVisible(x);
    TagFreeVisible(y);
    TagFreeUnchanged(y);
    CollapseNormalised(x);
    CollapseFixesNormalised(y);
  }

  lemma {:induction false} WordsFromWord(w: string, rest: string, cur: string)
    requires SpaceFree(w) && SpaceFree(cur)
    ensures SpaceFree(cur + w)
    ensures WordsFrom(w + rest, cur) == WordsFrom(rest, cur + w)
  {
    if w == [] {
      assert w + rest == rest && cur + w == cur;
    } else {
      assert (w + rest)[0] == w[0] && (w + rest)[1..] == w[1..] + rest;
      assert cur + w == (cur + [w[0]]) + w[1..];
      WordsFromWord(w[1..], rest, cur + [w[0]]);
    }
  }

  /** Text without '<' that is already collapsed is returned unchanged. */
  lemma StripHtmlFixesPlainText(t: string)
    requires Normalised(t) && '<' !in t
    ensures StripHtml(t) == t
  {
    NoMarkupUnchanged(t);
    CollapseFixesNormalised(t);
  }

  /** In `<tag>text</tag>` each tag becomes one space. */
  lemma SubTagsWrapped(tag: string, w: string)
    requires '>' !in tag && '\n' !in tag && '<' !in w
    ensures SubTags("<" + tag + ">" + w + "</" + tag + ">") == " " + w + " "
  {
    var closing := "/" + tag;
    assert '>' !in closing && '\n' !in closing;
    var tail := "<" + closing + ">" + "";
    assert "<" + tag + ">" + w + "</" + tag + ">" == "<" + tag + ">" + (w + tail);
    TagBecomesSpace(tag, w + tail);
    PlainTextKept(w, tail);
    TagBecomesSpace(closing, "");
  }

  lemma PaddedWord(w: string)
    requires IsWord(w)
    ensures Collapse(" " + w + " ") == w
  {
    assert (" " + w + " ")[1..] == w + " ";
    WordsFromWord(w, " ", []);
    assert [] + w == w;
    assert " "[1..] == [];
    assert Words(" " + w + " ") == [w];
  }

  /** A word wrapped in an element, `<tag>word</tag>`, strips to the word:
      each tag becomes a space, and the collapse trims both. */
  lemma StripWrappedWord(tag: string, w: string)
    requires '>' !in tag && '\n' !in tag
    requires IsWord(w) && '<' !in w
    ensures StripHtml("<" + tag + ">" + w + "</" + tag + ">") == w
  {
    SubTagsWrapped(tag, w);
    PaddedWord(w);
  }

  /** The running example: `_strip_html("<b>cat</b>") == "cat"`. */
  lemma StripHtmlExample()
    ensures StripHtml("<b>cat</b>") == "cat"
  {
    assert "<b>cat</b>" == "<" + "b" + ">" + "cat" + "</" + "b" + ">";
    StripWrappedWord("b", "cat");
  }

  /** A newline between '<' and '>' stops the tag, so nothing is replaced. */
  lemma NewlineStopsSubTags()
    ensures SubTags("<\n>") == "<\n>"
  {
    var s := "<\n>";
    assert s[1..2] == "\n";
    UnclosedKept(s);
    assert s[1..] == "\n>";
    NoMarkupUnchanged("\n>");
  }

  lemma NewlineSplitsWords()
    ensures Words("<\n>") == ["<", ">"]
  {
    var s := "<\n>";
    assert WordsFrom("", ">") == [">"];
    assert WordsFrom(">", []) == WordsFrom("", ">") by {
      assert !IsSpace('>') && ">"[1..] == "" && [] + ['>'] == ">";
    }
    assert WordsFrom("\n>", "<") == ["<"] + WordsFrom(">", []) by {
      assert IsSpace('\n') && "\n>"[1..] == ">";
    }
    assert WordsFrom(s, []) == WordsFrom("\n>", "<") by {
      assert !IsSpace('<') && s[1..] == "\n>" && [] + ['<'] == "<";
    }
  }

  /** `<\n>` is not a tag; the collapse turns its newline into a space. */
  lemma NewlineStopsTag()
    ensures StripHtml("<\n>") == "< >"
  {
    calc {
      StripHtml("<\n>");
      Collapse(SubTags("<\n>"));
      { NewlineStopsSubTags(); }
      Collapse("<\n>");
      JoinWith(Words("<\n>"), " ");
      { NewlineSplitsWords(); }
      JoinWith(["<", ">"], " ");
      { assert ["<", ">"][1..] == [">"]; }
      "< >";
    }
  }

  /** `< >` is one tag, so it strips to nothing. */
  lemma SpacedTagVanishes()
    ensures StripHtml("< >") == ""
  {
    assert SubTags("< >") == " " by {
      assert "< >" == "<" + " " + ">" + "";
      TagBecomesSpace(" ", "");
    }
    assert WordsFrom(" ", []) == [] by {
      assert IsSpace(' ') && " "[1..] == "";
    }
  }

  /** Idempotence needs the newline-free hypothesis: `<\n>` strips to `< >`,
      which strips to the empty string. */
  lemma StripHtmlNewlineCounterexample()
    ensures StripHtml(StripHtml("<\n>")) != StripHtml("<\n>")
  {
    NewlineStopsTag();
    SpacedTagVanishes();
  }
}
