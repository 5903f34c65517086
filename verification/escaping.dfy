/** HTML escaping of untrusted text (`escHTML`), its inverse, the truncating
    variant used for generic fields (`short`), and what it means for a message
    to be safe in the bold-tags-only HTML dialect the chat provider accepts. */
module Escaping {
  import opened JsObjects

  /** `s.replace(/c/g, rep)` for a one-character pattern c: every occurrence of
      c, left to right, is replaced by rep; the replacement is not rescanned. */
  function ReplaceAll(s: string, c: char, rep: string): (r: string)
    ensures c !in s ==> r == s
    ensures c !in rep ==> c !in r
  {
    if s == [] then []
    else (if s[0] == c then rep else [s[0]]) + ReplaceAll(s[1..], c, rep)
  }

  /** The replace chain of `escHTML`: `&` first, then `<`, `>` and `"`. */
  function Escape(s: string): string {
    ReplaceAll(ReplaceAll(ReplaceAll(ReplaceAll(s, '&', "&amp;"), '<', "&lt;"), '>', "&gt;"), '"', "&quot;")
  }

  /** `escHTML(s)`: null and undefined give the empty string. */
  function EscHtml(v: Value): (r: string)
    ensures v == None ==> r == ""
  {
    match v
    case None => ""
    case Some(s) => Escape(s)
  }

  /** Reference definition: escaping one character at a time, in one pass. */
  function EscapeChar(c: char): string {
    if c == '&' then "&amp;"
    else if c == '<' then "&lt;"
    else if c == '>' then "&gt;"
    else if c == '"' then "&quot;"
    else [c]
  }

  function EscapeEach(s: string): string {
    if s == [] then [] else EscapeChar(s[0]) + EscapeEach(s[1..])
  }

  /** The inverse substitution: each entity that escaping writes becomes the
      character it stands for; everything else is kept. */
  function Unescape(s: string): string
    decreases |s|
  {
    if s == [] then []
    else if "&amp;" <= s then "&" + Unescape(s[5..])
    else if "&lt;" <= s then "<" + Unescape(s[4..])
    else if "&gt;" <= s then ">" + Unescape(s[4..])
    else if "&quot;" <= s then "\"" + Unescape(s[6..])
    else [s[0]] + Unescape(s[1..])
  }

  /** Text in which none of the four markup-significant characters occurs. */
  predicate IsPlain(s: string) {
    '&' !in s && '<' !in s && '>' !in s && '"' !in s
  }

  /** One of the four entities that escaping writes begins at position i. */
  predicate EntityAt(s: string, i: nat)
    requires i <= |s|
  {
    "&amp;" <= s[i..] || "&lt;" <= s[i..] || "&gt;" <= s[i..] || "&quot;" <= s[i..]
  }

  /** Escaped text: no raw `<`, `>` or `"`, and every `&` begins an entity. */
  predicate IsEscaped(s: string) {
    forall i :: 0 <= i < |s| ==>
      s[i] != '<' && s[i] != '>' && s[i] != '"' && (s[i] == '&' ==> EntityAt(s, i))
  }

  /** A bold tag, opening or closing, begins at position i. */
  predicate TagAt(s: string, i: nat)
    requires i <= |s|
  {
    "<b>" <= s[i..] || "</b>" <= s[i..]
  }

  /** A bold tag, opening or closing, ends at position i. */
  predicate TagEndsAt(s: string, i: nat)
    requires i < |s|
  {
    (2 <= i && s[i - 2..i + 1] == "<b>") || (3 <= i && s[i - 3..i + 1] == "</b>")
  }

  predicate SafeAt(s: string, i: nat)
    requires i < |s|
  {
    && s[i] != '"'
    && (s[i] == '&' ==> EntityAt(s, i))
    && (s[i] == '<' ==> TagAt(s, i))
    && (s[i] == '>' ==> TagEndsAt(s, i))
  }

  /** Safe markup in the bold-only dialect: every `<` and `>` belongs to a bold
      tag, every `&` begins an entity, and no `"` occurs. */
  predicate IsSafeMarkup(s: string) {
    forall i :: 0 <= i < |s| ==> SafeAt(s, i)
  }

  /* ---------------- the replace chain and the one-pass reference ---------------- */

  lemma {:induction false} ReplaceAllConcat(a: string, b: string, c: char, rep: string)
    ensures ReplaceAll(a + b, c, rep) == ReplaceAll(a, c, rep) + ReplaceAll(b, c, rep)
  {
    if a == [] {
      assert a + b == b;
    } else {
      assert (a + b)[0] == a[0];
      assert (a + b)[1..] == a[1..] + b;
      ReplaceAllConcat(a[1..], b, c, rep);
    }
  }

  lemma EscapeConcat(a: string, b: string)
    ensures Escape(a + b) == Escape(a) + Escape(b)
  {
    var a1, b1 := ReplaceAll(a, '&', "&amp;"), ReplaceAll(b, '&', "&amp;");
    ReplaceAllConcat(a, b, '&', "&amp;");
    var a2, b2 := ReplaceAll(a1, '<', "&lt;"), ReplaceAll(b1, '<', "&lt;");
    ReplaceAllConcat(a1, b1, '<', "&lt;");
    var a3, b3 := ReplaceAll(a2, '>', "&gt;"), ReplaceAll(b2, '>', "&gt;");
    ReplaceAllConcat(a2, b2, '>', "&gt;");
    ReplaceAllConcat(a3, b3, '"', "&quot;");
  }

  lemma ReplaceAllSingle(c: char, d: char, rep: string)
    ensures ReplaceAll([c], d, rep) == if c == d then rep else [c]
  {
    assert [c][1..] == [];
  }

  lemma EscapeSingle(c: char)
    ensures Escape([c]) == EscapeChar(c)
  {
    ReplaceAllSingle(c, '&', "&amp;");
    if c == '&' {
      assert IsPlain("amp;");
      assert '<' !in "&amp;" && '>' !in "&amp;" && '"' !in "&amp;";
    } else {
      ReplaceAllSingle(c, '<', "&lt;");
      if c == '<' {
        assert '>' !in "&lt;" && '"' !in "&lt;";
      } else {
        ReplaceAllSingle(c, '>', "&gt;");
        if c == '>' {
          assert '"' !in "&gt;";
        } else {
          ReplaceAllSingle(c, '"', "&quot;");
        }
      }
    }
  }

  /** Because `&` is replaced first, the four-pass chain never escapes an
      entity written by an earlier pass: it equals one-pass escaping. */
  lemma {:induction false} EscapeIsPerChar(s: string)
    ensures Escape(s) == EscapeEach(s)
  {
    if s != [] {
      assert s == [s[0]] + s[1..];
      EscapeConcat([s[0]], s[1..]);
      EscapeSingle(s[0]);
      EscapeIsPerChar(s[1..]);
    }
  }

  /** Text without markup-significant characters is left as it is. */
  lemma EscapePlain(s: string)
    requires IsPlain(s)
    ensures Escape(s) == s
  {
  }

  /* ---------------- inverse substitution ---------------- */

  lemma UnescapeEscapeChar(c: char, t: string)
    ensures Unescape(EscapeChar(c) + t) == [c] + Unescape(t)
  {
    if c == '&' {
      UnescapeAmp(t);
    } else if c == '<' {
      UnescapeLt(t);
    } else if c == '>' {
      UnescapeGt(t);
    } else if c == '"' {
      UnescapeQuot(t);
    } else {
      var s := EscapeChar(c) + t;
      assert s[0] == c && s[1..] == t;
    }
  }

  lemma UnescapeAmp(t: string)
    ensures Unescape("&amp;" + t) == "&" + Unescape(t)
  {
    var s := "&amp;" + t;
    assert "&amp;" <= s && s[5..] == t;
  }

  lemma UnescapeLt(t: string)
    ensures Unescape("&lt;" + t) == "<" + Unescape(t)
  {
    var s := "&lt;" + t;
    assert s[1] == 'l' && "&lt;" <= s && s[4..] == t;
  }

  lemma UnescapeGt(t: string)
    ensures Unescape("&gt;" + t) == ">" + Unescape(t)
  {
    var s := "&gt;" + t;
    assert s[1] == 'g' && "&gt;" <= s && s[4..] == t;
  }

  lemma UnescapeQuot(t: string)
    ensures Unescape("&quot;" + t) == "\"" + Unescape(t)
  {
    var s := "&quot;" + t;
    assert s[1] == 'q' && "&quot;" <= s && s[6..] == t;
  }

  lemma {:induction false} UnescapeEscapeEach(s: string)
    ensures Unescape(EscapeEach(s)) == s
  {
    if s != [] {
      UnescapeEscapeChar(s[0], EscapeEach(s[1..]));
      UnescapeEscapeEach(s[1..]);
    }
  }

  /** Escaping loses nothing: the inverse substitution recovers the input. */
  lemma UnescapeEscape(s: string)
    ensures Unescape(Escape(s)) == s
  {
    EscapeIsPerChar(s);
    UnescapeEscapeEach(s);
  }

  /* ---------------- escaped text and safe markup ---------------- */

  lemma PrefixOfConcat(p: string, t: string, b: string)
    requires p <= t
    ensures p <= t + b
  {
    assert (t + b)[..|p|] == t[..|p|];
  }

  /** An entity or tag that starts inside a stays where it is in a + b. */
  lemma StartsAtConcat(a: string, b: string, i: nat)
    requires i <= |a|
    ensures EntityAt(a, i) ==> EntityAt(a + b, i)
    ensures TagAt(a, i) ==> TagAt(a + b, i)
  {
    var t := a[i..];
    assert (a + b)[i..] == t + b;
    if "&amp;" <= t { PrefixOfConcat("&amp;", t, b); }
    if "&lt;" <= t { PrefixOfConcat("&lt;", t, b); }
    if "&gt;" <= t { PrefixOfConcat("&gt;", t, b); }
    if "&quot;" <= t { PrefixOfConcat("&quot;", t, b); }
    if "<b>" <= t { PrefixOfConcat("<b>", t, b); }
    if "</b>" <= t { PrefixOfConcat("</b>", t, b); }
  }

  lemma EscapedConcat(a: string, b: string)
    requires IsEscaped(a) && IsEscaped(b)
    ensures IsEscaped(a + b)
  {
    var s := a + b;
    forall i | 0 <= i < |s| && s[i] == '&'
      ensures EntityAt(s, i)
    {
      if i < |a| {
        StartsAtConcat(a, b, i);
      } else {
        assert s[i..] == b[i - |a|..];
      }
    }
  }

  lemma SafeConcat(a: string, b: string)
    requires IsSafeMarkup(a) && IsSafeMarkup(b)
    ensures IsSafeMarkup(a + b)
  {
    forall i | 0 <= i < |a + b|
      ensures SafeAt(a + b, i)
    {
      if i < |a| {
        SafeAtLeft(a, b, i);
      } else {
        SafeAtRight(a, b, i - |a|);
      }
    }
  }

  lemma SafeAtLeft(a: string, b: string, i: nat)
    requires i < |a| && SafeAt(a, i)
    ensures SafeAt(a + b, i)
  {
    var s := a + b;
    assert s[i] == a[i];
    if a[i] == '&' || a[i] == '<' {
      StartsAtConcat(a, b, i);
    } else if a[i] == '>' {
      if 2 <= i && a[i - 2..i + 1] == "<b>" {
        assert s[i - 2..i + 1] == a[i - 2..i + 1];
      } else {
        assert s[i - 3..i + 1] == a[i - 3..i + 1];
      }
    }
  }

  lemma SafeAtRight(a: string, b: string, j: nat)
    requires j < |b| && SafeAt(b, j)
    ensures SafeAt(a + b, |a| + j)
  {
    assert (a + b)[|a| + j] == b[j];
    StartsAtShift(a, b, j);
    if b[j] == '>' {
      TagEndsAtShift(a, b, j);
    }
  }

  /** An entity or tag that starts inside b starts |a| later in a + b. */
  lemma StartsAtShift(a: string, b: string, j: nat)
    requires j <= |b|
    ensures EntityAt(b, j) ==> EntityAt(a + b, |a| + j)
    ensures TagAt(b, j) ==> TagAt(a + b, |a| + j)
  {
    assert (a + b)[|a| + j..] == b[j..];
  }

  /** A tag that ends inside b ends |a| later in a + b. */
  lemma TagEndsAtShift(a: string, b: string, j: nat)
    requires j < |b| && TagEndsAt(b, j)
    ensures TagEndsAt(a + b, |a| + j)
  {
    if 2 <= j && b[j - 2..j + 1] == "<b>" {
      OpenTagShift(a, b, j);
    } else {
      CloseTagShift(a, b, j);
    }
  }

  lemma OpenTagShift(a: string, b: string, j: nat)
    requires 2 <= j < |b| && b[j - 2..j + 1] == "<b>"
    ensures (a + b)[|a| + j - 2..|a| + j + 1] == "<b>"
  {
    var s, i := a + b, |a| + j;
    assert b[j - 2] == '<' && b[j - 1] == 'b' && b[j] == '>' by {
      assert b[j - 2..j + 1][0] == b[j - 2];
      assert b[j - 2..j + 1][1] == b[j - 1];
      assert b[j - 2..j + 1][2] == b[j];
    }
    assert s[i - 2] == '<' && s[i - 1] == 'b' && s[i] == '>';
    assert s[i - 2..i + 1] == "<b>";
  }

  lemma CloseTagShift(a: string, b: string, j: nat)
    requires 3 <= j < |b| && b[j - 3..j + 1] == "</b>"
    ensures (a + b)[|a| + j - 3..|a| + j + 1] == "</b>"
  {
    var s, i := a + b, |a| + j;
    assert b[j - 3] == '<' && b[j - 2] == '/' && b[j - 1] == 'b' && b[j] == '>' by {
      assert b[j - 3..j + 1][0] == b[j - 3];
      assert b[j - 3..j + 1][1] == b[j - 2];
      assert b[j - 3..j + 1][2] == b[j - 1];
      assert b[j - 3..j + 1][3] == b[j];
    }
    assert s[i - 3] == '<' && s[i - 2] == '/' && s[i - 1] == 'b' && s[i] == '>';
    assert s[i - 3..i + 1] == "</b>";
  }

  lemma EscapedIsSafe(s: string)
    requires IsEscaped(s)
    ensures IsSafeMarkup(s)
  {
    forall i | 0 <= i < |s| ensures SafeAt(s, i) { }
  }

  lemma PlainIsEscaped(s: string)
    requires IsPlain(s)
    ensures IsEscaped(s)
  {
    forall i | 0 <= i < |s| ensures s[i] in s { }
  }

  lemma EscapeCharIsEscaped(c: char)
    ensures IsEscaped(EscapeChar(c))
  {
    var e := EscapeChar(c);
    if c == '&' {
      assert "&amp;" <= e[0..];
    } else if c == '<' || c == '>' || c == '"' {
      assert e[0] == '&' && e[0..] == e;
    }
  }

  lemma {:induction false} EscapeEachIsEscaped(s: string)
    ensures IsEscaped(EscapeEach(s))
  {
    if s != [] {
      EscapeCharIsEscaped(s[0]);
      EscapeEachIsEscaped(s[1..]);
      EscapedConcat(EscapeChar(s[0]), EscapeEach(s[1..]));
    }
  }

  /** What `escHTML` promises: its output holds no `<`, `>` or `"`, and every
      `&` in it starts `&amp;`, `&lt;`, `&gt;` or `&quot;`. */
  lemma EscapeIsEscaped(s: string)
    ensures IsEscaped(Escape(s))
    ensures IsSafeMarkup(Escape(s))
  {
    EscapeIsPerChar(s);
    EscapeEachIsEscaped(s);
    EscapedIsSafe(Escape(s));
  }

  lemma EscHtmlIsSafe(v: Value)
    ensures IsEscaped(EscHtml(v)) && IsSafeMarkup(EscHtml(v))
  {
    if v.Some? { EscapeIsEscaped(v.value); }
  }

  /** The two bold tags are safe markup on their own. */
  lemma TagsAreSafe()
    ensures IsSafeMarkup("<b>") && IsSafeMarkup("</b>")
  {
    var o, c := "<b>", "</b>";
    assert o[0..] == o && o[0..3] == o;
    assert SafeAt(o, 0) && SafeAt(o, 1) && SafeAt(o, 2);
    assert c[0..] == c && c[0..4] == c;
    assert SafeAt(c, 0) && SafeAt(c, 1) && SafeAt(c, 2) && SafeAt(c, 3);
  }

  lemma PlainIsSafe(s: string)
    requires IsPlain(s)
    ensures IsSafeMarkup(s)
  {
    PlainIsEscaped(s);
    EscapedIsSafe(s);
  }

  /* ---------------- short ---------------- */

  /** The marker appended after a cut value: U+2026 followed by "(truncated)". */
  const TruncationMarker: string := "\U{2026}(truncated)"

  /** `short(s, n = 800)`: the value, cut to its first n characters when it is
      longer, escaped, and marked when it was cut. */
  function Short(v: Value, n: nat := 800): string {
    match v
    case None => ""
    case Some(s) => if |s| > n then Escape(s[..n]) + TruncationMarker else Escape(s)
  }

  /** The truncation marker is plain text. */
  lemma MarkerIsEscaped()
    ensures IsEscaped(TruncationMarker)
  {
    assert IsPlain(TruncationMarker);
    PlainIsEscaped(TruncationMarker);
  }

  /** What `short` promises for the default limit of 800 characters: absent
      gives the empty text; up to 800 characters the value is escaped in full,
      with no marker, and can be recovered; from 801 characters on exactly the
      first 800 are kept, escaped, followed by the marker. The result is always
      escaped text. */
  lemma ShortTruncatesAt800(v: Value)
    ensures v == None ==> Short(v) == ""
    ensures v.Some? && |v.value| <= 800 ==>
              Short(v) == Escape(v.value) && Unescape(Short(v)) == v.value
    ensures v.Some? && |v.value| > 800 ==>
              Short(v) == Escape(v.value[..800]) + TruncationMarker
              && Unescape(Escape(v.value[..800])) == v.value[..800]
    ensures IsEscaped(Short(v)) && IsSafeMarkup(Short(v))
  {
    if v.Some? {
      var s := v.value;
      if |s| > 800 {
        UnescapeEscape(s[..800]);
        EscapeIsEscaped(s[..800]);
        MarkerIsEscaped();
        EscapedConcat(Escape(s[..800]), TruncationMarker);
      } else {
        UnescapeEscape(s);
        EscapeIsEscaped(s);
      }
      EscapedIsSafe(Short(v));
    }
  }

  /** The boundary: 800 characters are shown whole, 801 are cut and marked. */
  lemma ShortBoundary(s: string, c: char)
    requires |s| == 800
    ensures Short(Some(s)) == Escape(s)
    ensures Short(Some(s + [c])) == Escape(s) + TruncationMarker
  {
    assert (s + [c])[..800] == s;
  }
}
