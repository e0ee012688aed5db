/** `htmlescape`: four global replacements applied one after another, `&` first. */
module Escape {

  /** The four characters that `htmlescape` rewrites. */
  predicate IsSpecial(c: char)
  {
    c == '&' || c == '>' || c == '<' || c == '"'
  }

  /** `str.replace(/c/g, rep)`: every occurrence of `c`, left to right, becomes `rep`. */
  function ReplaceAll(s: string, c: char, rep: string): string
  {
    if s == [] then [] else (if s[0] == c then rep else [s[0]]) + ReplaceAll(s[1..], c, rep)
  }

  /** The component's `htmlescape`, as the chain of replacements it is written as. */
  function HtmlEscape(s: string): string
  {
    ReplaceAll(ReplaceAll(ReplaceAll(ReplaceAll(s, '&', "&amp;"), '>', "&gt;"), '<', "&lt;"), '"', "&quot;")
  }

  /** Reference definition: the entity for one character. */
  function EscapeChar(c: char): string
  {
    match c
    case '&' => "&amp;"
    case '>' => "&gt;"
    case '<' => "&lt;"
    case '"' => "&quot;"
    case _ => [c]
  }

  /** Reference definition: escape each character on its own, in one pass. */
  function EscapeEach(s: string): string
  {
    if s == [] then [] else EscapeChar(s[0]) + EscapeEach(s[1..])
  }

  predicate StartsWithAt(r: string, i: nat, e: string)
  {
    i + |e| <= |r| && r[i..i + |e|] == e
  }

  /** The character at `i` begins one of the four entities. */
  predicate EntityAt(r: string, i: nat)
  {
    StartsWithAt(r, i, "&amp;") || StartsWithAt(r, i, "&gt;")
    || StartsWithAt(r, i, "&lt;") || StartsWithAt(r, i, "&quot;")
  }

  /** No character that could open a tag or close an attribute value. */
  predicate NoMarkup(r: string)
  {
    forall i :: 0 <= i < |r| ==> r[i] != '<' && r[i] != '>' && r[i] != '"'
  }

  /** Every `&` is the start of an entity. */
  predicate AmpersandsStartEntities(r: string)
  {
    forall i :: 0 <= i < |r| && r[i] == '&' ==> EntityAt(r, i)
  }

  /** Inverse of the escaping: each entity back to its character, anything else kept. */
  function Unescape(r: string): string
  {
    if r == [] then []
    else if StartsWithAt(r, 0, "&amp;") then ['&'] + Unescape(r[5..])
    else if StartsWithAt(r, 0, "&gt;") then ['>'] + Unescape(r[4..])
    else if StartsWithAt(r, 0, "&lt;") then ['<'] + Unescape(r[4..])
    else if StartsWithAt(r, 0, "&quot;") then ['"'] + Unescape(r[6..])
    else [r[0]] + Unescape(r[1..])
  }

  /** A global replacement distributes over concatenation. */
  lemma {:induction false} ReplaceAllAppend(a: string, b: string, c: char, rep: string)
    ensures ReplaceAll(a + b, c, rep) == ReplaceAll(a, c, rep) + ReplaceAll(b, c, rep)
  {
    if a == [] {
      assert a + b == b;
    } else {
      assert (a + b)[0] == a[0];
      assert (a + b)[1..] == a[1..] + b;
      ReplaceAllAppend(a[1..], b, c, rep);
    }
  }

  /** Replacing a character that does not occur changes nothing. */
  lemma {:induction false} ReplaceAllAbsent(s: string, c: char, rep: string)
    requires c !in s
    ensures ReplaceAll(s, c, rep) == s
  {
    if s != [] {
      assert s[0] in s;
      assert forall x :: x in s[1..] ==> x in s;
      ReplaceAllAbsent(s[1..], c, rep);
    }
  }

  lemma ReplaceAllOne(x: char, c: char, rep: string)
    ensures ReplaceAll([x], c, rep) == if x == c then rep else [x]
  {
    assert [x][1..] == [];
  }

  lemma HtmlEscapeAppend(a: string, b: string)
    ensures HtmlEscape(a + b) == HtmlEscape(a) + HtmlEscape(b)
  {
    var a1, b1 := ReplaceAll(a, '&', "&amp;"), ReplaceAll(b, '&', "&amp;");
    ReplaceAllAppend(a, b, '&', "&amp;");
    var a2, b2 := ReplaceAll(a1, '>', "&gt;"), ReplaceAll(b1, '>', "&gt;");
    ReplaceAllAppend(a1, b1, '>', "&gt;");
    var a3, b3 := ReplaceAll(a2, '<', "&lt;"), ReplaceAll(b2, '<', "&lt;");
    ReplaceAllAppend(a2, b2, '<', "&lt;");
    ReplaceAllAppend(a3, b3, '"', "&quot;");
  }

  /** On a single character the chain yields exactly that character's entity:
      since `&` is replaced first, the `&` of a later entity is never escaped again. */
  lemma HtmlEscapeChar(c: char)
    ensures HtmlEscape([c]) == EscapeChar(c)
  {
    ReplaceAllOne(c, '&', "&amp;");
    if c == '&' {
      ReplaceAllAbsent("&amp;", '>', "&gt;");
      ReplaceAllAbsent("&amp;", '<', "&lt;");
      ReplaceAllAbsent("&amp;", '"', "&quot;");
    } else {
      ReplaceAllOne(c, '>', "&gt;");
      if c == '>' {
        ReplaceAllAbsent("&gt;", '<', "&lt;");
        ReplaceAllAbsent("&gt;", '"', "&quot;");
      } else {
        ReplaceAllOne(c, '<', "&lt;");
        if c == '<' {
          ReplaceAllAbsent("&lt;", '"', "&quot;");
        } else {
          ReplaceAllOne(c, '"', "&quot;");
        }
      }
    }
  }

  /** The replacement chain equals the one-pass, per-character escaping. */
  lemma {:induction false} HtmlEscapeIsPerChar(s: string)
    ensures HtmlEscape(s) == EscapeEach(s)
  {
    if s != [] {
      assert s == [s[0]] + s[1..];
      HtmlEscapeAppend([s[0]], s[1..]);
      HtmlEscapeChar(s[0]);
      HtmlEscapeIsPerChar(s[1..]);
    }
  }

  lemma {:induction false} EscapeEachNoMarkup(s: string)
    ensures NoMarkup(EscapeEach(s))
  {
    if s != [] {
      EscapeEachNoMarkup(s[1..]);
      var h, t := EscapeChar(s[0]), EscapeEach(s[1..]);
      assert NoMarkup(h);
      forall i | 0 <= i < |h + t|
        ensures (h + t)[i] != '<' && (h + t)[i] != '>' && (h + t)[i] != '"'
      {
        if i >= |h| {
          assert (h + t)[i] == t[i - |h|];
        }
      }
    }
  }

  /** An entity found in a suffix is still found after a prefix is put in front. */
  lemma EntityAtShift(h: string, t: string, j: nat)
    requires EntityAt(t, j)
    ensures EntityAt(h + t, |h| + j)
  {
    var r := h + t;
    forall e: string | StartsWithAt(t, j, e)
      ensures StartsWithAt(r, |h| + j, e)
    {
      assert r[|h| + j..|h| + j + |e|] == t[j..j + |e|];
    }
  }

  /** An entity found in a prefix is still found after a suffix is appended. */
  lemma EntityAtPrefix(h: string, t: string, i: nat)
    requires EntityAt(h, i)
    ensures EntityAt(h + t, i)
  {
    var r := h + t;
    forall e: string | StartsWithAt(h, i, e)
      ensures StartsWithAt(r, i, e)
    {
      assert r[i..i + |e|] == h[i..i + |e|];
    }
  }

  /** The only `&` of an entity is its first character. */
  lemma EntityOnlyAmpersandFirst(e: string, i: nat)
    requires e == "&amp;" || e == "&gt;" || e == "&lt;" || e == "&quot;"
    requires i < |e| && e[i] == '&'
    ensures i == 0 && EntityAt(e, 0)
  {
    assert e[0..|e|] == e;
  }

  lemma EscapeCharEntities(c: char, i: nat)
    requires i < |EscapeChar(c)| && EscapeChar(c)[i] == '&'
    ensures EntityAt(EscapeChar(c), i)
  {
    if IsSpecial(c) {
      EntityOnlyAmpersandFirst(EscapeChar(c), i);
    }
  }

  lemma {:induction false} EscapeEachEntities(s: string)
    ensures AmpersandsStartEntities(EscapeEach(s))
  {
    if s != [] {
      EscapeEachEntities(s[1..]);
      var h, t := EscapeChar(s[0]), EscapeEach(s[1..]);
      var r := h + t;
      assert r == EscapeEach(s);
      forall i | 0 <= i < |r| && r[i] == '&'
        ensures EntityAt(r, i)
      {
        if i >= |h| {
          assert r[i] == t[i - |h|];
          EntityAtShift(h, t, i - |h|);
        } else {
          assert r[i] == h[i];
          EscapeCharEntities(s[0], i);
          EntityAtPrefix(h, t, i);
        }
      }
    }
  }

  lemma UnescapeAmp(t: string)
    ensures Unescape("&amp;" + t) == ['&'] + Unescape(t)
  {
    var r := "&amp;" + t;
    assert r[0..5] == "&amp;";
    assert r[5..] == t;
  }

  lemma UnescapeGt(t: string)
    ensures Unescape("&gt;" + t) == ['>'] + Unescape(t)
  {
    var r := "&gt;" + t;
    assert r[0..4] == "&gt;";
    assert r[1] == 'g';
    assert !StartsWithAt(r, 0, "&amp;");
    assert r[4..] == t;
  }

  lemma UnescapeLt(t: string)
    ensures Unescape("&lt;" + t) == ['<'] + Unescape(t)
  {
    var r := "&lt;" + t;
    assert r[0..4] == "&lt;";
    assert r[1] == 'l';
    assert !StartsWithAt(r, 0, "&amp;");
    assert !StartsWithAt(r, 0, "&gt;");
    assert r[4..] == t;
  }

  lemma UnescapeQuot(t: string)
    ensures Unescape("&quot;" + t) == ['"'] + Unescape(t)
  {
    var r := "&quot;" + t;
    assert r[0..6] == "&quot;";
    assert r[1] == 'q';
    assert !StartsWithAt(r, 0, "&amp;");
    assert !StartsWithAt(r, 0, "&gt;");
    assert !StartsWithAt(r, 0, "&lt;");
    assert r[6..] == t;
  }

  lemma UnescapePlainChar(c: char, t: string)
    requires c != '&'
    ensures Unescape([c] + t) == [c] + Unescape(t)
  {
    var r := [c] + t;
    assert r[0] == c && r[1..] == t;
  }

  lemma UnescapeEscapeChar(c: char, t: string)
    ensures Unescape(EscapeChar(c) + t) == [c] + Unescape(t)
  {
    if c == '&' {
      UnescapeAmp(t);
    } else if c == '>' {
      UnescapeGt(t);
    } else if c == '<' {
      UnescapeLt(t);
    } else if c == '"' {
      UnescapeQuot(t);
    } else {
      UnescapePlainChar(c, t);
    }
  }

  lemma {:induction false} UnescapeEscapeEach(s: string)
    ensures Unescape(EscapeEach(s)) == s
  {
    if s != [] {
      UnescapeEscapeChar(s[0], EscapeEach(s[1..]));
      UnescapeEscapeEach(s[1..]);
    }
  }

  lemma {:induction false} EscapeEachPlain(s: string)
    requires forall i :: 0 <= i < |s| ==> !IsSpecial(s[i])
    ensures EscapeEach(s) == s
  {
    if s != [] {
      EscapeEachPlain(s[1..]);
      assert s == [s[0]] + s[1..];
    }
  }

  /** The output contains no `<`, `>` or `"`. */
  lemma HtmlEscapeNoMarkup(s: string)
    ensures NoMarkup(HtmlEscape(s))
  {
    HtmlEscapeIsPerChar(s);
    EscapeEachNoMarkup(s);
  }

  /** Every `&` in the output starts `&amp;`, `&gt;`, `&lt;` or `&quot;`. */
  lemma HtmlEscapeEntities(s: string)
    ensures AmpersandsStartEntities(HtmlEscape(s))
  {
    HtmlEscapeIsPerChar(s);
    EscapeEachEntities(s);
  }

  /** Nothing is lost: decoding the entities gives back the input, in order. */
  lemma HtmlEscapeRoundTrip(s: string)
    ensures Unescape(HtmlEscape(s)) == s
  {
    HtmlEscapeIsPerChar(s);
    UnescapeEscapeEach(s);
  }

  /** An input without any of the four characters is returned unchanged. */
  lemma HtmlEscapePlain(s: string)
    requires forall i :: 0 <= i < |s| ==> !IsSpecial(s[i])
    ensures HtmlEscape(s) == s
  {
    HtmlEscapeIsPerChar(s);
    EscapeEachPlain(s);
  }
}
