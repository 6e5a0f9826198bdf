/**
 * escapeHtml: every `<`, `>`, `&` and `"` is replaced by its character
 * entity in one left-to-right pass; every other character is copied.
 */
module HtmlEscape {
  import opened Results
  import opened JsValues

  predicate IsSpecial(c: char) {
    c == '<' || c == '>' || c == '&' || c == '"'
  }

  /** The replacement for one character (the lookup table of the source). */
  function EscapeChar(c: char): string {
    if c == '<' then "&lt;"
    else if c == '>' then "&gt;"
    else if c == '&' then "&amp;"
    else if c == '"' then "&quot;"
    else [c]
  }

  function EscapeText(s: string): string {
    if s == [] then [] else EscapeChar(s[0]) + EscapeText(s[1..])
  }

  /** `escapeHtml(s = '')`: an undefined argument takes the default ""; None when `String(s)` throws. */
  function EscapeHtml(s: Option<Json>): Option<string> {
    match s
    case None => Some(EscapeText(""))
    case Some(v) =>
      match ToJsString(v)
      case None => None
      case Some(text) => Some(EscapeText(text))
  }

  /** A missing argument is escaped as the default "". */
  lemma EscapeHtmlUndefined()
    ensures EscapeHtml(None) == Some("")
  {
  }

  /** One of the four entities starts at position `i` of `s`. */
  predicate EntityAt(s: string, i: nat)
    requires i <= |s|
  {
    "&lt;" <= s[i..] || "&gt;" <= s[i..] || "&amp;" <= s[i..] || "&quot;" <= s[i..]
  }

  /** Decoding of the four entities, the partner of EscapeText. */
  function Unescape(s: string): string
    decreases |s|
  {
    if s == [] then []
    else if "&lt;" <= s then "<" + Unescape(s[4..])
    else if "&gt;" <= s then ">" + Unescape(s[4..])
    else if "&amp;" <= s then "&" + Unescape(s[5..])
    else if "&quot;" <= s then "\"" + Unescape(s[6..])
    else [s[0]] + Unescape(s[1..])
  }

  /** Escaping distributes over concatenation: the pass works character by character. */
  lemma {:induction false} EscapeTextAppend(a: string, b: string)
    ensures EscapeText(a + b) == EscapeText(a) + EscapeText(b)
  {
    if a == [] {
      assert a + b == b;
    } else {
      assert (a + b)[0] == a[0];
      assert (a + b)[1..] == a[1..] + b;
      EscapeTextAppend(a[1..], b);
    }
  }

  /** A string without special characters is returned unchanged. */
  lemma {:induction false} EscapeTextPlain(s: string)
    requires forall c :: c in s ==> !IsSpecial(c)
    ensures EscapeText(s) == s
  {
    if s != [] {
      assert s[0] in s;
      assert forall c :: c in s[1..] ==> c in s;
      EscapeTextPlain(s[1..]);
    }
  }

  /** The output holds no raw `<`, `>` or `"`. */
  lemma {:induction false} EscapeTextNoRaw(s: string)
    ensures forall c :: c in EscapeText(s) ==> c != '<' && c != '>' && c != '"'
  {
    if s != [] {
      EscapeTextNoRaw(s[1..]);
      var head := EscapeChar(s[0]);
      assert forall c :: c in head ==> c != '<' && c != '>' && c != '"';
      assert EscapeText(s) == head + EscapeText(s[1..]);
    }
  }

  /** Every `&` of the output begins one of the four entities. */
  lemma {:induction false} EscapeTextAmpersands(s: string)
    ensures forall i :: 0 <= i < |EscapeText(s)| && EscapeText(s)[i] == '&' ==> EntityAt(EscapeText(s), i)
  {
    if s != [] {
      EscapeTextAmpersands(s[1..]);
      var head, tail := EscapeChar(s[0]), EscapeText(s[1..]);
      var r := EscapeText(s);
      assert r == head + tail;
      forall i | 0 <= i < |r| && r[i] == '&'
        ensures EntityAt(r, i)
      {
        if i < |head| {
          assert IsSpecial(s[0]) && i == 0;
          assert r[i..] == head + tail;
        } else {
          var j := i - |head|;
          assert tail[j] == '&';
          assert r[i..] == tail[j..];
        }
      }
    }
  }

  /** Decoding one escaped character followed by the rest. */
  lemma UnescapeStep(c: char, t: string)
    ensures Unescape(EscapeChar(c) + t) == [c] + Unescape(t)
  {
    var e := EscapeChar(c) + t;
    if c == '<' {
      assert e[4..] == t;
    } else if c == '>' {
      assert e[1] == 'g' && !("&lt;" <= e);
      assert e[4..] == t;
    } else if c == '&' {
      assert e[1] == 'a' && !("&lt;" <= e) && !("&gt;" <= e);
      assert e[5..] == t;
    } else if c == '"' {
      assert e[1] == 'q' && !("&lt;" <= e) && !("&gt;" <= e) && !("&amp;" <= e);
      assert e[6..] == t;
    } else {
      assert e[0] == c && e[1..] == t;
    }
  }

  /** Decoding the entities restores the original text. */
  lemma {:induction false} UnescapeEscape(s: string)
    ensures Unescape(EscapeText(s)) == s
  {
    if s != [] {
      UnescapeStep(s[0], EscapeText(s[1..]));
      UnescapeEscape(s[1..]);
      assert [s[0]] + s[1..] == s;
    }
  }
}
