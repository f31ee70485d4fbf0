/**
 * The `escapeHtml` helpers of the browser scripts: the five characters that
 * carry meaning in HTML text and attribute values are replaced by character
 * references, everything else is left alone. The partner is a reader of
 * those five references, which gives the text back.
 */
module Html {
  import opened JsValues
  import opened Text

  /** The characters `escapeHtml` replaces. */
  predicate Special(c: char) {
    c == '&' || c == '<' || c == '>' || c == '"' || c == '\''
  }

  /** The replacement of one character. */
  function Reference(c: char): (r: string)
    ensures Special(c) ==> |r| >= 4 && r[0] == '&'
    ensures !Special(c) ==> r == [c]
  {
    match c
    case '&' => "&amp;"
    case '<' => "&lt;"
    case '>' => "&gt;"
    case '"' => "&quot;"
    case '\'' => "&#39;"
    case _ => [c]
  }

  /** `s.replace(/[&<>"']/g, ...)` with the table `&amp; &lt; &gt; &quot; &#39;`. */
  function EscapeHtml(s: string): (r: string)
    ensures |r| >= |s|
    ensures r == [] <==> s == []
  {
    if s == [] then [] else Reference(s[0]) + EscapeHtml(s[1..])
  }

  /** Reads the five references back; any other text is kept as it is. */
  function Unescape(s: string): string
    decreases |s|
  {
    if s == [] then []
    else if s[0] != '&' then [s[0]] + Unescape(s[1..])
    else if |s| >= 5 && s[..5] == "&amp;" then "&" + Unescape(s[5..])
    else if |s| >= 4 && s[..4] == "&lt;" then "<" + Unescape(s[4..])
    else if |s| >= 4 && s[..4] == "&gt;" then ">" + Unescape(s[4..])
    else if |s| >= 6 && s[..6] == "&quot;" then "\"" + Unescape(s[6..])
    else if |s| >= 5 && s[..5] == "&#39;" then "'" + Unescape(s[5..])
    else [s[0]] + Unescape(s[1..])
  }

  lemma UnescapeOther(c: char, rest: string)
    requires !Special(c)
    ensures Unescape([c] + rest) == [c] + Unescape(rest)
  {
    var e := [c] + rest;
    assert e[0] == c;
    assert e[1..] == rest;
  }

  /** A reference is read back as its character by the branch that matches it, whatever follows it. */
  lemma UnescapeSpecial(c: char, rest: string)
    requires Special(c)
    ensures Unescape(Reference(c) + rest) == [c] + Unescape(rest)
  {
    var h := Reference(c);
    var e := h + rest;
    assert e[1] == h[1];
    assert e[..|h|] == h;
    assert e[|h|..] == rest;
  }

  /** The reference of one character reads back as that character, whatever follows it. */
  lemma UnescapeReference(c: char, rest: string)
    ensures Unescape(Reference(c) + rest) == [c] + Unescape(rest)
  {
    if Special(c) {
      UnescapeSpecial(c, rest);
    } else {
      UnescapeOther(c, rest);
    }
  }

  /** Reading the escaped text gives the original text back: nothing is lost or confused. */
  lemma {:induction false} UnescapeEscape(s: string)
    ensures Unescape(EscapeHtml(s)) == s
  {
    if s != [] {
      UnescapeEscape(s[1..]);
      UnescapeReference(s[0], EscapeHtml(s[1..]));
      assert [s[0]] + s[1..] == s;
    }
  }

  /** The escaped text holds none of `< > " '`: it cannot open a tag or close an attribute. */
  lemma {:induction false} EscapeHtmlInert(s: string)
    ensures forall i :: 0 <= i < |EscapeHtml(s)| ==> EscapeHtml(s)[i] !in "<>\"'"
  {
    if s != [] {
      EscapeHtmlInert(s[1..]);
      var r := EscapeHtml(s);
      var h := Reference(s[0]);
      forall i | 0 <= i < |r| ensures r[i] !in "<>\"'" {
        if i >= |h| {
          assert r[i] == EscapeHtml(s[1..])[i - |h|];
        }
      }
    }
  }

  /** Text without any of the five characters is left exactly as it is. */
  lemma {:induction false} EscapeHtmlPlain(s: string)
    requires forall i :: 0 <= i < |s| ==> !Special(s[i])
    ensures EscapeHtml(s) == s
  {
    if s != [] {
      EscapeHtmlPlain(s[1..]);
      assert [s[0]] + s[1..] == s;
    }
  }

  /** `escapeHtml` of relatorio-prestacao.js: `String(str ?? '')`, so null and undefined give the empty string. */
  function EscapeHtmlNullish(v: JsValue): (r: string)
    ensures r == "" <==> Nullish(v) || v == Str("")
  {
    EscapeHtml(ToStr(Coalesce(v, Str(""))))
  }

  /** `escapeHtml` of registro-saida.js: `String(s || '')`, so every falsy value, zero included, gives the empty string. */
  function EscapeHtmlFalsy(v: JsValue): (r: string)
    ensures r == "" <==> Falsy(v)
  {
    EscapeHtml(ToStr(OrElse(v, Str(""))))
  }

  /** The two helpers agree on every value except the number zero, which only the `??` one shows. */
  lemma EscapeVariants(v: JsValue)
    ensures EscapeHtmlNullish(v) == EscapeHtmlFalsy(v) <==> v != Int(0)
  {
    if v == Int(0) {
      assert EscapeHtmlNullish(v) != "";
    }
  }
}
