// HTML escaping, and an independent acceptor for the HTML the renderer may produce.

module Html {
  import opened Text

  /** `html.escape(s, quote=True)`, one character at a time. */
  function EscapeChar(c: char): string {
    match c
    case '&' => "&amp;"
    case '<' => "&lt;"
    case '>' => "&gt;"
    case '"' => "&quot;"
    case '\'' => "&#x27;"
    case _ => [c]
  }

  function Escape(s: string): string {
    if s == "" then "" else EscapeChar(s[0]) + Escape(s[1..])
  }

  /** Reads character references back; anything else stands for itself. */
  function Unescape(s: string): string
    decreases |s|
  {
    if s == "" then ""
    else if StartsWith(s, "&amp;") then "&" + Unescape(s[5..])
    else if StartsWith(s, "&lt;") then "<" + Unescape(s[4..])
    else if StartsWith(s, "&gt;") then ">" + Unescape(s[4..])
    else if StartsWith(s, "&quot;") then "\"" + Unescape(s[6..])
    else if StartsWith(s, "&#x27;") then "'" + Unescape(s[6..])
    else [s[0]] + Unescape(s[1..])
  }

  lemma UnescapeFirst(c: char, rest: string)
    ensures Unescape(EscapeChar(c) + rest) == [c] + Unescape(rest)
  {
    var e := EscapeChar(c) + rest;
    assert e[|EscapeChar(c)|..] == rest;
    match c
    case '&' => assert StartsWith(e, "&amp;");
    case '<' => assert StartsWith(e, "&lt;") && e[1] == 'l';
    case '>' => assert StartsWith(e, "&gt;") && e[1] == 'g';
    case '"' => assert StartsWith(e, "&quot;") && e[1] == 'q';
    case '\'' => assert StartsWith(e, "&#x27;") && e[1] == '#';
    case _ => assert e[0] != '&';
  }

  lemma {:induction false} UnescapeOfEscape(s: string)
    ensures Unescape(Escape(s)) == s
  {
    if s != "" {
      var rest := Escape(s[1..]);
      UnescapeOfEscape(s[1..]);
      UnescapeFirst(s[0], rest);
      assert s == [s[0]] + s[1..];
    }
  }

  /** The five characters that are written as references, and only these: text without them is left as it is. */
  lemma {:induction false} EscapedAre(s: string)
    ensures Escape("&") == "&amp;" && Escape("<") == "&lt;" && Escape(">") == "&gt;"
    ensures Escape("\"") == "&quot;" && Escape("'") == "&#x27;"
    ensures '&' !in s && '<' !in s && '>' !in s && '"' !in s && '\'' !in s ==> Escape(s) == s
  {
    assert Escape("") == "";
    if s != "" {
      EscapedAre(s[1..]);
      assert s == [s[0]] + s[1..];
    }
  }

  /** No character that could open or close a tag or an attribute value. */
  predicate Clean(s: string) {
    forall i :: 0 <= i < |s| ==> s[i] != '<' && s[i] != '>' && s[i] != '"'
  }

  lemma {:induction false} EscapeIsClean(s: string)
    ensures Clean(Escape(s))
    ensures |s| <= |Escape(s)| <= 6 * |s|
  {
    if s != "" {
      EscapeIsClean(s[1..]);
      assert Clean(EscapeChar(s[0]));
    }
  }

  /** `str.lower` on the letters that can occur in a scheme; no other code point lowers to them. */
  function Lower(s: string): (r: string)
    ensures |r| == |s|
  {
    seq(|s|, i requires 0 <= i < |s| => if 'A' <= s[i] <= 'Z' then (s[i] as int + 32) as char else s[i])
  }

  predicate SafeScheme(s: string) {
    || StartsWith(Lower(s), "http://")
    || StartsWith(Lower(s), "https://")
    || StartsWith(Lower(s), "mailto:")
  }

  // ---- the acceptor -------------------------------------------------------

  datatype Mark = Void | Open(name: string) | Close(name: string)

  /** The whole tag vocabulary of a rendered document. */
  const NAMES: set<string> := {
    "p", "ul", "ol", "li", "blockquote", "pre", "code", "a", "strong", "em",
    "h1", "h2", "h3", "h4", "h5", "h6", "article", "section"}

  /** The most blockquotes that may be open at once. */
  const MAX_OPEN_QUOTES: nat := 33

  predicate Wrapped(t: string, before: string, after: string) {
    && |before| + |after| <= |t|
    && before <= t
    && t[|t| - |after|..] == after
    && Clean(t[|before|..|t| - |after|])
  }

  const HREF := "a href=\""
  const REL := "\" rel=\"noopener noreferrer\""

  /** What the characters between `<` and `>` say, if they are one of the allowed tags; a link only to a safe scheme. */
  function Markup(t: string): Option<Mark> {
    if t == "br /" then Some(Void)
    else if t == "article class=\"kronika-document\"" then Some(Open("article"))
    else if t == "section class=\"kronika-question\"" || t == "section class=\"kronika-answer\""
    then Some(Open("section"))
    else if |t| > 0 && t[0] == '/' then
      if t[1..] in NAMES then Some(Close(t[1..])) else None
    else if Wrapped(t, HREF, REL) then
      if SafeScheme(Unescape(t[|HREF|..|t| - |REL|])) then Some(Open("a")) else None
    else if Wrapped(t, "code class=\"language-", "\"") then Some(Open("code"))
    else if t in NAMES then Some(Open(t))
    else None
  }

  function Quotes(open: seq<string>): nat {
    if open == [] then 0 else (if open[0] == "blockquote" then 1 else 0) + Quotes(open[1..])
  }

  /**
    * Reads `s` with the tags in `open` already open, innermost first, and gives the tags open
    * afterwards. Fails on an unknown tag, on a closing tag that does not match the innermost open
    * one, on a `>` or `"` outside a tag, and when more than MAX_OPEN_QUOTES quotes would be open.
    */
  function Scan(s: string, open: seq<string>): Option<seq<string>>
    decreases |s|
  {
    if s == "" then Some(open)
    else if s[0] == '<' then
      var k := IndexOf(s, '>');
      if k == |s| then None
      else
        match Markup(s[1..k])
        case None => None
        case Some(Void) => Scan(s[k + 1..], open)
        case Some(Open(name)) =>
          if name == "blockquote" && Quotes(open) >= MAX_OPEN_QUOTES then None
          else Scan(s[k + 1..], [name] + open)
        case Some(Close(name)) =>
          if open != [] && open[0] == name then Scan(s[k + 1..], open[1..]) else None
    else if s[0] == '>' || s[0] == '"' then None
    else Scan(s[1..], open)
  }

  /** What a reader sees: everything outside the tags, its character references still unread. */
  function Visible(s: string): string
    decreases |s|
  {
    if s == "" then ""
    else if s[0] == '<' then
      var k := IndexOf(s, '>');
      if k == |s| then "" else Visible(s[k + 1..])
    else [s[0]] + Visible(s[1..])
  }

  /** A complete document: every tag known, matched and properly nested. */
  predicate WellFormed(html: string) {
    Scan(html, []) == Some([])
  }

  lemma {:induction false} ScanConcat(a: string, b: string, open: seq<string>)
    requires Scan(a, open).Some?
    ensures Scan(a + b, open) == Scan(b, Scan(a, open).value)
    decreases |a|
  {
    if a == "" {
      assert a + b == b;
    } else if a[0] == '<' {
      var k := IndexOf(a, '>');
      IndexOfConcat(a, b, '>');
      assert (a + b)[1..k] == a[1..k];
      assert (a + b)[k + 1..] == a[k + 1..] + b;
      var m := Markup(a[1..k]).value;
      ScanConcat(a[k + 1..], b, match m case Void => open case Open(n) => [n] + open case Close(n) => open[1..]);
    } else {
      assert (a + b)[1..] == a[1..] + b;
      ScanConcat(a[1..], b, open);
    }
  }

  lemma {:induction false} ScanClean(s: string, open: seq<string>)
    requires Clean(s)
    ensures Scan(s, open) == Some(open)
  {
    if s != "" {
      ScanClean(s[1..], open);
    }
  }

  /** One tag, read on its own. */
  lemma ScanTag(t: string, open: seq<string>)
    requires '>' !in t && Markup(t).Some?
    ensures Markup(t).value.Void? ==> Scan("<" + t + ">", open) == Some(open)
    ensures Markup(t).value.Open? && (Markup(t).value.name == "blockquote" ==> Quotes(open) < MAX_OPEN_QUOTES) ==>
              Scan("<" + t + ">", open) == Some([Markup(t).value.name] + open)
    ensures Markup(t).value.Close? && open != [] && open[0] == Markup(t).value.name ==>
              Scan("<" + t + ">", open) == Some(open[1..])
  {
    var s := "<" + t + ">";
    var k := IndexOf(s, '>');
    assert s[|t| + 1] == '>';
    assert forall i :: 0 <= i < |t| ==> s[i + 1] == t[i];
    assert k == |t| + 1;
    assert s[1..k] == t;
    assert s[k + 1..] == "";
  }

  lemma CloseMarkup(name: string)
    requires name in NAMES
    ensures Markup("/" + name) == Some(Close(name))
  {
    var t := "/" + name;
    assert t[0] == '/' && t[1..] == name;
    assert t != "br /" && t[0] != 'a' && t[0] != 's';
  }

  /** `<tag>body</name>` keeps what is open, when `body` does so inside the tag. */
  lemma ScanElement(tag: string, name: string, body: string, open: seq<string>)
    requires '>' !in tag && '>' !in name && name in NAMES && Markup(tag) == Some(Open(name))
    requires name == "blockquote" ==> Quotes(open) < MAX_OPEN_QUOTES
    requires Scan(body, [name] + open) == Some([name] + open)
    ensures Scan(Element(tag, name, body), open) == Some(open)
  {
    var inner := [name] + open;
    assert inner[1..] == open;
    var a, z := "<" + tag + ">", "<" + ("/" + name) + ">";
    CloseMarkup(name);
    hide Markup, Scan;
    ScanTag(tag, open);
    ScanTag("/" + name, inner);
    ScanConcat(body, z, inner);
    ScanConcat(a, body + z, open);
    ElementParts(tag, name, body);
  }

  lemma ElementParts(tag: string, name: string, body: string)
    ensures Element(tag, name, body) == ("<" + tag + ">") + (body + ("<" + ("/" + name) + ">"))
  {
    assert "</" + name + ">" == "<" + ("/" + name) + ">";
  }

  function Element(tag: string, name: string, body: string): string {
    "<" + tag + ">" + body + "</" + name + ">"
  }

  /** An element in the characters of its tags. */
  lemma ElementIs(tag: string, name: string, body: string, opening: string, closing: string)
    requires "<" + tag + ">" == opening && "</" + name + ">" == closing
    ensures Element(tag, name, body) == opening + body + closing
  {
    assert "<" + tag + ">" + body + "</" + name + ">" == ("<" + tag + ">") + body + ("</" + name + ">");
  }

  // ---- what a reader sees ---------------------------------------------------

  lemma {:induction false} VisibleConcat(a: string, b: string, open: seq<string>)
    requires Scan(a, open).Some?
    ensures Visible(a + b) == Visible(a) + Visible(b)
    decreases |a|
  {
    if a == "" {
      assert a + b == b;
    } else if a[0] == '<' {
      var k := IndexOf(a, '>');
      IndexOfConcat(a, b, '>');
      assert (a + b)[k + 1..] == a[k + 1..] + b;
      var m := Markup(a[1..k]).value;
      hide Markup;
      VisibleConcat(a[k + 1..], b, match m case Void => open case Open(n) => [n] + open case Close(n) => open[1..]);
    } else {
      assert (a + b)[1..] == a[1..] + b;
      VisibleConcat(a[1..], b, open);
      AppendChar(a[0], Visible(a[1..]), Visible(b));
    }
  }

  lemma AppendChar(c: char, s: string, t: string)
    ensures [c] + (s + t) == ([c] + s) + t
  {
  }

  lemma {:induction false} VisibleClean(s: string)
    requires Clean(s)
    ensures Visible(s) == s
  {
    if s != "" {
      VisibleClean(s[1..]);
      assert s == [s[0]] + s[1..];
    }
  }

  lemma VisibleTag(t: string)
    requires '>' !in t
    ensures Visible("<" + t + ">") == ""
  {
    var s := "<" + t + ">";
    assert s[|t| + 1] == '>';
    assert forall i :: 0 <= i < |t| ==> s[i + 1] == t[i];
    assert IndexOf(s, '>') == |t| + 1;
    assert s[|t| + 2..] == "";
  }

  /** Nothing of a tag is seen. */
  lemma VisibleElement(tag: string, name: string, body: string, open: seq<string>)
    requires '>' !in tag && '>' !in name && name in NAMES && Markup(tag) == Some(Open(name))
    requires name == "blockquote" ==> Quotes(open) < MAX_OPEN_QUOTES
    requires Scan(body, [name] + open) == Some([name] + open)
    ensures Visible(Element(tag, name, body)) == Visible(body)
  {
    hide Markup, Scan, Visible, Element;
    ElementParts(tag, name, body);
    var a, z := "<" + tag + ">", "<" + ("/" + name) + ">";
    ScanTag(tag, open);
    VisibleTag(tag);
    VisibleTag("/" + name);
    VisibleConcat(a, body + z, open);
    VisibleConcat(body, z, [name] + open);
    assert "" + Visible(body) == Visible(body) == Visible(body) + "";
  }

  lemma {:induction false} EscapeConcat(a: string, b: string)
    ensures Escape(a + b) == Escape(a) + Escape(b)
    decreases |a|
  {
    hide EscapeChar;
    if a == "" {
      assert a + b == b;
    } else {
      assert (a + b)[1..] == a[1..] + b;
      EscapeConcat(a[1..], b);
      assert EscapeChar(a[0]) + (Escape(a[1..]) + Escape(b)) == (EscapeChar(a[0]) + Escape(a[1..])) + Escape(b);
    }
  }
}
