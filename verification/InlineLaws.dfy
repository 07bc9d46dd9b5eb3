// The four inline patterns and their HTML, character by character.

module InlineLaws {
  import opened Text
  import opened Html
  import opened Inline

  /** A span as it stands at the front of `s`. */
  predicate PatternAt(s: string, span: Span) {
    match span
    case Plain(_) => false
    case CodeSpan(t) => "`" + t + "`" <= s && t != "" && '`' !in t
    case Link(caption, url) =>
      && "[" + caption + "](" + url + ")" <= s && caption != "" && ']' !in caption
      && url != "" && ')' !in url && forall i :: 0 <= i < |url| ==> !IsSpace(url[i])
    case Bold(t) => "**" + t + "**" <= s && t != "" && '*' !in t
    case Italic(t) => "*" + t + "*" <= s && t != "" && '*' !in t
  }

  /** The HTML of a span, tag by tag. */
  function SpanHtml(span: Span): string {
    match span
    case Plain(t) => Escape(t)
    case CodeSpan(t) => "<code>" + Escape(t) + "</code>"
    case Link(caption, url) =>
      if SafeUrl(url).None? then Escape(caption)
      else
        "<a href=\"" + (Escape(SafeUrl(url).value) + "\" rel=\"noopener noreferrer\">") + Escape(caption) + "</a>"
    case Bold(t) => "<strong>" + Escape(t) + "</strong>"
    case Italic(t) => "<em>" + Escape(t) + "</em>"
  }

  lemma IndexIs(s: string, t: string, c: char)
    requires t + [c] <= s && c !in t
    ensures IndexOf(s, c) == |t|
  {
    assert s[|t|] == (t + [c])[|t|] == c;
    assert forall i :: 0 <= i < |t| ==> s[i] == (t + [c])[i] == t[i];
  }

  lemma CodeMatches(s: string, t: string)
    requires "`" + t + "`" <= s && t != "" && '`' !in t
    ensures CodeAt(s) == Some(CodeSpan(t))
  {
    assert s[1..][..|t| + 1] == t + ['`'];
    IndexIs(s[1..], t, '`');
    assert s[1..|t| + 1] == t;
  }

  lemma BoldMatches(s: string, t: string)
    requires "**" + t + "**" <= s && t != "" && '*' !in t
    ensures BoldAt(s) == Some(Bold(t)) && ItalicAt(s).None?
  {
    var all := "**" + t + "**";
    assert s[..|all|] == all;
    assert s[2..][..|t| + 1] == t + ['*'];
    IndexIs(s[2..], t, '*');
    assert s[2..|t| + 2] == t;
    assert s[|t| + 2..][..2] == "**";
    assert s[1..][0] == '*';
  }

  lemma ItalicMatches(s: string, t: string)
    requires "*" + t + "*" <= s && t != "" && '*' !in t
    ensures ItalicAt(s) == Some(Italic(t)) && BoldAt(s).None?
  {
    var all := "*" + t + "*";
    assert s[..|all|] == all;
    assert s[1..][..|t| + 1] == t + ['*'];
    IndexIs(s[1..], t, '*');
    assert s[1..|t| + 1] == t;
    assert s[1] == t[0];
  }

  lemma LinkMatches(s: string, caption: string, url: string)
    requires PatternAt(s, Link(caption, url))
    ensures LinkAt(s) == Some(Link(caption, url))
  {
    hide IsSpace;
    var all := "[" + caption + "](" + url + ")";
    var n := |caption|;
    assert s[..|all|] == all;
    assert s[1..][..n + 1] == caption + [']'];
    IndexIs(s[1..], caption, ']');
    assert s[1..n + 1] == caption;
    assert s[n + 2] == '(' && StartsWith(s[n + 2..], "(");
    var r := s[n + 3..];
    assert all[n + 3..] == url + [')'];
    assert r[..|url| + 1] == s[..|all|][n + 3..];
    assert forall i :: 0 <= i <= |url| ==> r[i] == (url + [')'])[i];
    assert forall i :: 0 <= i < |url| ==> r[i] == url[i] && IsUrlChar(r[i]);
    assert r[|url|] == ')' && Run(IsUrlChar, r) == |url|;
    assert r[..|url|] == url;
  }

  /** The patterns exclude one another, and the match at a place is the one that stands there. */
  lemma MatchIff(s: string, span: Span)
    ensures MatchAt(s) == Some(span) <==> PatternAt(s, span)
  {
    if PatternAt(s, span) {
      match span
      case CodeSpan(t) => CodeMatches(s, t);
      case Link(caption, url) =>
        LinkMatches(s, caption, url);
        assert s[0] == '[';
      case Bold(t) =>
        BoldMatches(s, t);
        assert s[0] == '*';
      case Italic(t) =>
        ItalicMatches(s, t);
        assert s[0] == '*';
    } else if MatchAt(s) == Some(span) {
      MatchSpelling(s);
      MatchIsPattern(s);
    }
  }

  lemma MatchIsPattern(s: string)
    requires MatchAt(s).Some?
    ensures PatternAt(s, MatchAt(s).value)
  {
    MatchSpelling(s);
    hide CodeAt, LinkAt, BoldAt, ItalicAt;
    if CodeAt(s).Some? {
      CodeIsPattern(s);
    } else if LinkAt(s).Some? {
      LinkIsPattern(s);
    } else if BoldAt(s).Some? {
      BoldIsPattern(s);
    } else {
      ItalicIsPattern(s);
    }
  }

  lemma CodeIsPattern(s: string)
    requires CodeAt(s).Some?
    ensures CodeAt(s).value.CodeSpan? && '`' !in CodeAt(s).value.text
  {
    var k := IndexOf(s[1..], '`');
    assert s[1..k + 1] == s[1..][..k];
  }

  lemma LinkIsPattern(s: string)
    requires LinkAt(s).Some?
    ensures LinkAt(s).value.Link? && ']' !in LinkAt(s).value.caption
    ensures forall i :: 0 <= i < |LinkAt(s).value.url| ==> IsUrlChar(LinkAt(s).value.url[i])
  {
    hide IsSpace;
    var k := IndexOf(s[1..], ']');
    assert s[1..k + 1] == s[1..][..k];
  }

  lemma BoldIsPattern(s: string)
    requires BoldAt(s).Some?
    ensures BoldAt(s).value.Bold? && '*' !in BoldAt(s).value.text
  {
    var k := IndexOf(s[2..], '*');
    assert s[2..k + 2] == s[2..][..k];
  }

  lemma ItalicIsPattern(s: string)
    requires ItalicAt(s).Some?
    ensures ItalicAt(s).value.Italic? && '*' !in ItalicAt(s).value.text
  {
    var k := IndexOf(s[1..], '*');
    assert s[1..k + 1] == s[1..][..k];
  }

  // ---- the HTML of a line ------------------------------------------------------------------------

  lemma SpanIsLiteral(span: Span)
    ensures RenderSpan(span) == SpanHtml(span)
  {
    hide Escape, SafeUrl, Element;
    match span
    case Plain(_) =>
    case CodeSpan(t) => ElementIs("code", "code", Escape(t), "<code>", "</code>");
    case Link(caption, url) => LinkIsLiteral(caption, url);
    case Bold(t) => ElementIs("strong", "strong", Escape(t), "<strong>", "</strong>");
    case Italic(t) => ElementIs("em", "em", Escape(t), "<em>", "</em>");
  }

  lemma LinkIsLiteral(caption: string, url: string)
    ensures RenderSpan(Link(caption, url)) == SpanHtml(Link(caption, url))
  {
    hide Escape, SafeUrl, Element, AnchorTag;
    if SafeUrl(url).Some? {
      AnchorElement(SafeUrl(url).value, Escape(caption));
    }
  }

  lemma AnchorElement(safe: string, body: string)
    ensures Element(AnchorTag(safe), "a", body)
            == "<a href=\"" + (Escape(safe) + "\" rel=\"noopener noreferrer\">") + body + "</a>"
  {
    hide *;
    AnchorIs(safe);
    ClosingA();
    ElementIs(AnchorTag(safe), "a", body, "<a href=\"" + (Escape(safe) + "\" rel=\"noopener noreferrer\">"), "</a>");
  }

  lemma ClosingA()
    ensures "</" + "a" + ">" == "</a>"
  {
  }

  lemma AnchorIs(safe: string)
    ensures "<" + AnchorTag(safe) + ">" == "<a href=\"" + (Escape(safe) + "\" rel=\"noopener noreferrer\">")
  {
    hide Escape;
    var address := Escape(safe);
    assert "<" + HREF == "<a href=\"" && REL + ">" == "\" rel=\"noopener noreferrer\">";
    assert "<" + (HREF + address + REL) + ">" == ("<" + HREF) + (address + (REL + ">"));
  }

  /**
   * The first span of a line is rendered as its kind demands, what is before it is escaped, and what is behind it is
   * rendered in the same way; a line without any is escaped.
   */
  lemma InlineMeans(s: string, k: nat, span: Span)
    ensures (forall j, other :: 0 <= j <= |s| ==> !PatternAt(s[j..], other)) ==> InlineHtml(s) == Escape(s)
    ensures k <= |s| && PatternAt(s[k..], span) && (forall j, other :: 0 <= j < k ==> !PatternAt(s[j..], other)) ==>
              && k + |Spelling(span)| <= |s|
              && InlineHtml(s) == Escape(s[..k]) + (SpanHtml(span) + InlineHtml(s[k + |Spelling(span)|..]))
  {
    var first := FirstMatch(s);
    InlineUnfold(s);
    hide MatchAt, PatternAt, Escape, RenderSpan, SpanHtml, InlineHtml, Spelling;
    if first < |s| {
      MatchIff(s[first..], MatchAt(s[first..]).value);
    }
    if k <= |s| && PatternAt(s[k..], span) && forall j, other :: 0 <= j < k ==> !PatternAt(s[j..], other) {
      MatchIff(s[k..], span);
      FirstIs(s, k);
      SpanIsLiteral(span);
      MatchSpelling(s[k..]);
      assert s[k..][|Spelling(span)|..] == s[k + |Spelling(span)|..];
    }
  }

  lemma FirstIs(s: string, k: nat)
    requires k <= |s| && MatchAt(s[k..]).Some?
    requires forall j, other :: 0 <= j < k ==> !PatternAt(s[j..], other)
    ensures FirstMatch(s) == k && k < |s|
  {
    var first := FirstMatch(s);
    assert k < |s| by {
      MatchSpelling(s[k..]);
      FoundIsLong(MatchAt(s[k..]).value);
    }
    hide MatchAt, PatternAt;
    if first < k {
      MatchIff(s[first..], MatchAt(s[first..]).value);
    }
  }
}
