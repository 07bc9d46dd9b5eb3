// render_inline: one line of text with code, link, bold and italic spans.

module Inline {
  import opened Text
  import opened Html

  datatype Span =
    | Plain(text: string)
    | CodeSpan(text: string)
    | Link(caption: string, url: string)
    | Bold(text: string)
    | Italic(text: string)

  /** The characters a span was written with. */
  function Spelling(span: Span): string {
    match span
    case Plain(t) => t
    case CodeSpan(t) => "`" + t + "`"
    case Link(caption, url) => "[" + caption + "](" + url + ")"
    case Bold(t) => "**" + t + "**"
    case Italic(t) => "*" + t + "*"
  }

  // ---- the four alternatives of the pattern, anchored at the start of `s` ----

  function CodeAt(s: string): Option<Span> {
    if |s| > 0 && s[0] == '`' then
      var k := IndexOf(s[1..], '`');
      if 0 < k < |s| - 1 then Some(CodeSpan(s[1..k + 1])) else None
    else None
  }

  predicate IsUrlChar(c: char) {
    c != ')' && !IsSpace(c)
  }

  function LinkAt(s: string): Option<Span> {
    if |s| > 0 && s[0] == '[' then
      var k := IndexOf(s[1..], ']');
      if 0 < k < |s| - 1 && StartsWith(s[k + 2..], "(") then
        var r := s[k + 3..];
        var u := Run(IsUrlChar, r);
        if 0 < u < |r| && r[u] == ')' then Some(Link(s[1..k + 1], r[..u])) else None
      else None
    else None
  }

  function BoldAt(s: string): Option<Span> {
    if StartsWith(s, "**") then
      var k := IndexOf(s[2..], '*');
      if 0 < k && StartsWith(s[k + 2..], "**") then Some(Bold(s[2..k + 2])) else None
    else None
  }

  function ItalicAt(s: string): Option<Span> {
    if |s| > 0 && s[0] == '*' then
      var k := IndexOf(s[1..], '*');
      if 0 < k < |s| - 1 then Some(Italic(s[1..k + 1])) else None
    else None
  }

  function MatchAt(s: string): Option<Span> {
    if CodeAt(s).Some? then CodeAt(s)
    else if LinkAt(s).Some? then LinkAt(s)
    else if BoldAt(s).Some? then BoldAt(s)
    else ItalicAt(s)
  }

  /** What every span found by the pattern satisfies. */
  predicate Found(span: Span) {
    match span
    case Plain(_) => false
    case Link(caption, url) => caption != "" && url != ""
    case CodeSpan(t) => t != ""
    case Bold(t) => t != ""
    case Italic(t) => t != ""
  }

  lemma CodeSpelling(s: string)
    requires CodeAt(s).Some?
    ensures Found(CodeAt(s).value) && Spelling(CodeAt(s).value) <= s
  {
    var k := IndexOf(s[1..], '`');
    assert s[..k + 2] == "`" + s[1..k + 1] + "`";
  }

  lemma LinkSpelling(s: string)
    requires LinkAt(s).Some?
    ensures Found(LinkAt(s).value) && Spelling(LinkAt(s).value) <= s
  {
    var k := IndexOf(s[1..], ']');
    var r := s[k + 3..];
    var u := Run(IsUrlChar, r);
    assert s[1..][k] == ']' && s[k + 2..][0] == '(' && r[u] == ')';
    hide IsSpace, IndexOf, Run;
    assert s[..k + u + 4] == "[" + s[1..k + 1] + "](" + r[..u] + ")";
  }

  lemma BoldSpelling(s: string)
    requires BoldAt(s).Some?
    ensures Found(BoldAt(s).value) && Spelling(BoldAt(s).value) <= s
  {
    var k := IndexOf(s[2..], '*');
    assert s[k + 2..][..2] == "**";
    assert s[..k + 4] == "**" + s[2..k + 2] + "**";
  }

  lemma ItalicSpelling(s: string)
    requires ItalicAt(s).Some?
    ensures Found(ItalicAt(s).value) && Spelling(ItalicAt(s).value) <= s
  {
    var k := IndexOf(s[1..], '*');
    assert s[..k + 2] == "*" + s[1..k + 1] + "*";
  }

  /** A match consumes exactly the characters its span was written with. */
  lemma MatchSpelling(s: string)
    requires MatchAt(s).Some?
    ensures Found(MatchAt(s).value)
    ensures Spelling(MatchAt(s).value) <= s
  {
    hide CodeAt, LinkAt, BoldAt, ItalicAt, Found, Spelling;
    if CodeAt(s).Some? {
      CodeSpelling(s);
    } else if LinkAt(s).Some? {
      LinkSpelling(s);
    } else if BoldAt(s).Some? {
      BoldSpelling(s);
    } else {
      ItalicSpelling(s);
    }
  }

  /** Where the leftmost match in `s` starts, or `|s|`. */
  function FirstMatch(s: string): (k: nat)
    ensures k <= |s|
    ensures forall j :: 0 <= j < k ==> MatchAt(s[j..]).None?
    ensures k < |s| ==> MatchAt(s[k..]).Some?
  {
    if s == "" then 0
    else if MatchAt(s).Some? then assert s[0..] == s; 0
    else
      var k := FirstMatch(s[1..]);
      assert forall j :: 0 < j <= |s| ==> s[j..] == s[1..][j - 1..];
      assert s[0..] == s;
      k + 1
  }

  /** The line cut into plain text and matches, left to right. */
  function Spans(s: string): (spans: seq<Span>)
    decreases |s|
  {
    var k := FirstMatch(s);
    if k == |s| then [Plain(s)]
    else
      [Plain(s[..k]), MatchAt(s[k..]).value] + Spans(After(s))
  }

  function Spellings(spans: seq<Span>): string {
    if spans == [] then "" else Spelling(spans[0]) + Spellings(spans[1..])
  }

  lemma FoundIsLong(span: Span)
    requires Found(span)
    ensures |Spelling(span)| >= 3
  {
  }

  /** The line behind its first match. */
  function After(s: string): (rest: string)
    requires FirstMatch(s) < |s|
    ensures |rest| < |s|
    ensures s == s[..FirstMatch(s)] + (Spelling(MatchAt(s[FirstMatch(s)..]).value) + rest)
  {
    hide MatchAt, Spelling;
    var k := FirstMatch(s);
    MatchSpelling(s[k..]);
    FoundIsLong(MatchAt(s[k..]).value);
    CutBehind(s, k, Spelling(MatchAt(s[k..]).value));
    s[k..][|Spelling(MatchAt(s[k..]).value)|..]
  }

  lemma CutBehind(s: string, k: nat, t: string)
    requires k <= |s| && t <= s[k..]
    ensures s == s[..k] + (t + s[k..][|t|..])
  {
    assert s[k..] == t + s[k..][|t|..];
  }

  lemma SpansPair(a: Span, b: Span, rest: seq<Span>)
    ensures Spellings([a, b] + rest) == Spelling(a) + (Spelling(b) + Spellings(rest))
    ensures RenderSpans([a, b] + rest) == RenderSpan(a) + (RenderSpan(b) + RenderSpans(rest))
  {
    var s := [a, b] + rest;
    assert s[1..] == [b] + rest;
    assert s[1..][1..] == rest;
  }

  /** Cutting a line loses and invents nothing. */
  lemma {:induction false} SpansConserveText(s: string)
    ensures Spellings(Spans(s)) == s
    decreases |s|
  {
    var k := FirstMatch(s);
    if k == |s| {
      assert Spans(s)[1..] == [];
    } else {
      SpansConserveText(After(s));
      SpansPair(Plain(s[..k]), MatchAt(s[k..]).value, Spans(After(s)));
    }
  }

  // ---- links ----------------------------------------------------------------

  /** `s[i..j]` with nothing but white space before and behind it, and none at its own ends. */
  predicate TrimmedTo(s: string, i: nat, j: nat) {
    && i <= j <= |s|
    && (forall k :: 0 <= k < i ==> IsSpace(s[k])) && (forall k :: j <= k < |s| ==> IsSpace(s[k]))
    && (i < j ==> !IsSpace(s[i]) && !IsSpace(s[j - 1]))
  }

  ghost predicate Trims(s: string, t: string) {
    exists i: nat, j: nat :: TrimmedTo(s, i, j) && s[i..j] == t
  }

  lemma TrimIsUnique(s: string, t: string, u: string)
    requires Trims(s, t) && Trims(s, u)
    ensures t == u
  {
    hide IsSpace;
    var i: nat, j: nat :| TrimmedTo(s, i, j) && s[i..j] == t;
    var k: nat, l: nat :| TrimmedTo(s, k, l) && s[k..l] == u;
    if i < j && k < l {
      assert i == k && j == l;
    }
  }

  lemma TrimsPastFirst(s: string, t: string)
    requires s != "" && IsSpace(s[0]) && Trims(s[1..], t)
    ensures Trims(s, t)
  {
    hide IsSpace;
    var i: nat, j: nat :| TrimmedTo(s[1..], i, j) && s[1..][i..j] == t;
    assert s[i + 1..j + 1] == s[1..][i..j];
    assert forall k :: 1 <= k < |s| ==> s[k] == s[1..][k - 1];
    assert TrimmedTo(s, i + 1, j + 1);
  }

  lemma TrimsBeforeLast(s: string, t: string)
    requires s != "" && IsSpace(s[|s| - 1]) && Trims(s[..|s| - 1], t)
    ensures Trims(s, t)
  {
    hide IsSpace;
    var init := s[..|s| - 1];
    var i: nat, j: nat :| TrimmedTo(init, i, j) && init[i..j] == t;
    assert s[i..j] == init[i..j];
    assert TrimmedTo(s, i, j);
  }

  lemma {:induction false} StripTrims(s: string)
    ensures Trims(s, Strip(s))
    decreases |s|
  {
    hide IsSpace;
    if s == "" {
      assert TrimmedTo(s, 0, 0);
    } else if IsSpace(s[0]) {
      hide Trims;
      StripTrims(s[1..]);
      TrimsPastFirst(s, Strip(s));
    } else if IsSpace(s[|s| - 1]) {
      hide Trims;
      StripTrims(s[..|s| - 1]);
      TrimsBeforeLast(s, Strip(s));
    } else {
      assert TrimmedTo(s, 0, |s|) && s[0..|s|] == s;
    }
  }

  function Strip(s: string): (r: string)
    ensures |r| <= |s|
    decreases |s|
  {
    if s == "" then ""
    else if IsSpace(s[0]) then Strip(s[1..])
    else if IsSpace(s[|s| - 1]) then Strip(s[..|s| - 1])
    else s
  }

  const MAX_URL_LENGTH: nat := 2048

  /**
   * The address a link may carry: exactly the trimmed ones of at most 2048 characters with one of the
   * three safe schemes.
   */
  function SafeUrl(url: string): (r: Option<string>)
    ensures r.Some? ==>
            Trims(url, r.value) && SafeScheme(r.value) && 7 <= |r.value| <= MAX_URL_LENGTH && |r.value| <= |url|
    ensures forall t :: Trims(url, t) && |t| <= MAX_URL_LENGTH && SafeScheme(t) ==> r == Some(t)
  {
    var candidate := Strip(url);
    StripIsTheTrim(url);
    if candidate == "" || |candidate| > MAX_URL_LENGTH then None
    else if SafeScheme(candidate) then Some(candidate)
    else None
  }

  lemma StripIsTheTrim(url: string)
    ensures Trims(url, Strip(url)) && forall t :: Trims(url, t) ==> t == Strip(url)
  {
    StripTrims(url);
    forall t | Trims(url, t)
      ensures t == Strip(url)
    {
      TrimIsUnique(url, t, Strip(url));
    }
  }

  // ---- rendering ------------------------------------------------------------

  function AnchorTag(url: string): string {
    "a href=\"" + Escape(url) + "\" rel=\"noopener noreferrer\""
  }

  function RenderSpan(span: Span): string {
    match span
    case Plain(t) => Escape(t)
    case CodeSpan(t) => Element("code", "code", Escape(t))
    case Link(caption, url) =>
      if SafeUrl(url).None? then Escape(caption)
      else Element(AnchorTag(SafeUrl(url).value), "a", Escape(caption))
    case Bold(t) => Element("strong", "strong", Escape(t))
    case Italic(t) => Element("em", "em", Escape(t))
  }

  function RenderSpans(spans: seq<Span>): string {
    if spans == [] then "" else RenderSpan(spans[0]) + RenderSpans(spans[1..])
  }

  function InlineHtml(line: string): string {
    RenderSpans(Spans(line))
  }

  lemma SpansUnfold(s: string)
    ensures FirstMatch(s) == |s| ==> Spans(s) == [Plain(s)]
    ensures FirstMatch(s) < |s| ==>
              Spans(s) == [Plain(s[..FirstMatch(s)]), MatchAt(s[FirstMatch(s)..]).value] + Spans(After(s))
  {
    hide MatchAt, FirstMatch, After;
  }

  lemma InlineUnfold(s: string)
    ensures FirstMatch(s) == |s| ==> InlineHtml(s) == Escape(s)
    ensures FirstMatch(s) < |s| ==>
              InlineHtml(s)
              == Escape(s[..FirstMatch(s)]) + (RenderSpan(MatchAt(s[FirstMatch(s)..]).value) + InlineHtml(After(s)))
  {
    hide MatchAt, FirstMatch, After, Spans, Escape, SafeUrl;
    var k := FirstMatch(s);
    SpansUnfold(s);
    if k == |s| {
      assert RenderSpans([Plain(s)]) == RenderSpan(Plain(s)) + RenderSpans([]);
    } else {
      SpansPair(Plain(s[..k]), MatchAt(s[k..]).value, Spans(After(s)));
    }
  }

  /** render_inline, with the loop over the matches of the pattern. */
  method RenderInline(text: string) returns (html: string)
    ensures html == InlineHtml(text)
  {
    hide MatchAt, FirstMatch, InlineHtml, Escape, RenderSpan;
    html := "";
    var position := 0;
    assert text[0..] == text;
    var start := FirstMatch(text);
    while position + start < |text|
      invariant position <= |text| && start == FirstMatch(text[position..])
      invariant html + InlineHtml(text[position..]) == InlineHtml(text)
      decreases |text| - position
    {
      ghost var rest := text[position..];
      InlineUnfold(rest);
      assert text[position + start..] == rest[start..];
      assert text[position..position + start] == rest[..start];
      var m := MatchAt(text[position + start..]).value;
      MatchSpelling(rest[start..]);
      html := html + Escape(text[position..position + start]);
      html := html + RenderSpan(m);
      assert text[position + start + |Spelling(m)|..] == rest[start..][|Spelling(m)|..];
      position := position + start + |Spelling(m)|;
      start := FirstMatch(text[position..]);
    }
    InlineUnfold(text[position..]);
    html := html + Escape(text[position..]);
  }

  lemma AnchorMarkup(url: string)
    requires SafeScheme(url)
    ensures Markup(AnchorTag(url)) == Some(Open("a")) && '>' !in AnchorTag(url)
    ensures |AnchorTag(url)| == 35 + |Escape(url)|
  {
    EscapeIsClean(url);
    UnescapeOfEscape(url);
    hide Unescape, SafeScheme, Escape;
    var t, before, after := AnchorTag(url), "a href=\"", "\" rel=\"noopener noreferrer\"";
    assert t == before + Escape(url) + after;
    assert t[|t| - |after|..] == after;
    assert t[|before|..|t| - |after|] == Escape(url);
    assert Wrapped(t, before, after);
    assert t[0] == 'a' && t[1] == ' ';
  }

  /** A rendered span leaves the open tags as they were. */
  lemma SpanScans(span: Span, open: seq<string>)
    ensures Scan(RenderSpan(span), open) == Some(open)
  {
    match span
    case Plain(t) => EscapeIsClean(t); ScanClean(Escape(t), open);
    case CodeSpan(t) =>
      EscapeIsClean(t); ScanClean(Escape(t), ["code"] + open); ScanElement("code", "code", Escape(t), open);
    case Bold(t) =>
      EscapeIsClean(t); ScanClean(Escape(t), ["strong"] + open); ScanElement("strong", "strong", Escape(t), open);
    case Italic(t) =>
      EscapeIsClean(t); ScanClean(Escape(t), ["em"] + open); ScanElement("em", "em", Escape(t), open);
    case Link(caption, url) =>
      EscapeIsClean(caption);
      if SafeUrl(url).None? {
        ScanClean(Escape(caption), open);
      } else {
        AnchorMarkup(SafeUrl(url).value);
        ScanClean(Escape(caption), ["a"] + open);
        ScanElement(AnchorTag(SafeUrl(url).value), "a", Escape(caption), open);
      }
  }

  lemma {:induction false} SpansScan(spans: seq<Span>, open: seq<string>)
    ensures Scan(RenderSpans(spans), open) == Some(open)
  {
    if spans != [] {
      SpanScans(spans[0], open);
      SpansScan(spans[1..], open);
      ScanConcat(RenderSpan(spans[0]), RenderSpans(spans[1..]), open);
    }
  }

  /** Whatever the line says, its HTML is balanced and stays inside the tag vocabulary. */
  lemma InlineScans(line: string, open: seq<string>)
    ensures Scan(InlineHtml(line), open) == Some(open)
  {
    SpansScan(Spans(line), open);
  }

  lemma SpanSize(span: Span)
    requires span.Plain? || Found(span)
    ensures |RenderSpan(span)| <= 8 * |Spelling(span)|
  {
    match span
    case Plain(t) => EscapeIsClean(t);
    case CodeSpan(t) => EscapeIsClean(t);
    case Bold(t) => EscapeIsClean(t);
    case Italic(t) => EscapeIsClean(t);
    case Link(caption, url) =>
      EscapeIsClean(caption);
      if SafeUrl(url).Some? {
        EscapeIsClean(SafeUrl(url).value);
        AnchorMarkup(SafeUrl(url).value);
      }
  }

  lemma {:induction false} InlineSize(s: string)
    ensures |InlineHtml(s)| <= 8 * |s|
    decreases |s|
  {
    var k := FirstMatch(s);
    InlineUnfold(s);
    SpanSize(Plain(s[..k]));
    if k == |s| {
      assert s[..k] == s;
    } else {
      MatchSpelling(s[k..]);
      SpanSize(MatchAt(s[k..]).value);
      InlineSize(After(s));
    }
  }
}
