// What a reader of a rendered document sees: the text of its blocks, and nothing else.

module MarkdownVisible {
  import opened Text
  import opened Html
  import opened Inline
  import opened Markdown
  import opened MarkdownLaws

  // ---- the text of spans, lines and blocks ------------------------------------------------

  function SpanText(span: Span): string {
    match span
    case Plain(t) => t
    case CodeSpan(t) => t
    case Link(caption, _) => caption
    case Bold(t) => t
    case Italic(t) => t
  }

  function SpansText(spans: seq<Span>): string {
    if spans == [] then "" else SpanText(spans[0]) + SpansText(spans[1..])
  }

  function LineText(line: string): string {
    SpansText(Spans(line))
  }

  function LinesText(lines: seq<string>): string {
    if lines == [] then "" else LineText(lines[0]) + LinesText(lines[1..])
  }

  /** Code is seen as it stands, a quote as the document it is. */
  function BlockText(block: Block, depth: nat): string
    decreases Budget(depth), 0, 0
  {
    match block
    case Paragraph(lines) => LinesText(lines)
    case List(_, items) => LinesText(items)
    case Quote(lines) =>
      if depth >= MAX_QUOTE_DEPTH then LinesText(lines) else DocumentText(Join("\n", lines), depth + 1)
    case Code(_, lines) => Join("\n", lines)
    case Title(_, text) => LineText(text)
  }

  function BlocksText(blocks: seq<Block>, depth: nat): string
    decreases Budget(depth), 1, |blocks|
  {
    if blocks == [] then "" else BlockText(blocks[0], depth) + BlocksText(blocks[1..], depth)
  }

  function DocumentText(text: string, depth: nat): string
    decreases Budget(depth), 2, 0
  {
    BlocksText(Parse(text), depth)
  }

  // ---- inline ---------------------------------------------------------------------------------

  lemma SpanIsSeen(span: Span)
    ensures Visible(RenderSpan(span)) == Escape(SpanText(span))
  {
    hide Escape, Visible, Scan, Element, SafeScheme;
    var t := SpanText(span);
    EscapeIsClean(t);
    VisibleClean(Escape(t));
    match span
    case Plain(_) =>
    case CodeSpan(_) => ScanClean(Escape(t), ["code"] + []); VisibleElement("code", "code", Escape(t), []);
    case Bold(_) => ScanClean(Escape(t), ["strong"] + []); VisibleElement("strong", "strong", Escape(t), []);
    case Italic(_) => ScanClean(Escape(t), ["em"] + []); VisibleElement("em", "em", Escape(t), []);
    case Link(_, url) =>
      if SafeUrl(url).Some? {
        AnchorMarkup(SafeUrl(url).value);
        ScanClean(Escape(t), ["a"] + []);
        VisibleElement(AnchorTag(SafeUrl(url).value), "a", Escape(t), []);
      }
  }

  lemma {:induction false} SpansAreSeen(spans: seq<Span>)
    ensures Visible(RenderSpans(spans)) == Escape(SpansText(spans))
  {
    hide RenderSpan, SpanText;
    if spans != [] {
      SpanIsSeen(spans[0]);
      SpanScans(spans[0], []);
      SpansAreSeen(spans[1..]);
      VisibleConcat(RenderSpan(spans[0]), RenderSpans(spans[1..]), []);
      EscapeConcat(SpanText(spans[0]), SpansText(spans[1..]));
    }
  }

  lemma LineIsSeen(line: string)
    ensures Visible(InlineHtml(line)) == Escape(LineText(line))
  {
    SpansAreSeen(Spans(line));
  }

  // ---- blocks ---------------------------------------------------------------------------------

  lemma {:induction false} JoinedAreSeen(sep: string, parts: seq<string>, texts: seq<string>)
    requires Scan(sep, []) == Some([]) && Visible(sep) == "" && |parts| == |texts|
    requires forall i :: 0 <= i < |parts| ==>
             Scan(parts[i], []) == Some([]) && Visible(parts[i]) == Escape(LineText(texts[i]))
    ensures Visible(Join(sep, parts)) == Escape(LinesText(texts))
  {
    hide Scan, LineText, Visible, Escape;
    if |parts| == 0 {
      NothingIsSeen();
    } else if |parts| == 1 {
      assert texts[1..] == [];
      assert LineText(texts[0]) + "" == LineText(texts[0]);
    } else {
      var rest := Join(sep, parts[1..]);
      JoinedAreSeen(sep, parts[1..], texts[1..]);
      VisibleConcat(sep, rest, []);
      VisibleConcat(parts[0], sep + rest, []);
      assert parts[0] + sep + rest == parts[0] + (sep + rest);
      EscapeConcat(LineText(texts[0]), LinesText(texts[1..]));
      assert "" + Visible(rest) == Visible(rest);
    }
  }

  lemma NothingIsSeen()
    ensures Visible("") == "" == Escape("")
  {
  }

  lemma BrokenIsSeen(lines: seq<string>)
    ensures Visible(Broken(lines)) == Escape(LinesText(lines))
  {
    hide InlineHtml, LineText, LinesText, Escape;
    forall i | 0 <= i < |lines|
      ensures Scan(InlineEach(lines)[i], []) == Some([]) && Visible(InlineEach(lines)[i]) == Escape(LineText(lines[i]))
    {
      InlineScans(lines[i], []);
      LineIsSeen(lines[i]);
    }
    assert Markup("br /") == Some(Void);
    ScanTag("br /", []);
    VisibleTag("br /");
    assert "<" + "br /" + ">" == "<br />";
    hide Scan, Visible;
    JoinedAreSeen("<br />", InlineEach(lines), lines);
  }

  lemma ItemsAreSeen(items: seq<string>)
    ensures Visible(ItemsHtml(items)) == Escape(LinesText(items))
  {
    hide InlineHtml, LineText, LinesText, Escape, Element;
    forall i | 0 <= i < |items|
      ensures Scan(ItemEach(items)[i], []) == Some([]) && Visible(ItemEach(items)[i]) == Escape(LineText(items[i]))
    {
      InlineScans(items[i], ["li"] + []);
      LineIsSeen(items[i]);
      ScanElement("li", "li", InlineHtml(items[i]), []);
      VisibleElement("li", "li", InlineHtml(items[i]), []);
    }
    JoinedAreSeen("", ItemEach(items), items);
  }

  lemma CodeIsSeen(language: string, lines: seq<string>)
    ensures Visible(CodeHtml(language, lines)) == Escape(Join("\n", lines))
  {
    hide Element, Escape, Visible, Scan, Join;
    var body := Escape(Join("\n", lines));
    EscapeIsClean(Join("\n", lines));
    VisibleClean(body);
    CodeMarkup(language);
    ScanClean(body, ["code"] + (["pre"] + []));
    ScanElement(CodeTag(language), "code", body, ["pre"] + []);
    VisibleElement(CodeTag(language), "code", body, ["pre"] + []);
    VisibleElement("pre", "pre", Element(CodeTag(language), "code", body), []);
  }

  lemma TitleIsSeen(level: nat, text: string)
    requires 1 <= level <= 6
    ensures Visible(Element(HeadingName(level), HeadingName(level), InlineHtml(text))) == Escape(LineText(text))
  {
    var name := HeadingName(level);
    HeadingMarkup(level);
    hide HeadingName, Markup, InlineHtml, Element, LineText, Scan, Visible, Escape;
    InlineScans(text, [name] + []);
    LineIsSeen(text);
    VisibleElement(name, name, InlineHtml(text), []);
  }

  lemma {:induction false} BlockIsSeen(block: Block, depth: nat)
    requires Sound(block) && depth <= MAX_QUOTE_DEPTH
    ensures Visible(BlockHtml(block, depth)) == Escape(BlockText(block, depth))
    decreases Budget(depth), 0, 0
  {
    hide InlineHtml, Broken, ItemsHtml, DocumentHtml, CodeHtml, Scan, Visible, Escape, Element, LinesText, DocumentText;
    match block
    case Paragraph(lines) =>
      BrokenScans(lines, ["p"] + []);
      BrokenIsSeen(lines);
      VisibleElement("p", "p", Broken(lines), []);
    case List(tag, items) =>
      ItemsScan(items, [tag] + []);
      ItemsAreSeen(items);
      VisibleElement(tag, tag, ItemsHtml(items), []);
    case Code(language, lines) =>
      CodeIsSeen(language, lines);
    case Title(level, text) =>
      TitleIsSeen(level, text);
    case Quote(lines) =>
      var inner := ["blockquote"] + [];
      assert inner[1..] == [];
      if depth >= MAX_QUOTE_DEPTH {
        BrokenScans(lines, ["p"] + inner);
        BrokenIsSeen(lines);
        ScanElement("p", "p", Broken(lines), inner);
        VisibleElement("p", "p", Broken(lines), inner);
        VisibleElement("blockquote", "blockquote", Element("p", "p", Broken(lines)), []);
      } else {
        DocumentScans(Join("\n", lines), depth + 1, inner);
        DocumentIsSeen(Join("\n", lines), depth + 1);
        VisibleElement("blockquote", "blockquote", DocumentHtml(Join("\n", lines), depth + 1), []);
      }
  }

  lemma {:induction false} BlocksAreSeen(blocks: seq<Block>, depth: nat)
    requires forall i :: 0 <= i < |blocks| ==> Sound(blocks[i])
    requires depth <= MAX_QUOTE_DEPTH
    ensures Visible(BlocksHtml(blocks, depth)) == Escape(BlocksText(blocks, depth))
    decreases Budget(depth), 1, |blocks|
  {
    hide BlockHtml, BlockText, Scan;
    if blocks != [] {
      BlockIsSeen(blocks[0], depth);
      BlocksAreSeen(blocks[1..], depth);
      BlockScans(blocks[0], depth, []);
      VisibleConcat(BlockHtml(blocks[0], depth), BlocksHtml(blocks[1..], depth), []);
      EscapeConcat(BlockText(blocks[0], depth), BlocksText(blocks[1..], depth));
    }
  }

  lemma {:induction false} DocumentIsSeen(text: string, depth: nat)
    requires depth <= MAX_QUOTE_DEPTH
    ensures Visible(DocumentHtml(text, depth)) == Escape(DocumentText(text, depth))
    decreases Budget(depth), 2, 0
  {
    hide BlocksHtml, BlocksText, Feed, Finish, Visible, Escape;
    FeedIsSound(EMPTY, Lines(text));
    BlocksAreSeen(Parse(text), depth);
  }

  /**
   * Strip the tags of a rendered document and read its character references: what is left is the text of its blocks.
   */
  lemma ReaderSeesTheText(text: string)
    ensures Unescape(Visible(DocumentHtml(text, 0))) == DocumentText(text, 0)
  {
    hide Visible, Escape, Unescape, DocumentHtml, DocumentText;
    DocumentIsSeen(text, 0);
    UnescapeOfEscape(DocumentText(text, 0));
  }
}
