// render_markdown: line classification, the five line buffers, quote recursion.

module Markdown {
  import opened Text
  import opened Html
  import opened Inline

  const MAX_QUOTE_DEPTH: nat := 32

  // ---- the line patterns -----------------------------------------------------

  predicate IsLanguage(c: char) {
    'A' <= c <= 'Z' || 'a' <= c <= 'z' || '0' <= c <= '9' || c in {'_', '+', '.', '-'}
  }

  function SkipSpace(s: string): (r: string)
    ensures |r| <= |s|
  {
    s[Run(IsSpace, s)..]
  }

  predicate AllSpace(s: string) {
    SkipSpace(s) == ""
  }

  function FenceAt(line: string): (language: Option<string>)
    ensures language.Some? ==> 3 + |language.value| <= |line|
  {
    if StartsWith(line, "```") then
      var n := Run(IsLanguage, line[3..]);
      if n <= 32 && AllSpace(line[n + 3..]) then Some(line[3..n + 3]) else None
    else None
  }

  predicate IsHash(c: char) {
    c == '#'
  }

  function HeadingAt(line: string): (heading: Option<(nat, string)>)
    ensures heading.Some? ==> 1 <= heading.value.0 <= 6 && heading.value.0 + 1 + |heading.value.1| <= |line|
  {
    var level := Run(IsHash, line);
    if 1 <= level <= 6 && level < |line| && IsSpace(line[level]) then Some((level, SkipSpace(line[level + 1..])))
    else None
  }

  function QuoteAt(line: string): (text: Option<string>)
    ensures text.Some? ==> |text.value| + 2 <= |line|
  {
    var quote := SkipSpace(line);
    if StartsWith(quote, "> ") then Some(quote[2..]) else None
  }

  function UnorderedAt(line: string): (item: Option<string>)
    ensures item.Some? ==> |item.value| + 2 <= |line|
  {
    if |line| >= 2 && line[0] in {'-', '*'} && IsSpace(line[1]) then Some(SkipSpace(line[2..])) else None
  }

  function OrderedAt(line: string): (item: Option<string>)
    ensures item.Some? ==> |item.value| + 2 <= |line|
  {
    var n := Run(IsDecimal, line);
    if 1 <= n && n + 1 < |line| && line[n] in {'.', ')'} && IsSpace(line[n + 1]) then Some(SkipSpace(line[n + 2..]))
    else None
  }

  /** What a line is when it stands outside a fenced block. */
  datatype Kind =
    | Fence(language: string)
    | Blank
    | Heading(level: nat, text: string)
    | Quoted(text: string)
    | Item(tag: string, text: string)
    | Prose(text: string)

  function Classify(line: string): (kind: Kind)
    ensures kind.Heading? ==> 1 <= kind.level <= 6
    ensures kind.Item? ==> kind.tag == "ul" || kind.tag == "ol"
  {
    if FenceAt(line).Some? then Fence(FenceAt(line).value)
    else if AllSpace(line) then Blank
    else if HeadingAt(line).Some? then Heading(HeadingAt(line).value.0, HeadingAt(line).value.1)
    else if QuoteAt(line).Some? then Quoted(QuoteAt(line).value)
    else if UnorderedAt(line).Some? then Item("ul", UnorderedAt(line).value)
    else if OrderedAt(line).Some? then Item("ol", OrderedAt(line).value)
    else Prose(line)
  }

  // ---- the block structure of a document ------------------------------------

  datatype Block =
    | Paragraph(lines: seq<string>)
    | List(tag: string, items: seq<string>)
    | Quote(lines: seq<string>)
    | Code(language: string, lines: seq<string>)
    | Title(level: nat, text: string)

  datatype Buffers = Buffers(
    blocks: seq<Block>, paragraph: seq<string>, items: seq<string>, tag: string,
    quote: seq<string>, code: seq<string>, inCode: bool, language: string)

  const EMPTY := Buffers([], [], [], "ul", [], [], false, "")

  function FlushParagraph(b: Buffers): Buffers {
    if b.paragraph == [] then b
    else b.(blocks := b.blocks + [Paragraph(b.paragraph)], paragraph := [])
  }

  function FlushList(b: Buffers): Buffers {
    if b.items == [] then b
    else b.(blocks := b.blocks + [List(b.tag, b.items)], items := [], tag := "ul")
  }

  function FlushQuote(b: Buffers): Buffers {
    if b.quote == [] then b
    else b.(blocks := b.blocks + [Quote(b.quote)], quote := [])
  }

  function FlushCode(b: Buffers): Buffers {
    if !b.inCode && b.code == [] then b
    else b.(blocks := b.blocks + [Code(b.language, b.code)], code := [])
  }

  function FlushText(b: Buffers): Buffers {
    FlushQuote(FlushList(FlushParagraph(b)))
  }

  function Consume(b: Buffers, line: string): Buffers {
    var kind := Classify(line);
    if kind.Fence? then
      if b.inCode then FlushCode(b).(inCode := false, language := "")
      else FlushText(b).(inCode := true, language := kind.language)
    else if b.inCode then b.(code := b.code + [line])
    else
      match kind
      case Blank => FlushText(b)
      case Heading(level, text) =>
        var f := FlushText(b);
        f.(blocks := f.blocks + [Title(level, text)])
      case Quoted(text) =>
        var f := FlushList(FlushParagraph(b));
        f.(quote := f.quote + [text])
      case Item(tag, text) =>
        var f := FlushQuote(FlushParagraph(b));
        var g := if f.items != [] && tag != f.tag then FlushList(f) else f;
        g.(tag := tag, items := g.items + [text])
      case Prose(text) =>
        var f := FlushQuote(b);
        f.(paragraph := f.paragraph + [text])
      case Fence(_) => b
  }

  function Feed(b: Buffers, lines: seq<string>): Buffers
    decreases lines
  {
    if lines == [] then b else Feed(Consume(b, lines[0]), lines[1..])
  }

  function Finish(b: Buffers): Buffers {
    FlushText(FlushCode(b))
  }

  /** `text.replace("\r\n", "\n").replace("\r", "\n")`. */
  function Normalize(s: string): (r: string)
    ensures |r| <= |s|
    decreases |s|
  {
    if s == "" then ""
    else if s[0] == '\r' then "\n" + Normalize(if |s| > 1 && s[1] == '\n' then s[2..] else s[1..])
    else [s[0]] + Normalize(s[1..])
  }

  function Lines(text: string): (lines: seq<string>)
    ensures forall l :: l in lines ==> '\n' !in l
  {
    Split(Normalize(text))
  }

  function Parse(text: string): seq<Block> {
    Finish(Feed(EMPTY, Lines(text))).blocks
  }

  // ---- rendering -------------------------------------------------------------

  function InlineEach(lines: seq<string>): seq<string> {
    seq(|lines|, i requires 0 <= i < |lines| => InlineHtml(lines[i]))
  }

  /** `"<br />".join(render_inline(line) for line in lines)`. */
  function Broken(lines: seq<string>): string {
    Join("<br />", InlineEach(lines))
  }

  function ItemEach(items: seq<string>): seq<string> {
    seq(|items|, i requires 0 <= i < |items| => Element("li", "li", InlineHtml(items[i])))
  }

  function ItemsHtml(items: seq<string>): string {
    Join("", ItemEach(items))
  }

  const LEVELS: seq<string> := ["", "h1", "h2", "h3", "h4", "h5", "h6"]

  /** The heading tag of a level; the pattern admits levels one to six only. */
  function HeadingName(level: nat): string {
    if 1 <= level <= 6 then LEVELS[level] else "h6"
  }

  function CodeTag(language: string): string {
    if language == "" then "code" else "code class=\"language-" + Escape(language) + "\""
  }

  function CodeHtml(language: string, lines: seq<string>): string {
    Element("pre", "pre", Element(CodeTag(language), "code", Escape(Join("\n", lines))))
  }

  function Budget(depth: nat): nat {
    if depth < MAX_QUOTE_DEPTH then MAX_QUOTE_DEPTH - depth else 0
  }

  function BlockHtml(block: Block, depth: nat): string
    decreases Budget(depth), 0, 0
  {
    match block
    case Paragraph(lines) => Element("p", "p", Broken(lines))
    case List(tag, items) => Element(tag, tag, ItemsHtml(items))
    case Quote(lines) =>
      if depth >= MAX_QUOTE_DEPTH then Element("blockquote", "blockquote", Element("p", "p", Broken(lines)))
      else Element("blockquote", "blockquote", DocumentHtml(Join("\n", lines), depth + 1))
    case Code(language, lines) => CodeHtml(language, lines)
    case Title(level, text) => Element(HeadingName(level), HeadingName(level), InlineHtml(text))
  }

  function BlocksHtml(blocks: seq<Block>, depth: nat): string
    decreases Budget(depth), 1, |blocks|
  {
    if blocks == [] then "" else BlockHtml(blocks[0], depth) + BlocksHtml(blocks[1..], depth)
  }

  function DocumentHtml(text: string, depth: nat): string
    decreases Budget(depth), 2, 0
  {
    BlocksHtml(Parse(text), depth)
  }

  lemma {:induction false} BlocksHtmlConcat(a: seq<Block>, b: seq<Block>, depth: nat)
    ensures BlocksHtml(a + b, depth) == BlocksHtml(a, depth) + BlocksHtml(b, depth)
    decreases |a|
  {
    hide BlockHtml;
    if a == [] {
      assert a + b == b;
    } else {
      assert (a + b)[1..] == a[1..] + b;
      BlocksHtmlConcat(a[1..], b, depth);
    }
  }

  lemma BlocksHtmlSnoc(a: seq<Block>, block: Block, depth: nat)
    ensures BlocksHtml(a + [block], depth) == BlocksHtml(a, depth) + BlockHtml(block, depth)
  {
    hide BlockHtml;
    BlocksHtmlConcat(a, [block], depth);
    assert BlocksHtml([block], depth) == BlockHtml(block, depth) + BlocksHtml([], depth);
  }

  /** The renderer's mutable buffers; `blocks` holds HTML that is already rendered. */
  class Renderer {
    const depth: nat
    var blocks: string
    var paragraph: seq<string>
    var listItems: seq<string>
    var listTag: string
    var quoteLines: seq<string>
    var codeLines: seq<string>
    var inCode: bool
    var codeLanguage: string
    ghost var state: Buffers

    ghost predicate Valid()
      reads this
    {
      && blocks == BlocksHtml(state.blocks, depth)
      && paragraph == state.paragraph
      && listItems == state.items && listTag == state.tag
      && quoteLines == state.quote
      && codeLines == state.code && inCode == state.inCode && codeLanguage == state.language
    }

    constructor (depth: nat)
      ensures Valid() && state == EMPTY && this.depth == depth
    {
      this.depth := depth;
      blocks, paragraph, listItems, listTag, quoteLines := "", [], [], "ul", [];
      codeLines, inCode, codeLanguage := [], false, "";
      state := EMPTY;
    }

    method FlushParagraphs()
      requires Valid()
      modifies this
      ensures Valid() && state == FlushParagraph(old(state))
    {
      hide BlocksHtml, Element, Broken;
      if paragraph != [] {
        var html := RenderLines(paragraph);
        BlocksHtmlSnoc(state.blocks, Paragraph(paragraph), depth);
        blocks := blocks + Element("p", "p", html);
        paragraph := [];
      }
      state := FlushParagraph(state);
    }

    method FlushItems()
      requires Valid()
      modifies this
      ensures Valid() && state == FlushList(old(state))
    {
      hide BlocksHtml, Element, ItemsHtml;
      if listItems != [] {
        var html := RenderItems(listItems);
        BlocksHtmlSnoc(state.blocks, List(listTag, listItems), depth);
        blocks := blocks + Element(listTag, listTag, html);
        listItems, listTag := [], "ul";
      }
      state := FlushList(state);
    }

    method FlushQuotes()
      requires Valid()
      modifies this
      ensures Valid() && state == FlushQuote(old(state))
      decreases Budget(depth), 0
    {
      hide BlocksHtml, Parse, DocumentHtml, Element, Broken;
      if quoteLines != [] {
        BlocksHtmlSnoc(state.blocks, Quote(quoteLines), depth);
        if depth >= MAX_QUOTE_DEPTH {
          var html := RenderLines(quoteLines);
          blocks := blocks + Element("blockquote", "blockquote", Element("p", "p", html));
        } else {
          var html := RenderMarkdown(Join("\n", quoteLines), depth + 1);
          blocks := blocks + Element("blockquote", "blockquote", html);
        }
        quoteLines := [];
      }
      state := FlushQuote(state);
    }

    method FlushCodeLines()
      requires Valid()
      modifies this
      ensures Valid() && state == FlushCode(old(state))
    {
      hide BlocksHtml, CodeHtml;
      if inCode || codeLines != [] {
        BlocksHtmlSnoc(state.blocks, Code(codeLanguage, codeLines), depth);
        blocks := blocks + CodeHtml(codeLanguage, codeLines);
        codeLines := [];
      }
      state := FlushCode(state);
    }

    method FlushAllText()
      requires Valid()
      modifies this
      ensures Valid() && state == FlushText(old(state))
      decreases Budget(depth), 1
    {
      FlushParagraphs();
      FlushItems();
      FlushQuotes();
    }

    /** The body of the line loop. */
    method ConsumeLine(line: string)
      requires Valid()
      modifies this
      ensures Valid() && state == Consume(old(state), line)
      decreases Budget(depth), 2
    {
      hide BlocksHtml, Classify, InlineHtml, Element, HeadingName, FlushParagraph, FlushList, FlushQuote, FlushCode;
      ghost var before := state;
      var kind := Classify(line);
      if kind.Fence? {
        if inCode {
          FlushCodeLines();
          inCode, codeLanguage := false, "";
          state := state.(inCode := false, language := "");
        } else {
          FlushAllText();
          inCode, codeLanguage := true, kind.language;
          state := state.(inCode := true, language := kind.language);
        }
        return;
      }
      if inCode {
        codeLines := codeLines + [line];
        state := state.(code := codeLines);
        return;
      }
      match kind {
        case Blank =>
          FlushAllText();
        case Heading(level, text) =>
          FlushAllText();
          var html := RenderInline(text);
          BlocksHtmlSnoc(state.blocks, Title(level, text), depth);
          blocks := blocks + Element(HeadingName(level), HeadingName(level), html);
          state := state.(blocks := state.blocks + [Title(level, text)]);
        case Quoted(text) =>
          FlushParagraphs();
          FlushItems();
          quoteLines := quoteLines + [text];
          state := state.(quote := quoteLines);
        case Item(tag, text) =>
          FlushParagraphs();
          FlushQuotes();
          if listItems != [] && tag != listTag {
            FlushItems();
          }
          listTag, listItems := tag, listItems + [text];
          state := state.(tag := tag, items := listItems);
        case Prose(text) =>
          FlushQuotes();
          paragraph := paragraph + [text];
          state := state.(paragraph := paragraph);
        case Fence(_) =>
      }
      assert state == Consume(before, line);
    }
  }

  method RenderLines(lines: seq<string>) returns (html: string)
    ensures html == Broken(lines)
  {
    hide InlineHtml;
    var parts: seq<string> := [];
    for i := 0 to |lines|
      invariant parts == InlineEach(lines[..i])
    {
      var line := RenderInline(lines[i]);
      parts := parts + [line];
    }
    assert lines[..|lines|] == lines;
    html := Join("<br />", parts);
  }

  method RenderItems(items: seq<string>) returns (html: string)
    ensures html == ItemsHtml(items)
  {
    hide InlineHtml;
    var parts: seq<string> := [];
    for i := 0 to |items|
      invariant parts == ItemEach(items[..i])
    {
      var item := RenderInline(items[i]);
      parts := parts + [Element("li", "li", item)];
    }
    assert items[..|items|] == items;
    html := Join("", parts);
  }

  /** render_markdown itself: feed every line, then flush what is left. */
  method RenderMarkdown(text: string, depth: nat) returns (html: string)
    ensures html == DocumentHtml(text, depth)
    decreases Budget(depth), 3
  {
    hide BlocksHtml, Consume;
    var lines := Lines(text);
    var r := new Renderer(depth);
    var i := 0;
    assert lines[0..] == lines;
    while i < |lines|
      invariant 0 <= i <= |lines|
      invariant fresh(r) && r.depth == depth && r.Valid()
      invariant Feed(r.state, lines[i..]) == Feed(EMPTY, lines)
    {
      assert lines[i..][1..] == lines[i + 1..];
      r.ConsumeLine(lines[i]);
      i := i + 1;
    }
    r.FlushCodeLines();
    r.FlushAllText();
    html := r.blocks;
  }
}
