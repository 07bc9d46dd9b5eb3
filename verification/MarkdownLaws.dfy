// What every rendered document satisfies, for every input text.

module MarkdownLaws {
  import opened Text
  import opened Html
  import opened Inline
  import opened Markdown

  // ---- well-formed HTML with bounded quote nesting ---------------------------

  lemma {:induction false} JoinScans(sep: string, parts: seq<string>, open: seq<string>)
    requires Scan(sep, open) == Some(open)
    requires forall i :: 0 <= i < |parts| ==> Scan(parts[i], open) == Some(open)
    ensures Scan(Join(sep, parts), open) == Some(open)
  {
    if |parts| > 1 {
      JoinScans(sep, parts[1..], open);
      var rest := Join(sep, parts[1..]);
      ScanConcat(sep, rest, open);
      ScanConcat(parts[0], sep + rest, open);
      assert parts[0] + sep + rest == parts[0] + (sep + rest);
    }
  }

  lemma BrokenScans(lines: seq<string>, open: seq<string>)
    ensures Scan(Broken(lines), open) == Some(open)
  {
    hide InlineHtml;
    forall i | 0 <= i < |lines| ensures Scan(InlineEach(lines)[i], open) == Some(open) {
      InlineScans(lines[i], open);
    }
    assert Markup("br /") == Some(Void);
    ScanTag("br /", open);
    assert "<" + "br /" + ">" == "<br />";
    JoinScans("<br />", InlineEach(lines), open);
  }

  lemma ItemsScan(items: seq<string>, open: seq<string>)
    ensures Scan(ItemsHtml(items), open) == Some(open)
  {
    hide InlineHtml;
    forall i | 0 <= i < |items| ensures Scan(ItemEach(items)[i], open) == Some(open) {
      InlineScans(items[i], ["li"] + open);
      ScanElement("li", "li", InlineHtml(items[i]), open);
    }
    JoinScans("", ItemEach(items), open);
  }

  lemma CodeMarkup(language: string)
    ensures Markup(CodeTag(language)) == Some(Open("code")) && '>' !in CodeTag(language)
  {
    var t, before, after := CodeTag(language), "code class=\"language-", "\"";
    if language != "" {
      hide Escape, NAMES;
      EscapeIsClean(language);
      assert t == before + Escape(language) + after;
      assert t[|t| - |after|..] == after;
      assert t[|before|..|t| - |after|] == Escape(language);
      assert Wrapped(t, before, after);
      assert t[0] == 'c' && |t| > 20;
      assert !Wrapped(t, "a href=\"", "\" rel=\"noopener noreferrer\"");
    }
  }

  lemma CodeScans(language: string, lines: seq<string>, open: seq<string>)
    ensures Scan(CodeHtml(language, lines), open) == Some(open)
  {
    var body := Escape(Join("\n", lines));
    EscapeIsClean(Join("\n", lines));
    CodeMarkup(language);
    ScanClean(body, ["code"] + (["pre"] + open));
    ScanElement(CodeTag(language), "code", body, ["pre"] + open);
    ScanElement("pre", "pre", Element(CodeTag(language), "code", body), open);
  }

  /** The blocks a document can hold: list tags and heading levels that name real tags. */
  predicate Sound(block: Block) {
    && (block.List? ==> block.tag == "ul" || block.tag == "ol")
    && (block.Title? ==> 1 <= block.level <= 6)
  }

  /** No buffer is ever flushed empty. */
  predicate Filled(block: Block) {
    match block
    case Paragraph(lines) => lines != []
    case List(_, items) => items != []
    case Quote(lines) => lines != []
    case _ => true
  }

  predicate SoundBuffers(b: Buffers) {
    && (forall i :: 0 <= i < |b.blocks| ==> Sound(b.blocks[i]) && Filled(b.blocks[i]))
    && (b.tag == "ul" || b.tag == "ol")
  }

  lemma FlushIsSound(b: Buffers)
    requires SoundBuffers(b)
    ensures SoundBuffers(FlushParagraph(b)) && SoundBuffers(FlushList(b)) && SoundBuffers(FlushQuote(b))
            && SoundBuffers(FlushCode(b))
  {
  }

  lemma GrowIsSound(b: Buffers, level: nat, tag: string, text: string)
    requires SoundBuffers(b) && 1 <= level <= 6 && (tag == "ul" || tag == "ol")
    ensures SoundBuffers(b.(blocks := b.blocks + [Title(level, text)]))
    ensures SoundBuffers(b.(paragraph := b.paragraph + [text])) && SoundBuffers(b.(quote := b.quote + [text]))
    ensures SoundBuffers(b.(code := b.code + [text])) && SoundBuffers(b.(tag := tag, items := b.items + [text]))
    ensures forall inCode, language :: SoundBuffers(b.(inCode := inCode, language := language))
  {
  }

  lemma ConsumeIsSound(b: Buffers, line: string)
    requires SoundBuffers(b)
    ensures SoundBuffers(Consume(b, line))
  {
    hide FlushParagraph, FlushList, FlushQuote, FlushCode, SoundBuffers, Classify;
    FlushIsSound(b);
    var p := FlushParagraph(b);
    FlushIsSound(p);
    FlushIsSound(FlushList(p));
    var kind := Classify(line);
    if kind.Fence? {
      GrowIsSound(FlushCode(b), 1, "ul", "");
      GrowIsSound(FlushText(b), 1, "ul", "");
    } else if b.inCode {
      GrowIsSound(b, 1, "ul", line);
    } else {
      match kind
      case Heading(level, text) => GrowIsSound(FlushText(b), level, "ul", text);
      case Quoted(text) => GrowIsSound(FlushList(p), 1, "ul", text);
      case Prose(text) => GrowIsSound(FlushQuote(b), 1, "ul", text);
      case Item(tag, text) =>
        var q := FlushQuote(p);
        FlushIsSound(q);
        GrowIsSound(if q.items != [] && tag != q.tag then FlushList(q) else q, 1, tag, text);
      case Blank =>
      case Fence(_) =>
    }
  }

  lemma {:induction false} FeedIsSound(b: Buffers, lines: seq<string>)
    requires SoundBuffers(b)
    ensures SoundBuffers(Finish(Feed(b, lines)))
    decreases lines
  {
    hide Consume, FlushParagraph, FlushList, FlushQuote, FlushCode, SoundBuffers;
    if lines == [] {
      FlushIsSound(b);
      FlushIsSound(FlushCode(b));
      FlushIsSound(FlushParagraph(FlushCode(b)));
      FlushIsSound(FlushList(FlushParagraph(FlushCode(b))));
    } else {
      ConsumeIsSound(b, lines[0]);
      FeedIsSound(Consume(b, lines[0]), lines[1..]);
    }
  }

  lemma TitleScans(level: nat, text: string, open: seq<string>)
    requires 1 <= level <= 6
    ensures Scan(Element(HeadingName(level), HeadingName(level), InlineHtml(text)), open) == Some(open)
  {
    hide InlineHtml;
    var name := HeadingName(level);
    HeadingMarkup(level);
    InlineScans(text, [name] + open);
    hide HeadingName, Markup;
    ScanElement(name, name, InlineHtml(text), open);
  }

  lemma HeadingMarkup(level: nat)
    requires 1 <= level <= 6
    ensures var name := HeadingName(level);
            name in NAMES && Markup(name) == Some(Open(name)) && '>' !in name && name != "blockquote"
  {
    var name := HeadingName(level);
    assert name == "h1" || name == "h2" || name == "h3" || name == "h4" || name == "h5" || name == "h6";
  }

  lemma {:induction false} BlockScans(block: Block, depth: nat, open: seq<string>)
    requires Sound(block) && depth <= MAX_QUOTE_DEPTH && Quotes(open) <= depth
    ensures Scan(BlockHtml(block, depth), open) == Some(open)
    decreases Budget(depth), 0, 0
  {
    hide InlineHtml, Broken, ItemsHtml, DocumentHtml, CodeHtml, Scan;
    match block
    case Paragraph(lines) =>
      BrokenScans(lines, ["p"] + open);
      ScanElement("p", "p", Broken(lines), open);
    case List(tag, items) =>
      ItemsScan(items, [tag] + open);
      ScanElement(tag, tag, ItemsHtml(items), open);
    case Code(language, lines) =>
      CodeScans(language, lines, open);
    case Title(level, text) =>
      TitleScans(level, text, open);
    case Quote(lines) =>
      var inner := ["blockquote"] + open;
      assert inner[1..] == open;
      if depth >= MAX_QUOTE_DEPTH {
        BrokenScans(lines, ["p"] + inner);
        ScanElement("p", "p", Broken(lines), inner);
        ScanElement("blockquote", "blockquote", Element("p", "p", Broken(lines)), open);
      } else {
        DocumentScans(Join("\n", lines), depth + 1, inner);
        ScanElement("blockquote", "blockquote", DocumentHtml(Join("\n", lines), depth + 1), open);
      }
  }

  lemma {:induction false} BlocksScan(blocks: seq<Block>, depth: nat, open: seq<string>)
    requires forall i :: 0 <= i < |blocks| ==> Sound(blocks[i])
    requires depth <= MAX_QUOTE_DEPTH && Quotes(open) <= depth
    ensures Scan(BlocksHtml(blocks, depth), open) == Some(open)
    decreases Budget(depth), 1, |blocks|
  {
    hide BlockHtml;
    if blocks != [] {
      BlockScans(blocks[0], depth, open);
      BlocksScan(blocks[1..], depth, open);
      ScanConcat(BlockHtml(blocks[0], depth), BlocksHtml(blocks[1..], depth), open);
    }
  }

  /**
    * A rendered document, at any depth of recursion, leaves the tags around it open exactly as they
    * were: all its own tags are known, matched and nested, every `<`, `>` and `"` in it belongs to
    * one of them, and no more than MAX_QUOTE_DEPTH + 1 quotes are ever open.
    */
  lemma {:induction false} DocumentScans(text: string, depth: nat, open: seq<string>)
    requires depth <= MAX_QUOTE_DEPTH && Quotes(open) <= depth
    ensures Scan(DocumentHtml(text, depth), open) == Some(open)
    decreases Budget(depth), 2, 0
  {
    hide BlocksHtml, Feed, Finish;
    FeedIsSound(EMPTY, Lines(text));
    BlocksScan(Parse(text), depth, open);
  }

  lemma RenderedIsWellFormed(text: string)
    ensures WellFormed(DocumentHtml(text, 0))
    ensures MAX_OPEN_QUOTES == MAX_QUOTE_DEPTH + 1
  {
    DocumentScans(text, 0, []);
  }

  /** render_record_document: the fixed frame around a question and an answer. */
  function RecordHtml(question: string, answer: string): string {
    Element("article class=\"kronika-document\"", "article",
      Element("section class=\"kronika-question\"", "section",
        Element("h1", "h1", "Question") + DocumentHtml(question, 0))
      + Element("section class=\"kronika-answer\"", "section",
        Element("h2", "h2", "Answer") + DocumentHtml(answer, 0)))
  }

  lemma SectionScans(tag: string, heading: string, text: string)
    requires Markup(tag) == Some(Open("section")) && '>' !in tag
    requires Scan(heading, ["section", "article"]) == Some(["section", "article"])
    ensures Scan(Element(tag, "section", heading + DocumentHtml(text, 0)), ["article"]) == Some(["article"])
  {
    hide DocumentHtml;
    var inner := ["section"] + ["article"];
    assert inner == ["section", "article"];
    assert Quotes(inner[1..]) == Quotes(inner[1..][1..]) == 0;
    DocumentScans(text, 0, inner);
    ScanConcat(heading, DocumentHtml(text, 0), inner);
    ScanElement(tag, "section", heading + DocumentHtml(text, 0), ["article"]);
  }

  lemma HeadingScans(name: string, title: string, open: seq<string>)
    requires name == "h1" || name == "h2"
    requires Clean(title)
    ensures Scan(Element(name, name, title), open) == Some(open)
  {
    ScanClean(title, [name] + open);
    ScanElement(name, name, title, open);
  }

  lemma FrameMarkup()
    ensures Markup("article class=\"kronika-document\"") == Some(Open("article"))
    ensures Markup("section class=\"kronika-question\"") == Some(Open("section"))
    ensures Markup("section class=\"kronika-answer\"") == Some(Open("section"))
  {
    hide Wrapped;
  }

  lemma RecordIsWellFormed(question: string, answer: string)
    ensures WellFormed(RecordHtml(question, answer))
  {
    hide DocumentHtml, Scan, Markup;
    FrameMarkup();
    var one, two := Element("h1", "h1", "Question"), Element("h2", "h2", "Answer");
    HeadingScans("h1", "Question", ["section", "article"]);
    HeadingScans("h2", "Answer", ["section", "article"]);
    var s, t := "section class=\"kronika-question\"", "section class=\"kronika-answer\"";
    SectionScans(s, one, question);
    SectionScans(t, two, answer);
    var q := Element(s, "section", one + DocumentHtml(question, 0));
    var a := Element(t, "section", two + DocumentHtml(answer, 0));
    ScanConcat(q, a, ["article"]);
    assert ["article"] + [] == ["article"];
    assert Scan(q + a, ["article"] + []) == Some(["article"] + []);
    ScanElement("article class=\"kronika-document\"", "article", q + a, []);
  }

  // ---- conservation of lines --------------------------------------------------

  datatype Destination = ToParagraph | ToList | ToQuote | ToCode | ToTitle

  /** The lines meant for one kind of block, in input order; `inCode` says whether a fence is open. */
  function Routed(d: Destination, lines: seq<string>, inCode: bool): seq<string> {
    if lines == [] then []
    else
      var kind := Classify(lines[0]);
      if kind.Fence? then Routed(d, lines[1..], !inCode)
      else
        (if inCode then (if d.ToCode? then [lines[0]] else [])
         else
           match kind
           case Heading(_, text) => if d.ToTitle? then [text] else []
           case Quoted(text) => if d.ToQuote? then [text] else []
           case Item(_, text) => if d.ToList? then [text] else []
           case Prose(text) => if d.ToParagraph? then [text] else []
           case _ => [])
        + Routed(d, lines[1..], inCode)
  }

  function Contents(d: Destination, block: Block): seq<string> {
    match block
    case Paragraph(lines) => if d.ToParagraph? then lines else []
    case List(_, items) => if d.ToList? then items else []
    case Quote(lines) => if d.ToQuote? then lines else []
    case Code(_, lines) => if d.ToCode? then lines else []
    case Title(_, text) => if d.ToTitle? then [text] else []
  }

  /** The lines the blocks of one kind hold, in block order. */
  function Held(d: Destination, blocks: seq<Block>): seq<string> {
    if blocks == [] then [] else Contents(d, blocks[0]) + Held(d, blocks[1..])
  }

  lemma {:induction false} HeldConcat(d: Destination, a: seq<Block>, b: seq<Block>)
    ensures Held(d, a + b) == Held(d, a) + Held(d, b)
  {
    if a == [] {
      assert a + b == b;
    } else {
      assert (a + b)[1..] == a[1..] + b;
      HeldConcat(d, a[1..], b);
    }
  }

  function Waiting(d: Destination, b: Buffers): seq<string> {
    match d
    case ToParagraph => b.paragraph
    case ToList => b.items
    case ToQuote => b.quote
    case ToCode => b.code
    case ToTitle => []
  }

  /** What the finished blocks and the buffers hold together. */
  function Total(d: Destination, b: Buffers): seq<string> {
    Held(d, b.blocks) + Waiting(d, b)
  }

  lemma HeldSnoc(d: Destination, a: seq<Block>, block: Block)
    ensures Held(d, a + [block]) == Held(d, a) + Contents(d, block)
  {
    HeldConcat(d, a, [block]);
    assert Held(d, [block]) == Contents(d, block) + [];
  }

  /** Moving a buffer into a block changes neither what is held nor its order. */
  lemma MoveKeeps(d: Destination, b: Buffers, c: Buffers, block: Block)
    requires c.blocks == b.blocks + [block]
    requires Waiting(d, b) == Contents(d, block) + Waiting(d, c)
    requires block.Title? ==> !d.ToTitle?
    ensures Total(d, c) == Total(d, b)
  {
    HeldSnoc(d, b.blocks, block);
  }

  lemma ParagraphKeeps(d: Destination, b: Buffers)
    ensures Total(d, FlushParagraph(b)) == Total(d, b)
  {
    hide Held, Total;
    if b.paragraph != [] { MoveKeeps(d, b, FlushParagraph(b), Paragraph(b.paragraph)); }
  }

  lemma ListKeeps(d: Destination, b: Buffers)
    ensures Total(d, FlushList(b)) == Total(d, b)
  {
    hide Held, Total;
    if b.items != [] { MoveKeeps(d, b, FlushList(b), List(b.tag, b.items)); }
  }

  lemma QuoteKeeps(d: Destination, b: Buffers)
    ensures Total(d, FlushQuote(b)) == Total(d, b)
  {
    hide Held, Total;
    if b.quote != [] { MoveKeeps(d, b, FlushQuote(b), Quote(b.quote)); }
  }

  lemma CodeKeeps(d: Destination, b: Buffers)
    ensures Total(d, FlushCode(b)) == Total(d, b)
  {
    hide Held, Total;
    if b.inCode || b.code != [] { MoveKeeps(d, b, FlushCode(b), Code(b.language, b.code)); }
  }

  lemma FlushKeeps(d: Destination, b: Buffers)
    ensures Total(d, FlushParagraph(b)) == Total(d, b)
    ensures Total(d, FlushList(b)) == Total(d, b)
    ensures Total(d, FlushQuote(b)) == Total(d, b)
    ensures Total(d, FlushCode(b)) == Total(d, b)
  {
    hide *;
    ParagraphKeeps(d, b);
    ListKeeps(d, b);
    QuoteKeeps(d, b);
    CodeKeeps(d, b);
  }

  lemma FlushTextKeeps(d: Destination, b: Buffers)
    ensures Total(d, FlushText(b)) == Total(d, b)
  {
    hide Total, FlushParagraph, FlushList, FlushQuote;
    ParagraphKeeps(d, b);
    ListKeeps(d, FlushParagraph(b));
    QuoteKeeps(d, FlushList(FlushParagraph(b)));
  }

  lemma FlushKeepsMode(b: Buffers)
    ensures FlushText(b).inCode == FlushList(FlushParagraph(b)).inCode == FlushQuote(FlushParagraph(b)).inCode
            == b.inCode
    ensures FlushList(FlushQuote(FlushParagraph(b))).inCode == FlushQuote(b).inCode == b.inCode
  {
  }

  lemma TotalIgnores(d: Destination, b: Buffers)
    ensures forall inCode, language :: Total(d, b.(inCode := inCode, language := language)) == Total(d, b)
  {
  }

  lemma GrowAdds(d: Destination, b: Buffers, c: Buffers, added: seq<string>)
    requires c.blocks == b.blocks && Waiting(d, c) == Waiting(d, b) + added
    ensures Total(d, c) == Total(d, b) + added
  {
  }

  lemma AppendAdds(d: Destination, b: Buffers, level: nat, tag: string, text: string)
    ensures Total(d, b.(paragraph := b.paragraph + [text])) == Total(d, b) + (if d.ToParagraph? then [text] else [])
    ensures Total(d, b.(quote := b.quote + [text])) == Total(d, b) + (if d.ToQuote? then [text] else [])
    ensures Total(d, b.(code := b.code + [text])) == Total(d, b) + (if d.ToCode? then [text] else [])
    ensures Total(d, b.(tag := tag, items := b.items + [text])) == Total(d, b) + (if d.ToList? then [text] else [])
    ensures Total(d, b.(blocks := b.blocks + [Title(level, text)])) == Total(d, b) + (if d.ToTitle? then [text] else [])
  {
    TitleAdds(d, b, level, text);
    hide Total, Held;
    GrowAdds(d, b, b.(paragraph := b.paragraph + [text]), if d.ToParagraph? then [text] else []);
    GrowAdds(d, b, b.(quote := b.quote + [text]), if d.ToQuote? then [text] else []);
    GrowAdds(d, b, b.(code := b.code + [text]), if d.ToCode? then [text] else []);
    GrowAdds(d, b, b.(tag := tag, items := b.items + [text]), if d.ToList? then [text] else []);
  }

  lemma TitleAdds(d: Destination, b: Buffers, level: nat, text: string)
    ensures Total(d, b.(blocks := b.blocks + [Title(level, text)])) == Total(d, b) + (if d.ToTitle? then [text] else [])
  {
    HeldSnoc(d, b.blocks, Title(level, text));
    if !d.ToTitle? {
      assert Held(d, b.blocks) + [] == Held(d, b.blocks);
    }
  }

  lemma ConsumeRoutes(d: Destination, b: Buffers, line: string)
    ensures Total(d, Consume(b, line)) == Total(d, b) + Routed(d, [line], b.inCode)
    ensures Consume(b, line).inCode == (b.inCode != Classify(line).Fence?)
  {
    hide Classify, FlushParagraph, FlushList, FlushQuote, FlushCode, Held, Waiting, Total;
    var kind := Classify(line);
    FlushKeepsMode(b);
    TotalIgnores(d, FlushCode(b));
    TotalIgnores(d, FlushText(b));
    assert Routed(d, [line][1..], b.inCode) == [] == Routed(d, [line][1..], !b.inCode);
    FlushTextKeeps(d, b);
    FlushKeeps(d, b);
    var p := FlushParagraph(b);
    FlushKeeps(d, p);
    if kind.Fence? {
    } else if b.inCode {
      AppendAdds(d, b, 0, "", line);
    } else {
      match kind
      case Heading(level, text) => AppendAdds(d, FlushText(b), level, "", text);
      case Quoted(text) => AppendAdds(d, FlushList(p), 0, "", text);
      case Prose(text) => AppendAdds(d, FlushQuote(b), 0, "", text);
      case Item(tag, text) =>
        var q := FlushQuote(p);
        FlushKeeps(d, q);
        AppendAdds(d, if q.items != [] && tag != q.tag then FlushList(q) else q, 0, tag, text);
      case Blank =>
      case Fence(_) =>
    }
  }

  lemma {:induction false} FeedRoutes(d: Destination, b: Buffers, lines: seq<string>)
    ensures Total(d, Feed(b, lines)) == Total(d, b) + Routed(d, lines, b.inCode)
    decreases lines
  {
    hide Classify, Consume, Total;
    if lines != [] {
      ConsumeRoutes(d, b, lines[0]);
      FeedRoutes(d, Consume(b, lines[0]), lines[1..]);
      assert Routed(d, [lines[0]][1..], b.inCode) == [] == Routed(d, [lines[0]][1..], !b.inCode);
    }
  }

  lemma FinishEmpties(d: Destination, b: Buffers)
    ensures Waiting(d, Finish(b)) == []
  {
  }

  /**
    * Every line outside code that is not blank, and every line inside a fence, lands in exactly one
    * block of its kind, and the lines of each kind keep their input order.
    */
  lemma LinesAreConserved(d: Destination, text: string)
    ensures Held(d, Parse(text)) == Routed(d, Lines(text), false)
  {
    hide Consume, Feed, Lines, FlushText, FlushCode, Held, Routed, Waiting;
    var b := Feed(EMPTY, Lines(text));
    FeedRoutes(d, EMPTY, Lines(text));
    FlushKeeps(d, b);
    FlushTextKeeps(d, FlushCode(b));
    FinishEmpties(d, b);
    EmptyHolds(d);
    var held, routed := Held(d, Finish(b).blocks), Routed(d, Lines(text), false);
    assert held + [] == held && [] + routed == routed;
  }

  lemma EmptyHolds(d: Destination)
    ensures Held(d, []) == [] && Waiting(d, EMPTY) == []
  {
  }

  /** Input order across kinds is not kept: an unbroken paragraph line overtakes the list before it. */
  lemma BlockOrderIsNotInputOrder()
    ensures Feed(EMPTY, ["- a", "b"]).items == ["a"]
    ensures Finish(Feed(EMPTY, ["- a", "b"])).blocks == [Paragraph(["b"]), List("ul", ["a"])]
  {
    ListLine();
    ProseLine();
    hide Classify;
    var after := Consume(EMPTY, "- a");
    assert after == EMPTY.(items := ["a"]);
    var last := Consume(after, "b");
    assert last == after.(paragraph := ["b"]);
    assert ["- a", "b"][1..] == ["b"] && ["b"][1..] == [];
    assert Feed(after, ["b"]) == Feed(last, []);
  }

  lemma NoSpace(s: string)
    requires s != "" && !IsSpace(s[0])
    ensures SkipSpace(s) == s && !AllSpace(s)
  {
  }

  lemma NoHeading(s: string)
    requires s != "" && s[0] != '#'
    ensures HeadingAt(s).None?
  {
  }

  lemma NoFence(s: string)
    requires s != "" && s[0] != '`'
    ensures FenceAt(s).None?
  {
  }

  lemma ListLine()
    ensures Classify("- a") == Item("ul", "a")
  {
    hide IsDecimal, HeadingAt, FenceAt, SkipSpace, AllSpace;
    var line := "- a";
    NoSpace("a");
    NoSpace(line);
    NoHeading(line);
    NoFence(line);
    assert line[2..] == "a";
    assert QuoteAt(line).None?;
  }

  lemma ProseLine()
    ensures Classify("b") == Prose("b")
  {
    hide HeadingAt, FenceAt, SkipSpace, AllSpace;
    var line := "b";
    NoSpace(line);
    NoHeading(line);
    NoFence(line);
    assert QuoteAt(line).None?;
    assert UnorderedAt(line).None?;
    assert OrderedAt(line).None? by {
      assert !IsDecimal('b');
      assert Run(IsDecimal, line) == 0;
    }
  }

  // ---- fenced code -------------------------------------------------------------

  function NextFence(lines: seq<string>): (k: nat)
    ensures k <= |lines|
  {
    if lines == [] || Classify(lines[0]).Fence? then 0 else 1 + NextFence(lines[1..])
  }

  /** The fenced stretches of a text: each opening fence up to the next fence, or to the end. */
  function Fences(lines: seq<string>): seq<Block>
    decreases |lines|
  {
    var k := NextFence(lines);
    if k == |lines| then []
    else OpenFence(FenceLanguage(lines[k]), [], lines[k + 1..])
  }

  function FenceLanguage(line: string): string {
    if FenceAt(line).Some? then FenceAt(line).value else ""
  }

  function OpenFence(language: string, before: seq<string>, lines: seq<string>): seq<Block>
    decreases |lines|
  {
    var e := NextFence(lines);
    [Code(language, before + lines[..e])] + (if e == |lines| then [] else Fences(lines[e + 1..]))
  }

  function CodeBlocks(blocks: seq<Block>): seq<Block> {
    if blocks == [] then []
    else (if blocks[0].Code? then [blocks[0]] else []) + CodeBlocks(blocks[1..])
  }

  lemma {:induction false} CodeBlocksConcat(a: seq<Block>, b: seq<Block>)
    ensures CodeBlocks(a + b) == CodeBlocks(a) + CodeBlocks(b)
  {
    if a == [] {
      assert a + b == b;
    } else {
      assert (a + b)[1..] == a[1..] + b;
      CodeBlocksConcat(a[1..], b);
    }
  }

  lemma CodeBlocksSnoc(a: seq<Block>, block: Block)
    ensures CodeBlocks(a + [block]) == CodeBlocks(a) + (if block.Code? then [block] else [])
  {
    CodeBlocksConcat(a, [block]);
    assert [block][1..] == [];
  }

  lemma TextFlushKeepsCode(b: Buffers)
    ensures CodeBlocks(FlushParagraph(b).blocks) == CodeBlocks(FlushList(b).blocks) == CodeBlocks(FlushQuote(b).blocks)
            == CodeBlocks(b.blocks)
    ensures FlushParagraph(b).code == FlushList(b).code == FlushQuote(b).code == b.code
    ensures FlushParagraph(b).inCode == FlushList(b).inCode == FlushQuote(b).inCode == b.inCode
  {
    CodeBlocksSnoc(b.blocks, Paragraph(b.paragraph));
    CodeBlocksSnoc(b.blocks, List(b.tag, b.items));
    CodeBlocksSnoc(b.blocks, Quote(b.quote));
  }

  lemma FlushTextKeepsCode(b: Buffers)
    ensures CodeBlocks(FlushText(b).blocks) == CodeBlocks(b.blocks) && FlushText(b).code == b.code
            && FlushText(b).inCode == b.inCode
  {
    TextFlushKeepsCode(b);
    TextFlushKeepsCode(FlushParagraph(b));
    TextFlushKeepsCode(FlushList(FlushParagraph(b)));
  }

  /** One line adds a code block exactly when it closes a fence. */
  lemma ConsumeCode(b: Buffers, line: string)
    requires !b.inCode ==> b.code == []
    ensures var c := Consume(b, line);
            && (!c.inCode ==> c.code == [])
            && CodeBlocks(c.blocks)
               == CodeBlocks(b.blocks) + (if b.inCode && Classify(line).Fence? then [Code(b.language, b.code)] else [])
            && (b.inCode && !Classify(line).Fence? ==> c.code == b.code + [line] && c.language == b.language)
            && (!b.inCode && Classify(line).Fence? ==> c.code == [] && c.language == FenceLanguage(line))
  {
    hide FenceAt, HeadingAt, QuoteAt, UnorderedAt, OrderedAt, AllSpace, FlushParagraph, FlushList, FlushQuote,
         CodeBlocks;
    FlushTextKeepsCode(b);
    TextFlushKeepsCode(b);
    var p := FlushParagraph(b);
    TextFlushKeepsCode(p);
    TextFlushKeepsCode(FlushQuote(p));
    CodeBlocksSnoc(b.blocks, Code(b.language, b.code));
    if Classify(line).Heading? {
      CodeBlocksSnoc(FlushText(b).blocks, Title(Classify(line).level, Classify(line).text));
    }
  }

  lemma FinishCode(b: Buffers)
    requires !b.inCode ==> b.code == []
    ensures CodeBlocks(Finish(b).blocks)
            == CodeBlocks(b.blocks) + (if b.inCode then OpenFence(b.language, b.code, []) else Fences([]))
  {
    hide FlushText;
    FlushTextKeepsCode(FlushCode(b));
    CodeBlocksSnoc(b.blocks, Code(b.language, b.code));
    assert b.code + [] == b.code;
    assert OpenFence(b.language, b.code, []) == [Code(b.language, b.code)];
  }

  lemma {:induction false} FeedCode(b: Buffers, lines: seq<string>)
    requires !b.inCode ==> b.code == []
    ensures CodeBlocks(Finish(Feed(b, lines)).blocks)
            == CodeBlocks(b.blocks) + (if b.inCode then OpenFence(b.language, b.code, lines) else Fences(lines))
    decreases lines
  {
    hide Classify, Consume, Finish, CodeBlocks, OpenFence, Fences, Total, Routed;
    if lines == [] {
      FinishCode(b);
    } else {
      ConsumeRoutes(ToCode, b, lines[0]);
      ConsumeCode(b, lines[0]);
      var c := Consume(b, lines[0]);
      FeedCode(c, lines[1..]);
      FenceStep(b, lines);
    }
  }

  lemma FenceStep(b: Buffers, lines: seq<string>)
    requires lines != []
    ensures !Classify(lines[0]).Fence? ==> Fences(lines) == Fences(lines[1..])
    ensures Classify(lines[0]).Fence? ==> Fences(lines) == OpenFence(FenceLanguage(lines[0]), [], lines[1..])
    ensures !Classify(lines[0]).Fence? ==>
            OpenFence(b.language, b.code, lines) == OpenFence(b.language, b.code + [lines[0]], lines[1..])
    ensures Classify(lines[0]).Fence? ==>
            OpenFence(b.language, b.code, lines) == [Code(b.language, b.code)] + Fences(lines[1..])
  {
    hide Classify;
    var k := NextFence(lines);
    if Classify(lines[0]).Fence? {
      assert b.code + lines[..0] == b.code;
    } else {
      assert lines[..k] == [lines[0]] + lines[1..][..k - 1];
      assert b.code + lines[..k] == b.code + [lines[0]] + lines[1..][..k - 1];
      if k < |lines| {
        assert lines[1..][k..] == lines[k + 1..];
        assert lines[1..][k - 1] == lines[k];
      }
    }
  }

  /** The code blocks of a document are exactly its fenced stretches, with their languages, in order. */
  lemma CodeBlocksAreFences(text: string)
    ensures CodeBlocks(Parse(text)) == Fences(Lines(text))
  {
    FeedCode(EMPTY, Lines(text));
    assert CodeBlocks([]) == [];
  }

  /** What follows the first tag. */
  function AfterTag(s: string): string {
    var k := IndexOf(s, '>');
    if k == |s| then "" else s[k + 1..]
  }

  /** What a reader gets back from a rendered code block: the escaped body, unescaped. */
  function CodeBody(html: string): string {
    var body := AfterTag(AfterTag(html));
    if |body| < 13 then "" else Unescape(body[..|body| - 13])
  }

  lemma AfterTagOf(tag: string, rest: string)
    requires '>' !in tag
    ensures AfterTag("<" + tag + ">" + rest) == rest
  {
    var before := "<" + tag;
    assert "<" + tag + ">" + rest == before + (">" + rest);
    IndexOfConcat(before, ">" + rest, '>');
    assert IndexOf(">" + rest, '>') == 0;
    assert IndexOf(before, '>') == |before|;
  }

  lemma CodeBodyIsSource(language: string, lines: seq<string>)
    ensures CodeBody(CodeHtml(language, lines)) == Join("\n", lines)
  {
    hide Escape, Unescape, CodeTag, Join, Markup, AfterTag;
    var source := Join("\n", lines);
    var tag, body := CodeTag(language), Escape(source);
    CodeMarkup(language);
    UnescapeOfEscape(source);
    var inner := Element(tag, "code", body);
    AfterTagOf("pre", inner + "</pre>");
    assert CodeHtml(language, lines) == "<" + "pre" + ">" + (inner + "</pre>");
    var end := "</code></pre>";
    AfterTagOf(tag, body + end);
    assert "</" + "code" + ">" + "</pre>" == end;
    assert inner + "</pre>" == "<" + tag + ">" + (body + end);
    assert (body + end)[..|body|] == body;
  }

  /** The lines between the fences come back exactly, unless there were none. */
  lemma CodeLinesComeBack(language: string, lines: seq<string>)
    requires forall l :: l in lines ==> '\n' !in l
    ensures Split(CodeBody(CodeHtml(language, lines))) == lines <==> lines != []
  {
    CodeBodyIsSource(language, lines);
    if lines != [] {
      SplitOfJoin(lines);
    }
  }

  // ---- output size --------------------------------------------------------------

  /** Input characters a block stands for, markers and line breaks included. */
  function Cost(block: Block): nat {
    match block
    case Paragraph(lines) => Weight(lines)
    case List(_, items) => Weight(items) + 2 * |items|
    case Quote(lines) => Weight(lines) + 2 * |lines|
    case Code(language, lines) => Weight(lines) + 4 + |language|
    case Title(_, text) => |text| + 3
  }

  function Costs(blocks: seq<Block>): nat {
    if blocks == [] then 0 else Cost(blocks[0]) + Costs(blocks[1..])
  }

  lemma {:induction false} CostsSnoc(a: seq<Block>, block: Block)
    ensures Costs(a + [block]) == Costs(a) + Cost(block)
  {
    if a == [] {
      assert a + [block] == [block];
    } else {
      assert (a + [block])[1..] == a[1..] + [block];
      CostsSnoc(a[1..], block);
    }
  }

  /** Input characters that the finished blocks and the buffers stand for. */
  function Spent(b: Buffers): nat {
    Costs(b.blocks) + Weight(b.paragraph) + Weight(b.items) + 2 * |b.items| + Weight(b.quote) + 2 * |b.quote|
    + Weight(b.code) + (if b.inCode then 4 + |b.language| else 0)
  }

  lemma FlushSpends(b: Buffers)
    ensures Spent(FlushParagraph(b)) == Spent(FlushList(b)) == Spent(FlushQuote(b)) == Spent(b)
  {
    CostsSnoc(b.blocks, Paragraph(b.paragraph));
    CostsSnoc(b.blocks, List(b.tag, b.items));
    CostsSnoc(b.blocks, Quote(b.quote));
    hide Costs;
    assert Weight([]) == 0;
  }

  lemma AppendSpends(b: Buffers, level: nat, tag: string, text: string)
    ensures Spent(b.(paragraph := b.paragraph + [text])) == Spent(b) + |text| + 1
    ensures Spent(b.(quote := b.quote + [text])) == Spent(b) + |text| + 3
    ensures Spent(b.(code := b.code + [text])) == Spent(b) + |text| + 1
    ensures Spent(b.(tag := tag, items := b.items + [text])) == Spent(b) + |text| + 3
    ensures Spent(b.(blocks := b.blocks + [Title(level, text)])) == Spent(b) + |text| + 3
  {
    WeightConcat(b.paragraph, [text]);
    WeightConcat(b.quote, [text]);
    WeightConcat(b.code, [text]);
    WeightConcat(b.items, [text]);
    assert Weight([text]) == |text| + 1;
    CostsSnoc(b.blocks, Title(level, text));
  }

  lemma ClassifySize(line: string)
    ensures match Classify(line)
            case Fence(language) => 3 + |language| <= |line|
            case Heading(_, text) => 2 + |text| <= |line|
            case Quoted(text) => 2 + |text| <= |line|
            case Item(_, text) => 2 + |text| <= |line|
            case Prose(text) => text == line
            case Blank => true
  {
  }

  lemma ConsumeSpends(b: Buffers, line: string)
    requires !b.inCode ==> b.code == []
    ensures Spent(Consume(b, line)) <= Spent(b) + |line| + 1
  {
    ClassifySize(line);
    hide Classify, Spent;
    var kind := Classify(line);
    FlushSpends(b);
    var p := FlushParagraph(b);
    FlushSpends(p);
    var l := FlushList(p);
    FlushSpends(l);
    if kind.Fence? {
      FenceSpends(b, kind.language);
      FenceSpends(FlushText(b), kind.language);
    } else if b.inCode {
      AppendSpends(b, 0, "", line);
    } else {
      match kind
      case Heading(level, text) => AppendSpends(FlushText(b), level, "", text);
      case Quoted(text) => AppendSpends(l, 0, "", text);
      case Prose(text) => AppendSpends(FlushQuote(b), 0, "", text);
      case Item(tag, text) =>
        var q := FlushQuote(p);
        FlushSpends(q);
        AppendSpends(if q.items != [] && tag != q.tag then FlushList(q) else q, 0, tag, text);
      case Blank =>
      case Fence(_) =>
    }
  }

  lemma FenceSpends(b: Buffers, language: string)
    ensures b.inCode ==> Spent(FlushCode(b).(inCode := false, language := "")) == Spent(b)
    ensures !b.inCode ==> Spent(b.(inCode := true, language := language)) == Spent(b) + 4 + |language|
    ensures Costs(FlushCode(b).blocks) + Weight(FlushCode(b).code) <= Spent(b)
            || !b.inCode
  {
    CostsSnoc(b.blocks, Code(b.language, b.code));
  }

  lemma FinishSpends(b: Buffers)
    requires !b.inCode ==> b.code == []
    ensures Costs(Finish(b).blocks) <= Spent(b)
  {
    hide FlushParagraph, FlushList, FlushQuote;
    CostsSnoc(b.blocks, Code(b.language, b.code));
    var c := FlushCode(b).(inCode := false);
    FlushTextIgnoresMode(b);
    FlushSpends(c);
    FlushSpends(FlushParagraph(c));
    FlushSpends(FlushList(FlushParagraph(c)));
    assert Costs(FlushText(c).blocks) <= Spent(FlushText(c));
  }

  lemma FlushTextIgnoresMode(b: Buffers)
    ensures FlushText(FlushCode(b).(inCode := false)).blocks == FlushText(FlushCode(b)).blocks
  {
  }

  lemma {:induction false} FeedSpends(b: Buffers, lines: seq<string>)
    requires !b.inCode ==> b.code == []
    ensures Costs(Finish(Feed(b, lines)).blocks) <= Spent(b) + Weight(lines)
    decreases lines
  {
    hide Consume, FlushParagraph, FlushList, FlushQuote, FlushCode, Spent;
    if lines == [] {
      FinishSpends(b);
    } else {
      ConsumeSpends(b, lines[0]);
      ConsumeCode(b, lines[0]);
      FeedSpends(Consume(b, lines[0]), lines[1..]);
    }
  }

  const GROWTH: nat := 13

  lemma {:induction false} BrokenSize(lines: seq<string>)
    requires lines != []
    ensures |Broken(lines)| + 6 <= 8 * Weight(lines)
  {
    hide InlineHtml;
    InlineSize(lines[0]);
    if |lines| > 1 {
      BrokenSize(lines[1..]);
      assert InlineEach(lines)[1..] == InlineEach(lines[1..]);
    } else {
      assert InlineEach(lines) == [InlineHtml(lines[0])];
      assert Weight(lines) == |lines[0]| + 1 + Weight([]);
    }
  }

  lemma {:induction false} ItemsSize(items: seq<string>)
    ensures |ItemsHtml(items)| <= 9 * |items| + 8 * Weight(items)
  {
    hide InlineHtml;
    if items != [] {
      InlineSize(items[0]);
      ItemsSize(items[1..]);
      assert ItemEach(items)[1..] == ItemEach(items[1..]);
      if |items| == 1 {
        assert ItemEach(items)[1..] == [];
      }
    }
  }

  lemma {:induction false} BlockSize(block: Block, depth: nat)
    requires Sound(block) && Filled(block)
    ensures |BlockHtml(block, depth)| <= GROWTH * Cost(block)
    decreases Budget(depth), 0, 0
  {
    hide InlineHtml, Broken, ItemsHtml, DocumentHtml;
    match block
    case Paragraph(lines) => BrokenSize(lines);
    case List(tag, items) => ItemsSize(items);
    case Title(level, text) =>
      InlineSize(text);
      assert |HeadingName(level)| == 2;
    case Code(language, lines) =>
      EscapeIsClean(language);
      EscapeIsClean(Join("\n", lines));
      if lines != [] {
        WeightOfJoin(lines);
      }
    case Quote(lines) =>
      if depth >= MAX_QUOTE_DEPTH {
        BrokenSize(lines);
      } else {
        DocumentSize(Join("\n", lines), depth + 1);
        WeightOfJoin(lines);
      }
  }

  lemma {:induction false} BlocksSize(blocks: seq<Block>, depth: nat)
    requires forall i :: 0 <= i < |blocks| ==> Sound(blocks[i]) && Filled(blocks[i])
    ensures |BlocksHtml(blocks, depth)| <= GROWTH * Costs(blocks)
    decreases Budget(depth), 1, |blocks|
  {
    hide BlockHtml;
    if blocks != [] {
      BlockSize(blocks[0], depth);
      BlocksSize(blocks[1..], depth);
    }
  }

  /** Rendering is linear: at most thirteen output characters for each input character and the end. */
  lemma {:induction false} DocumentSize(text: string, depth: nat)
    ensures |DocumentHtml(text, depth)| <= GROWTH * (|text| + 1)
    decreases Budget(depth), 2, 0
  {
    hide BlocksHtml, Feed, Finish;
    var lines := Lines(text);
    FeedIsSound(EMPTY, lines);
    FeedSpends(EMPTY, lines);
    BlocksSize(Parse(text), depth);
    JoinOfSplit(Normalize(text));
    WeightOfJoin(lines);
    assert Spent(EMPTY) == 0;
  }
}
