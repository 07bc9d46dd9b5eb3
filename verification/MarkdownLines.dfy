// What each line and each block of a document is, character by character.

module MarkdownLines {
  import opened Text
  import opened Html
  import opened Inline
  import opened Markdown
  import opened MarkdownLaws

  // ---- the six kinds of lines as they are written -----------------------------------------------

  predicate Spaces(s: string) {
    forall i :: 0 <= i < |s| ==> IsSpace(s[i])
  }

  predicate Digits(s: string) {
    forall i :: 0 <= i < |s| ==> IsDecimal(s[i])
  }

  predicate Hashes(s: string) {
    forall i :: 0 <= i < |s| ==> s[i] == '#'
  }

  /** Letters and digits of ASCII, `_`, `+`, `.` and `-`. */
  predicate LanguageName(s: string) {
    forall i :: 0 <= i < |s| ==>
      'A' <= s[i] <= 'Z' || 'a' <= s[i] <= 'z' || '0' <= s[i] <= '9'
      || s[i] == '_' || s[i] == '+' || s[i] == '.' || s[i] == '-'
  }

  /** White space, some at least, and then a text that begins with none. */
  predicate Gap(gap: string, text: string) {
    gap != "" && Spaces(gap) && (text == "" || !IsSpace(text[0]))
  }

  predicate OrderedParts(line: string, digits: string, mark: char, gap: string, text: string) {
    line == digits + [mark] + gap + text && digits != "" && Digits(digits) && (mark == '.' || mark == ')')
    && Gap(gap, text)
  }

  predicate UnorderedParts(line: string, mark: char, gap: string, text: string) {
    line == [mark] + gap + text && (mark == '-' || mark == '*') && Gap(gap, text)
  }

  predicate HeadingParts(line: string, hashes: string, gap: string, text: string) {
    line == hashes + gap + text && 1 <= |hashes| <= 6 && Hashes(hashes) && Gap(gap, text)
  }

  predicate QuoteParts(line: string, before: string, text: string) {
    line == before + "> " + text && Spaces(before)
  }

  predicate FenceParts(line: string, language: string, after: string) {
    line == "```" + language + after && |language| <= 32 && LanguageName(language) && Spaces(after)
  }

  ghost predicate IsOrdered(line: string, text: string) {
    exists digits, mark, gap :: OrderedParts(line, digits, mark, gap, text)
  }

  ghost predicate IsUnordered(line: string, text: string) {
    exists mark, gap :: UnorderedParts(line, mark, gap, text)
  }

  ghost predicate IsHeading(line: string, level: nat, text: string) {
    exists hashes, gap :: HeadingParts(line, hashes, gap, text) && |hashes| == level
  }

  ghost predicate IsQuote(line: string, text: string) {
    exists before :: QuoteParts(line, before, text)
  }

  ghost predicate IsFence(line: string, language: string) {
    exists after :: FenceParts(line, language, after)
  }

  // ---- each kind is read as what it is ------------------------------------------------------------

  lemma RunIs(p: char -> bool, a: string, b: string)
    requires forall i :: 0 <= i < |a| ==> p(a[i])
    requires b == "" || !p(b[0])
    ensures Run(p, a + b) == |a| && (a + b)[|a|..] == b
  {
    var s := a + b;
    assert forall i :: 0 <= i < |a| ==> s[i] == a[i];
    assert |a| < |s| ==> s[|a|] == b[0];
  }

  lemma GapIsSkipped(gap: string, text: string)
    requires Gap(gap, text)
    ensures SkipSpace(gap + text) == text && SkipSpace((gap + text)[1..]) == text && IsSpace((gap + text)[0])
  {
    hide IsSpace;
    RunIs(IsSpace, gap, text);
    RunIs(IsSpace, gap[1..], text);
    assert (gap + text)[1..] == gap[1..] + text;
  }

  /**
   * A line whose first character is neither white space nor a back-tick is no fence, no blank and no quote but for `>`.
   */
  lemma VisibleStart(line: string)
    requires line != "" && !IsSpace(line[0]) && line[0] != '`'
    ensures FenceAt(line).None? && !AllSpace(line) && (line[0] != '>' ==> QuoteAt(line).None?)
  {
    hide IsSpace;
    NoSpace(line);
    NoFence(line);
  }

  lemma DecimalIsNoSign(c: char)
    requires IsDecimal(c)
    ensures c != '#' && c != '-' && c != '*' && c != '`' && c != '>' && c != '.' && c != ')'
  {
  }

  lemma OrderedIsRead(line: string, digits: string, mark: char, gap: string, text: string)
    requires OrderedParts(line, digits, mark, gap, text)
    ensures Classify(line) == Item("ol", text)
  {
    NumberIsRead(line, digits, mark, gap, text);
    DecimalIsNoSign(digits[0]);
    assert line[0] == digits[0] && line[|digits|] == mark && !IsSpace(mark);
    forall i | 0 <= i <= |digits|
      ensures line[i] != '>'
    {
      if i < |digits| {
        DecimalIsNoSign(digits[i]);
      }
    }
    hide IsSpace, IsDecimal;
    NoFence(line);
    NoHeading(line);
    SignStays(line, |digits|);
    assert UnorderedAt(line).None?;
    hide *;
    ClassifiedAsOrdered(line, text);
  }

  lemma ClassifiedAsOrdered(line: string, text: string)
    requires FenceAt(line).None? && !AllSpace(line) && HeadingAt(line).None? && QuoteAt(line).None?
    requires UnorderedAt(line).None? && OrderedAt(line) == Some(text)
    ensures Classify(line) == Item("ol", text)
  {
    hide FenceAt, AllSpace, HeadingAt, QuoteAt, UnorderedAt, OrderedAt;
  }

  lemma NumberIsRead(line: string, digits: string, mark: char, gap: string, text: string)
    requires OrderedParts(line, digits, mark, gap, text)
    ensures OrderedAt(line) == Some(text)
  {
    var rest := [mark] + (gap + text);
    assert line == digits + rest;
    assert !IsDecimal(mark);
    hide IsSpace, IsDecimal;
    RunIs(IsDecimal, digits, rest);
    GapIsSkipped(gap, text);
    assert rest[1..] == gap + text && line[|digits|] == mark && line[|digits| + 1] == (gap + text)[0];
    assert line[|digits| + 2..] == (gap + text)[1..];
    hide SkipSpace, Run;
  }

  /** What is skipped at the front of a line stops before its first character that is no white space. */
  lemma SignStays(line: string, i: nat)
    requires i < |line| && !IsSpace(line[i]) && '>' !in line[..i + 1]
    ensures !AllSpace(line) && QuoteAt(line).None?
  {
  }

  lemma UnorderedIsRead(line: string, mark: char, gap: string, text: string)
    requires UnorderedParts(line, mark, gap, text)
    ensures Classify(line) == Item("ul", text)
  {
    assert line == [mark] + (gap + text) && !IsSpace(mark);
    hide IsSpace, IsDecimal;
    GapIsSkipped(gap, text);
    VisibleStart(line);
    NoHeading(line);
    assert line[1] == (gap + text)[0] && line[2..] == (gap + text)[1..];
    assert UnorderedAt(line) == Some(text);
  }

  lemma HeadingIsRead(line: string, hashes: string, gap: string, text: string)
    requires HeadingParts(line, hashes, gap, text)
    ensures Classify(line) == Heading(|hashes|, text)
  {
    var rest := gap + text;
    assert line == hashes + rest && line[0] == '#' && !IsSpace('#');
    hide IsSpace, IsDecimal;
    GapIsSkipped(gap, text);
    assert rest[0] != '#';
    RunIs(IsHash, hashes, rest);
    VisibleStart(line);
    assert line[|hashes|] == rest[0] && line[|hashes| + 1..] == rest[1..];
    assert HeadingAt(line) == Some((|hashes|, text));
  }

  lemma QuoteIsRead(line: string, before: string, text: string)
    requires QuoteParts(line, before, text)
    ensures Classify(line) == Quoted(text)
  {
    var rest := "> " + text;
    assert line == before + rest && !IsSpace('>') && !IsSpace('`') && !IsSpace('#');
    hide IsSpace, IsDecimal;
    RunIs(IsSpace, before, rest);
    assert line[0] == if before == "" then '>' else before[0];
    NoFence(line);
    NoHeading(line);
    assert rest[2..] == text;
    assert SkipSpace(line) == rest;
  }

  lemma FenceIsRead(line: string, language: string, after: string)
    requires FenceParts(line, language, after)
    ensures Classify(line) == Fence(language)
  {
    assert forall c :: IsLanguage(c) ==> !IsSpace(c);
    hide IsSpace;
    var rest := language + after;
    assert line == "```" + rest && line[3..] == rest;
    RunIs(IsLanguage, language, after);
    assert line[|language| + 3..] == after;
    BlankIsRead(after);
    assert line[3..|language| + 3] == language;
  }

  lemma BlankIsRead(line: string)
    requires Spaces(line)
    ensures Classify(line) == Blank && AllSpace(line)
  {
    assert !IsSpace('`');
    hide IsSpace;
    RunIs(IsSpace, line, "");
    assert line + "" == line;
  }

  // ---- and nothing else is ---------------------------------------------------------------------------

  lemma SkippedIsGap(s: string)
    requires s != "" && IsSpace(s[0])
    ensures var text := SkipSpace(s[1..]);
            var gap := s[..|s| - |text|];
            Gap(gap, text) && s == gap + text
  {
    hide IsSpace;
    var k := Run(IsSpace, s[1..]);
    assert s[1..][k..] == s[k + 1..];
    assert forall i :: 1 <= i < k + 1 ==> s[i] == s[1..][i - 1];
  }

  lemma FenceIsWritten(line: string)
    requires FenceAt(line).Some?
    ensures IsFence(line, FenceAt(line).value)
  {
    hide IsSpace;
    var language := FenceAt(line).value;
    var after := line[|language| + 3..];
    assert Run(IsSpace, after) == |after|;
    assert line == "```" + language + after;
    assert FenceParts(line, language, after);
  }

  lemma HeadingIsWritten(line: string)
    requires HeadingAt(line).Some?
    ensures IsHeading(line, HeadingAt(line).value.0, HeadingAt(line).value.1)
  {
    hide IsSpace, SkipSpace;
    var level := Run(IsHash, line);
    var rest := line[level..];
    var text := SkipSpace(rest[1..]);
    assert rest[1..] == line[level + 1..];
    SkippedIsGap(rest);
    var gap := rest[..|rest| - |text|];
    assert line == line[..level] + gap + text;
    assert HeadingParts(line, line[..level], gap, text);
  }

  lemma QuoteIsWritten(line: string)
    requires QuoteAt(line).Some?
    ensures IsQuote(line, QuoteAt(line).value)
  {
    hide IsSpace;
    var k := Run(IsSpace, line);
    assert line == line[..k] + "> " + line[k..][2..];
    assert QuoteParts(line, line[..k], QuoteAt(line).value);
  }

  lemma UnorderedIsWritten(line: string)
    requires UnorderedAt(line).Some?
    ensures IsUnordered(line, UnorderedAt(line).value)
  {
    hide IsSpace;
    var text := UnorderedAt(line).value;
    SkippedIsGap(line[1..]);
    assert line[1..][1..] == line[2..];
    assert UnorderedParts(line, line[0], line[1..][..|line| - 1 - |text|], text);
  }

  lemma OrderedIsWritten(line: string)
    requires OrderedAt(line).Some?
    ensures IsOrdered(line, OrderedAt(line).value)
  {
    hide IsSpace, IsDecimal;
    var text, n := OrderedAt(line).value, Run(IsDecimal, line);
    SkippedIsGap(line[n + 1..]);
    assert line[n + 1..][1..] == line[n + 2..];
    assert OrderedParts(line, line[..n], line[n], line[n + 1..][..|line| - n - 1 - |text|], text);
  }

  lemma ReadIsWritten(line: string)
    ensures match Classify(line)
            case Fence(language) => IsFence(line, language)
            case Blank => Spaces(line)
            case Heading(level, text) => IsHeading(line, level, text)
            case Quoted(text) => IsQuote(line, text)
            case Item(tag, text) =>
              if tag == "ol" then IsOrdered(line, text) else tag == "ul" && IsUnordered(line, text)
            case Prose(text) => text == line
  {
    hide FenceAt, HeadingAt, QuoteAt, UnorderedAt, OrderedAt, IsSpace, IsFence, IsHeading, IsQuote, IsUnordered,
         IsOrdered;
    match Classify(line)
    case Fence(_) => FenceIsWritten(line);
    case Blank => assert Run(IsSpace, line) == |line|;
    case Heading(_, _) => HeadingIsWritten(line);
    case Quoted(_) => QuoteIsWritten(line);
    case Item(_, _) =>
      if UnorderedAt(line).Some? {
        UnorderedIsWritten(line);
      } else {
        OrderedIsWritten(line);
      }
    case Prose(_) =>
  }

  /**
   * Every line is read as what it is written as: a fence, a blank, a heading of so many hashes, a quote, an item of an
   * unordered or an ordered list, and prose if and only if it is none of these.
   */
  lemma LineMeans(line: string)
    ensures forall text :: Classify(line) == Item("ol", text) <==> IsOrdered(line, text)
    ensures forall text :: Classify(line) == Item("ul", text) <==> IsUnordered(line, text)
    ensures forall level, text :: Classify(line) == Heading(level, text) <==> IsHeading(line, level, text)
    ensures forall text :: Classify(line) == Quoted(text) <==> IsQuote(line, text)
    ensures forall language :: Classify(line) == Fence(language) <==> IsFence(line, language)
    ensures Classify(line) == Blank <==> Spaces(line)
    ensures forall text :: Classify(line) == Prose(text) <==>
              && text == line && !Spaces(line)
              && (forall t :: !IsOrdered(line, t) && !IsUnordered(line, t) && !IsQuote(line, t) && !IsFence(line, t))
              && (forall level, t :: !IsHeading(line, level, t))
  {
    ReadIsWritten(line);
    hide Classify;
    forall text | IsOrdered(line, text) ensures Classify(line) == Item("ol", text) {
      var digits, mark, gap :| OrderedParts(line, digits, mark, gap, text);
      OrderedIsRead(line, digits, mark, gap, text);
    }
    forall text | IsUnordered(line, text) ensures Classify(line) == Item("ul", text) {
      var mark, gap :| UnorderedParts(line, mark, gap, text);
      UnorderedIsRead(line, mark, gap, text);
    }
    forall level, text | IsHeading(line, level, text) ensures Classify(line) == Heading(level, text) {
      var hashes, gap :| HeadingParts(line, hashes, gap, text) && |hashes| == level;
      HeadingIsRead(line, hashes, gap, text);
    }
    forall text | IsQuote(line, text) ensures Classify(line) == Quoted(text) {
      var before :| QuoteParts(line, before, text);
      QuoteIsRead(line, before, text);
    }
    forall language | IsFence(line, language) ensures Classify(line) == Fence(language) {
      var after :| FenceParts(line, language, after);
      FenceIsRead(line, language, after);
    }
    if Spaces(line) {
      BlankIsRead(line);
    }
    hide *;
  }

  // ---- a document of one line --------------------------------------------------------------------------

  predicate OneLine(line: string) {
    '\n' !in line && '\r' !in line
  }

  lemma {:induction false} NothingToNormalize(line: string)
    requires '\r' !in line
    ensures Normalize(line) == line
  {
    if line != "" {
      NothingToNormalize(line[1..]);
      assert line == [line[0]] + line[1..];
    }
  }

  lemma LineIsAll(line: string)
    requires OneLine(line)
    ensures Lines(line) == [line]
  {
    NothingToNormalize(line);
    SplitOfLine(line);
  }

  lemma ParsedLine(line: string)
    requires OneLine(line)
    ensures Parse(line) == match Classify(line)
                           case Fence(language) => [Code(language, [])]
                           case Blank => []
                           case Heading(level, text) => [Title(level, text)]
                           case Quoted(text) => [Quote([text])]
                           case Item(tag, text) => [List(tag, [text])]
                           case Prose(text) => [Paragraph([text])]
  {
    hide Classify, Lines;
    LineIsAll(line);
    assert [line][1..] == [];
    assert Feed(EMPTY, [line]) == Feed(Consume(EMPTY, line), []);
    assert forall block: Block :: [] + [block] == [block];
    assert forall text: string :: [] + [text] == [text];
    match Classify(line)
    case Fence(language) =>
      assert Consume(EMPTY, line) == EMPTY.(inCode := true, language := language);
      assert FlushCode(Consume(EMPTY, line)).blocks == [Code(language, [])];
    case Blank => assert Consume(EMPTY, line) == EMPTY;
    case Heading(level, text) => assert Consume(EMPTY, line) == EMPTY.(blocks := [Title(level, text)]);
    case Quoted(text) => assert Consume(EMPTY, line) == EMPTY.(quote := [text]);
    case Item(tag, text) => assert Consume(EMPTY, line) == EMPTY.(tag := tag, items := [text]);
    case Prose(text) => assert Consume(EMPTY, line) == EMPTY.(paragraph := [text]);
  }

  lemma OneBlock(text: string, block: Block, depth: nat)
    requires Parse(text) == [block]
    ensures DocumentHtml(text, depth) == BlockHtml(block, depth)
  {
    hide Parse, BlockHtml;
    assert BlocksHtml([block], depth) == BlockHtml(block, depth) + BlocksHtml([], depth);
  }

  /** `<h1>` to `<h6>`. */
  function HeadingHtml(level: nat, body: string): string {
    var digit := if level == 1 then "1" else if level == 2 then "2" else if level == 3 then "3"
                 else if level == 4 then "4" else if level == 5 then "5" else "6";
    "<h" + digit + ">" + body + "</h" + digit + ">"
  }

  lemma Nested(a: string, b: string, body: string, c: string, d: string)
    ensures a + (b + body + c) + d == (a + b) + body + (c + d)
  {
  }

  lemma CodeTagIs(language: string)
    ensures language == "" ==> "<" + CodeTag(language) + ">" == "<code>"
    ensures language != "" ==> "<" + CodeTag(language) + ">" == "<code class=\"language-" + (Escape(language) + "\">")
  {
    hide Escape;
    var inside := Escape(language);
    assert "<" + ("code class=\"language-" + inside + "\"") + ">" == "<code class=\"language-" + (inside + "\">");
  }

  lemma CodeIsLiteral(language: string, lines: seq<string>)
    ensures CodeHtml(language, lines)
            == (if language == "" then "<pre><code>"
                else "<pre><code class=\"language-" + (Escape(language) + "\">"))
               + Escape(Join("\n", lines)) + "</code></pre>"
  {
    CodeTagIs(language);
    hide Escape, Join, CodeTag, Element;
    var body := Escape(Join("\n", lines));
    var opening := "<" + CodeTag(language) + ">";
    ElementIs(CodeTag(language), "code", body, opening, "</code>");
    ElementIs("pre", "pre", opening + body + "</code>", "<pre>", "</pre>");
    Nested("<pre>", opening, body, "</code>", "</pre>");
    PreIs(Escape(language) + "\">");
  }

  lemma PreIs(rest: string)
    ensures "<pre>" + "<code>" == "<pre><code>" && "</code>" + "</pre>" == "</code></pre>"
    ensures "<pre>" + ("<code class=\"language-" + rest) == "<pre><code class=\"language-" + rest
  {
  }

  lemma TitleIsLiteral(level: nat, body: string)
    requires 1 <= level <= 6
    ensures Element(HeadingName(level), HeadingName(level), body) == HeadingHtml(level, body)
  {
    var name := HeadingName(level);
    var digit := name[1..];
    assert name == "h" + digit;
    assert "<" + name + ">" == "<h" + digit + ">" && "</" + name + ">" == "</h" + digit + ">";
    assert "<h" + digit + ">" + body + ("</h" + digit + ">") == "<h" + digit + ">" + body + "</h" + digit + ">";
    ElementIs(name, name, body, "<h" + digit + ">", "</h" + digit + ">");
  }

  /** What each block becomes, tag by tag. */
  lemma BlocksAreLiteral(lines: seq<string>, language: string, level: nat, text: string, depth: nat)
    requires 1 <= level <= 6
    ensures BlockHtml(Paragraph(lines), depth) == "<p>" + Join("<br />", InlineEach(lines)) + "</p>"
    ensures BlockHtml(List("ul", lines), depth) == "<ul>" + Join("", ItemEach(lines)) + "</ul>"
    ensures BlockHtml(List("ol", lines), depth) == "<ol>" + Join("", ItemEach(lines)) + "</ol>"
    ensures forall i :: 0 <= i < |lines| ==> ItemEach(lines)[i] == "<li>" + InlineHtml(lines[i]) + "</li>"
    ensures depth < 32 ==>
              BlockHtml(Quote(lines), depth)
              == "<blockquote>" + DocumentHtml(Join("\n", lines), depth + 1) + "</blockquote>"
    ensures depth >= 32 ==>
              BlockHtml(Quote(lines), depth)
              == "<blockquote>" + ("<p>" + Join("<br />", InlineEach(lines)) + "</p>") + "</blockquote>"
    ensures BlockHtml(Code(language, lines), depth)
            == (if language == "" then "<pre><code>"
                else "<pre><code class=\"language-" + (Escape(language) + "\">"))
               + Escape(Join("\n", lines)) + "</code></pre>"
    ensures BlockHtml(Title(level, text), depth) == HeadingHtml(level, InlineHtml(text))
  {
    hide InlineHtml, DocumentHtml, Escape, Join, Element, HeadingHtml, HeadingName, CodeHtml;
    CodeIsLiteral(language, lines);
    TitleIsLiteral(level, InlineHtml(text));
    var broken, items := Join("<br />", InlineEach(lines)), Join("", ItemEach(lines));
    ElementIs("p", "p", broken, "<p>", "</p>");
    ElementIs("ul", "ul", items, "<ul>", "</ul>");
    ElementIs("ol", "ol", items, "<ol>", "</ol>");
    ElementIs("blockquote", "blockquote", "<p>" + broken + "</p>", "<blockquote>", "</blockquote>");
    ElementIs("blockquote", "blockquote", DocumentHtml(Join("\n", lines), depth + 1), "<blockquote>", "</blockquote>");
    forall i | 0 <= i < |lines|
      ensures ItemEach(lines)[i] == "<li>" + InlineHtml(lines[i]) + "</li>"
    {
      ElementIs("li", "li", InlineHtml(lines[i]), "<li>", "</li>");
    }
  }

  lemma OneOf(text: string)
    ensures Join("<br />", InlineEach([text])) == InlineHtml(text)
    ensures Join("", ItemEach([text])) == Element("li", "li", InlineHtml(text))
  {
    hide InlineHtml, Element;
  }

  /** A document of one line, in the characters of its HTML. */
  lemma LineIsRendered(line: string, depth: nat)
    requires OneLine(line)
    ensures forall text :: IsOrdered(line, text) ==>
              DocumentHtml(line, depth) == "<ol>" + ("<li>" + InlineHtml(text) + "</li>") + "</ol>"
    ensures forall text :: IsUnordered(line, text) ==>
              DocumentHtml(line, depth) == "<ul>" + ("<li>" + InlineHtml(text) + "</li>") + "</ul>"
    ensures forall level, text :: IsHeading(line, level, text) ==>
              DocumentHtml(line, depth) == HeadingHtml(level, InlineHtml(text))
    ensures forall text :: IsQuote(line, text) && depth < 32 ==>
              DocumentHtml(line, depth) == "<blockquote>" + DocumentHtml(text, depth + 1) + "</blockquote>"
    ensures Spaces(line) ==> DocumentHtml(line, depth) == ""
    ensures Classify(line).Prose? ==> DocumentHtml(line, depth) == "<p>" + InlineHtml(line) + "</p>"
  {
    LineMeans(line);
    ParsedLine(line);
    hide Classify, Parse, InlineHtml, BlockHtml, HeadingHtml, IsOrdered, IsUnordered, IsHeading, IsQuote, Spaces;
    var kind := Classify(line);
    if kind.Heading? {
      OneBlock(line, Title(kind.level, kind.text), depth);
      BlocksAreLiteral([], "", kind.level, kind.text, depth);
    } else if kind.Quoted? {
      OneBlock(line, Quote([kind.text]), depth);
      BlocksAreLiteral([kind.text], "", 1, "", depth);
      assert Join("\n", [kind.text]) == kind.text;
    } else if kind.Item? {
      OneBlock(line, List(kind.tag, [kind.text]), depth);
      BlocksAreLiteral([kind.text], "", 1, "", depth);
      OneOf(kind.text);
    } else if kind.Prose? {
      OneBlock(line, Paragraph([line]), depth);
      BlocksAreLiteral([line], "", 1, "", depth);
      OneOf(line);
    }
  }
}
