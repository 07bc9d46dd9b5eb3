// Where the lines of a text end up, and when the blocks keep their order.

module MarkdownOrder {
  import opened Text
  import opened Markdown

  // ---- the lines of each block, by number -------------------------------------------

  /** The numbers of the lines in the blocks and in the five buffers; a code block's include its opening fence. */
  datatype Origin = Origin(
    blocks: seq<seq<nat>>, paragraph: seq<nat>, items: seq<nat>, quote: seq<nat>, code: seq<nat>)

  const NOWHERE := Origin([], [], [], [], [])

  function MoveParagraph(o: Origin): Origin {
    if o.paragraph == [] then o else o.(blocks := o.blocks + [o.paragraph], paragraph := [])
  }

  function MoveItems(o: Origin): Origin {
    if o.items == [] then o else o.(blocks := o.blocks + [o.items], items := [])
  }

  function MoveQuote(o: Origin): Origin {
    if o.quote == [] then o else o.(blocks := o.blocks + [o.quote], quote := [])
  }

  function MoveCode(o: Origin): Origin {
    if o.code == [] then o else o.(blocks := o.blocks + [o.code], code := [])
  }

  function MoveText(o: Origin): Origin {
    MoveQuote(MoveItems(MoveParagraph(o)))
  }

  /** Where line `i` goes, next to `Consume`. */
  function Track(b: Buffers, o: Origin, line: string, i: nat): Origin {
    var kind := Classify(line);
    if kind.Fence? then
      if b.inCode then MoveCode(o) else MoveText(o).(code := [i])
    else if b.inCode then o.(code := o.code + [i])
    else
      match kind
      case Blank => MoveText(o)
      case Heading(_, _) =>
        var f := MoveText(o);
        f.(blocks := f.blocks + [[i]])
      case Quoted(_) =>
        var f := MoveItems(MoveParagraph(o));
        f.(quote := f.quote + [i])
      case Item(tag, _) =>
        var f := MoveQuote(MoveParagraph(o));
        var g := if f.items != [] && tag != b.tag then MoveItems(f) else f;
        g.(items := g.items + [i])
      case Prose(_) =>
        var f := MoveQuote(o);
        f.(paragraph := f.paragraph + [i])
      case Fence(_) => o
  }

  function Before(lines: seq<string>, n: nat): Buffers
    requires n <= |lines|
  {
    Feed(EMPTY, lines[..n])
  }

  function Traced(lines: seq<string>, n: nat): Origin
    requires n <= |lines|
  {
    if n == 0 then NOWHERE
    else Track(Before(lines, n - 1), Traced(lines, n - 1), lines[n - 1], n - 1)
  }

  /** For each block of the document the numbers of the lines it was made of. */
  function Origins(text: string): seq<seq<nat>> {
    var lines := Lines(text);
    MoveText(MoveCode(Traced(lines, |lines|))).blocks
  }

  lemma {:induction false} FeedSnoc(b: Buffers, lines: seq<string>, line: string)
    ensures Feed(b, lines + [line]) == Consume(Feed(b, lines), line)
    decreases lines
  {
    hide Consume;
    if lines == [] {
      assert [line][1..] == [] && [] + [line] == [line];
      assert Feed(b, [line]) == Feed(Consume(b, line), []);
    } else {
      assert (lines + [line])[1..] == lines[1..] + [line];
      FeedSnoc(Consume(b, lines[0]), lines[1..], line);
    }
  }

  lemma BeforeNext(lines: seq<string>, i: nat)
    requires i < |lines|
    ensures Before(lines, i + 1) == Consume(Before(lines, i), lines[i])
  {
    hide Consume;
    assert lines[..i + 1] == lines[..i] + [lines[i]];
    FeedSnoc(EMPTY, lines[..i], lines[i]);
  }

  // ---- every block is made of the lines with its numbers -------------------------------

  /** `block` is what the lines numbered `numbers` say, in that order. */
  predicate MadeOf(block: Block, numbers: seq<nat>, lines: seq<string>) {
    match block
    case Paragraph(texts) =>
      && |numbers| == |texts|
      && forall k :: 0 <= k < |numbers| ==> numbers[k] < |lines| && Classify(lines[numbers[k]]) == Prose(texts[k])
    case List(tag, items) =>
      && |numbers| == |items|
      && forall k :: 0 <= k < |numbers| ==> numbers[k] < |lines| && Classify(lines[numbers[k]]) == Item(tag, items[k])
    case Quote(texts) =>
      && |numbers| == |texts|
      && forall k :: 0 <= k < |numbers| ==> numbers[k] < |lines| && Classify(lines[numbers[k]]) == Quoted(texts[k])
    case Title(level, text) =>
      |numbers| == 1 && numbers[0] < |lines| && Classify(lines[numbers[0]]) == Heading(level, text)
    case Code(language, texts) =>
      // the opening fence and the lines right after it
      && |numbers| == |texts| + 1 && numbers[0] + |texts| < |lines| && Classify(lines[numbers[0]]) == Fence(language)
      && forall k :: 1 <= k < |numbers| ==> numbers[k] == numbers[0] + k && lines[numbers[k]] == texts[k - 1]
  }

  predicate AllMadeOf(blocks: seq<Block>, numbers: seq<seq<nat>>, lines: seq<string>) {
    |numbers| == |blocks| && forall j :: 0 <= j < |blocks| ==> MadeOf(blocks[j], numbers[j], lines)
  }

  /** The buffers after `n` lines hold the lines whose numbers are beside them. */
  predicate Tied(b: Buffers, o: Origin, lines: seq<string>, n: nat) {
    && AllMadeOf(b.blocks, o.blocks, lines)
    && MadeOf(Paragraph(b.paragraph), o.paragraph, lines)
    && MadeOf(List(b.tag, b.items), o.items, lines)
    && MadeOf(Quote(b.quote), o.quote, lines)
    && (if b.inCode then
          && o.paragraph == [] && o.items == [] && o.quote == []
          && MadeOf(Code(b.language, b.code), o.code, lines) && o.code[0] + |o.code| == n
        else b.code == [] && o.code == [])
  }

  lemma SameFill(b: Buffers, o: Origin, lines: seq<string>, n: nat)
    requires Tied(b, o, lines, n)
    ensures |o.paragraph| == |b.paragraph| && |o.items| == |b.items| && |o.quote| == |b.quote|
    ensures o.code != [] <==> b.inCode
  {
  }

  lemma MovesAreTied(b: Buffers, o: Origin, lines: seq<string>, n: nat)
    requires Tied(b, o, lines, n)
    ensures Tied(FlushParagraph(b), MoveParagraph(o), lines, n)
    ensures Tied(FlushList(b), MoveItems(o), lines, n)
    ensures Tied(FlushQuote(b), MoveQuote(o), lines, n)
  {
    hide Classify;
  }

  lemma MoveTextTied(b: Buffers, o: Origin, lines: seq<string>, n: nat)
    requires Tied(b, o, lines, n)
    ensures Tied(FlushText(b), MoveText(o), lines, n)
  {
    hide Tied, FlushParagraph, FlushList, FlushQuote, MoveParagraph, MoveItems, MoveQuote;
    MovesAreTied(b, o, lines, n);
    MovesAreTied(FlushParagraph(b), MoveParagraph(o), lines, n);
    MovesAreTied(FlushList(FlushParagraph(b)), MoveItems(MoveParagraph(o)), lines, n);
  }

  lemma MoveTextEmpties(b: Buffers, o: Origin)
    ensures FlushText(b).inCode == b.inCode
    ensures var f := FlushText(b); f.paragraph == [] && f.items == [] && f.quote == []
    ensures var f := MoveText(o); f.paragraph == [] && f.items == [] && f.quote == [] && f.code == o.code
  {
  }

  lemma MoveCodeTied(b: Buffers, o: Origin, lines: seq<string>, n: nat)
    requires Tied(b, o, lines, n)
    ensures Tied(FlushCode(b).(inCode := false, language := ""), MoveCode(o), lines, n)
    ensures AllMadeOf(FlushCode(b).blocks, MoveCode(o).blocks, lines)
  {
    hide Classify;
  }

  lemma TitleTied(b: Buffers, o: Origin, lines: seq<string>, n: nat)
    requires Tied(b, o, lines, n) && n < |lines| && !b.inCode && Classify(lines[n]).Heading?
    ensures Tied(b.(blocks := b.blocks + [Title(Classify(lines[n]).level, Classify(lines[n]).text)]),
                 o.(blocks := o.blocks + [[n]]), lines, n + 1)
  {
    hide Classify;
  }

  lemma TextTied(b: Buffers, o: Origin, lines: seq<string>, n: nat)
    requires Tied(b, o, lines, n) && n < |lines| && !b.inCode
    ensures Classify(lines[n]).Prose? ==>
            Tied(b.(paragraph := b.paragraph + [Classify(lines[n]).text]), o.(paragraph := o.paragraph + [n]),
                 lines, n + 1)
    ensures Classify(lines[n]).Quoted? ==>
            Tied(b.(quote := b.quote + [Classify(lines[n]).text]), o.(quote := o.quote + [n]), lines, n + 1)
  {
    hide Classify;
  }

  lemma ItemTied(b: Buffers, o: Origin, lines: seq<string>, n: nat)
    requires Tied(b, o, lines, n) && n < |lines| && !b.inCode && Classify(lines[n]).Item?
    requires b.items == [] || b.tag == Classify(lines[n]).tag
    ensures Tied(b.(tag := Classify(lines[n]).tag, items := b.items + [Classify(lines[n]).text]),
                 o.(items := o.items + [n]), lines, n + 1)
  {
    hide Classify;
  }

  lemma CodeTied(b: Buffers, o: Origin, lines: seq<string>, n: nat)
    requires Tied(b, o, lines, n) && n < |lines|
    ensures b.inCode ==> Tied(b.(code := b.code + [lines[n]]), o.(code := o.code + [n]), lines, n + 1)
    ensures !b.inCode && Classify(lines[n]).Fence? && o.paragraph == [] && o.items == [] && o.quote == [] ==>
              Tied(b.(inCode := true, language := Classify(lines[n]).language), o.(code := [n]), lines, n + 1)
    ensures !b.inCode ==> Tied(b, o, lines, n + 1)
  {
    hide Classify;
  }

  lemma FlushesKeepRest(b: Buffers)
    ensures FlushQuote(b).inCode == b.inCode && FlushQuote(b).tag == b.tag && FlushQuote(b).items == b.items
    ensures FlushList(b).inCode == b.inCode && FlushParagraph(b).inCode == b.inCode && FlushParagraph(b).tag == b.tag
    ensures FlushList(b).items == []
  {
  }

  lemma ConsumeTied(b: Buffers, o: Origin, lines: seq<string>, n: nat)
    requires Tied(b, o, lines, n) && n < |lines|
    ensures Tied(Consume(b, lines[n]), Track(b, o, lines[n], n), lines, n + 1)
  {
    var p, m := FlushParagraph(b), MoveParagraph(o);
    MovesAreTied(b, o, lines, n);
    MoveTextTied(b, o, lines, n);
    MoveTextEmpties(b, o);
    FlushesKeepRest(b);
    FlushesKeepRest(p);
    SameFill(b, o, lines, n);
    MoveCodeTied(b, o, lines, n);
    hide Classify, Tied, FlushParagraph, FlushList, FlushQuote, FlushCode, MoveParagraph, MoveItems, MoveQuote,
         MoveCode, FlushText, MoveText;
    var kind := Classify(lines[n]);
    if kind.Fence? {
      if b.inCode {
        CodeTied(FlushCode(b).(inCode := false, language := ""), MoveCode(o), lines, n);
      } else {
        CodeTied(FlushText(b), MoveText(o), lines, n);
      }
    } else if b.inCode {
      CodeTied(b, o, lines, n);
    } else {
      match kind
      case Blank => CodeTied(FlushText(b), MoveText(o), lines, n);
      case Heading(level, text) => TitleTied(FlushText(b), MoveText(o), lines, n);
      case Quoted(text) =>
        MovesAreTied(p, m, lines, n);
        TextTied(FlushList(p), MoveItems(m), lines, n);
      case Prose(text) => TextTied(FlushQuote(b), MoveQuote(o), lines, n);
      case Item(tag, text) =>
        MovesAreTied(p, m, lines, n);
        var f, g := FlushQuote(p), MoveQuote(m);
        SameFill(f, g, lines, n);
        MovesAreTied(f, g, lines, n);
        FlushesKeepRest(f);
        ItemTied(if f.items != [] && tag != f.tag then FlushList(f) else f,
                 if g.items != [] && tag != b.tag then MoveItems(g) else g, lines, n);
      case Fence(_) =>
    }
  }

  lemma {:induction false} TracedIsTied(lines: seq<string>, n: nat)
    requires n <= |lines|
    ensures Tied(Before(lines, n), Traced(lines, n), lines, n)
  {
    if n > 0 {
      hide Consume, Track, Tied, Before;
      TracedIsTied(lines, n - 1);
      BeforeNext(lines, n - 1);
      ConsumeTied(Before(lines, n - 1), Traced(lines, n - 1), lines, n - 1);
    }
  }

  /** Each block of the document is what the lines with its numbers say. */
  lemma BlocksAreMadeOfTheirLines(text: string)
    ensures AllMadeOf(Parse(text), Origins(text), Lines(text))
  {
    hide AllMadeOf, Feed, Lines, Traced;
    var lines := Lines(text);
    TracedIsTied(lines, |lines|);
    assert lines[..|lines|] == lines;
    FinishTied(Feed(EMPTY, lines), Traced(lines, |lines|), lines);
  }

  lemma FinishTied(b: Buffers, o: Origin, lines: seq<string>)
    requires Tied(b, o, lines, |lines|)
    ensures AllMadeOf(Finish(b).blocks, MoveText(MoveCode(o)).blocks, lines)
  {
    var c := FlushCode(b);
    MoveCodeTied(b, o, lines, |lines|);
    var closed := c.(inCode := false, language := "");
    MoveTextTied(closed, MoveCode(o), lines, |lines|);
    TextIgnoresMode(c);
    hide FlushText, MoveText, FlushCode, MoveCode, AllMadeOf;
  }

  lemma TextIgnoresMode(b: Buffers)
    ensures FlushText(b.(inCode := false, language := "")).blocks == FlushText(b).blocks
  {
  }

  // ---- all numbers in output order -----------------------------------------------------

  function Flat(blocks: seq<seq<nat>>): seq<nat> {
    if blocks == [] then [] else Flat(blocks[..|blocks| - 1]) + blocks[|blocks| - 1]
  }

  /** The order in which everything held so far would come out. */
  function Linear(o: Origin): seq<nat> {
    Flat(o.blocks) + o.paragraph + o.items + o.quote + o.code
  }

  /** A quote stands alone among the text buffers, and code among all. */
  predicate Apart(o: Origin) {
    && (o.quote != [] ==> o.paragraph == [] && o.items == [])
    && (o.code != [] ==> o.paragraph == [] && o.items == [] && o.quote == [])
  }

  lemma FlatSnoc(blocks: seq<seq<nat>>, block: seq<nat>)
    ensures Flat(blocks + [block]) == Flat(blocks) + block
  {
    assert (blocks + [block])[..|blocks|] == blocks;
  }

  lemma MovesKeepOrder(o: Origin)
    ensures Linear(MoveParagraph(o)) == Linear(o)
    ensures o.paragraph == [] ==> Linear(MoveItems(o)) == Linear(o)
    ensures o.paragraph == [] && o.items == [] ==> Linear(MoveQuote(o)) == Linear(o)
    ensures o.paragraph == [] && o.items == [] && o.quote == [] ==> Linear(MoveCode(o)) == Linear(o)
  {
    FlatSnoc(o.blocks, o.paragraph);
    FlatSnoc(o.blocks, o.items);
    FlatSnoc(o.blocks, o.quote);
    FlatSnoc(o.blocks, o.code);
    hide Flat;
  }

  lemma MoveQuoteKeepsOrder(o: Origin)
    requires Apart(o)
    ensures Linear(MoveQuote(o)) == Linear(o)
  {
    MovesKeepOrder(o);
    hide Linear;
  }

  lemma MoveTextKeepsOrder(o: Origin)
    ensures Linear(MoveText(o)) == Linear(o)
  {
    var p := MoveParagraph(o);
    MovesKeepOrder(o);
    MovesKeepOrder(p);
    MovesKeepOrder(MoveItems(p));
    hide Linear;
  }

  /** Whether a line outside or inside a fence leaves anything in the document. */
  predicate Carries(kind: Kind, inCode: bool) {
    if inCode then !kind.Fence? else !kind.Blank?
  }

  lemma GrowLast(o: Origin, n: nat)
    requires o.code == []
    ensures Linear(o.(quote := o.quote + [n])) == Linear(o) + [n]
    ensures o.quote == [] ==> Linear(o.(items := o.items + [n])) == Linear(o) + [n]
  {
    hide Flat;
  }

  lemma GrowCode(o: Origin, n: nat)
    ensures Linear(o.(code := o.code + [n])) == Linear(o) + [n]
    ensures o.code == [] ==> Linear(o.(code := [n])) == Linear(o) + [n]
  {
    hide Flat;
  }

  lemma GrowBlock(o: Origin, n: nat)
    requires o.code == [] && o.quote == [] && o.items == [] && o.paragraph == []
    ensures Linear(o.(blocks := o.blocks + [[n]])) == Linear(o) + [n]
  {
    FlatSnoc(o.blocks, [n]);
    hide Flat;
  }

  lemma GrowParagraph(o: Origin, n: nat)
    requires o.quote == [] && o.code == []
    ensures var f := Flat(o.blocks) + o.paragraph;
            Linear(o) == f + o.items && Linear(o.(paragraph := o.paragraph + [n])) == f + [n] + o.items
  {
    hide Flat;
  }

  lemma MovesEmpty(o: Origin)
    ensures MoveParagraph(o).paragraph == [] && MoveItems(o).items == [] && MoveQuote(o).quote == []
            && MoveCode(o).code == []
    ensures var m := MoveParagraph(o); m.items == o.items && m.quote == o.quote && m.code == o.code
    ensures var m := MoveItems(o); m.paragraph == o.paragraph && m.quote == o.quote && m.code == o.code
    ensures var m := MoveQuote(o); m.paragraph == o.paragraph && m.items == o.items && m.code == o.code
    ensures var m := MoveCode(o); m.paragraph == o.paragraph && m.items == o.items && m.quote == o.quote
  {
  }

  lemma ItemAdds(b: Buffers, o: Origin, line: string, n: nat)
    requires Apart(o) && o.code == [] && !b.inCode && Classify(line).Item?
    ensures Apart(Track(b, o, line, n)) && Linear(Track(b, o, line, n)) == Linear(o) + [n]
            && Track(b, o, line, n).items != []
  {
    MovesKeepOrder(o);
    MovesEmpty(o);
    hide Classify, Linear, MoveParagraph, MoveItems, MoveQuote, MoveCode;
    var p := MoveParagraph(o);
    MoveQuoteKeepsOrder(p);
    MovesEmpty(p);
    var q := MoveQuote(p);
    MovesKeepOrder(q);
    MovesEmpty(q);
    GrowLast(if q.items != [] && Classify(line).tag != b.tag then MoveItems(q) else q, n);
  }

  lemma QuoteAdds(b: Buffers, o: Origin, line: string, n: nat)
    requires Apart(o) && o.code == [] && !b.inCode && Classify(line).Quoted?
    ensures Apart(Track(b, o, line, n)) && Linear(Track(b, o, line, n)) == Linear(o) + [n]
            && Track(b, o, line, n).items == []
  {
    MovesKeepOrder(o);
    MovesEmpty(o);
    hide Classify, Linear, MoveParagraph, MoveItems, MoveQuote, MoveCode;
    var p := MoveParagraph(o);
    MovesKeepOrder(p);
    MovesEmpty(p);
    GrowLast(MoveItems(p), n);
  }

  /** A line comes out last of all so far, except prose, which comes out before a list still open. */
  lemma TrackAdds(b: Buffers, o: Origin, line: string, n: nat)
    requires Apart(o) && (o.code != [] <==> b.inCode)
    ensures Apart(Track(b, o, line, n))
    ensures var kind, more := Classify(line), Linear(Track(b, o, line, n));
            if !Carries(kind, b.inCode) then more == Linear(o)
            else if !b.inCode && kind.Prose? then
              var f := Flat(MoveQuote(o).blocks) + MoveQuote(o).paragraph;
              Linear(o) == f + o.items && more == f + [n] + o.items
            else more == Linear(o) + [n]
    ensures var kind, more := Classify(line), Track(b, o, line, n);
            && (more.items != [] <==> !b.inCode && (kind.Item? || (kind.Prose? && o.items != [])))
            && (more.code != [] <==> b.inCode != kind.Fence?)
  {
    var kind := Classify(line);
    MoveTextEmpties(b, o);
    MoveTextKeepsOrder(o);
    MovesEmpty(o);
    MovesKeepOrder(o);
    if !b.inCode && kind.Item? {
      ItemAdds(b, o, line, n);
      ItemsAreNoCode(b, o, line, n);
    } else if !b.inCode && kind.Quoted? {
      QuoteAdds(b, o, line, n);
      ItemsAreNoCode(b, o, line, n);
    } else {
      hide Classify, Linear, MoveParagraph, MoveItems, MoveQuote, MoveCode, MoveText;
      if b.inCode {
        GrowCode(o, n);
      } else if kind.Prose? {
        MoveQuoteKeepsOrder(o);
        GrowParagraph(MoveQuote(o), n);
      } else if kind.Heading? {
        GrowBlock(MoveText(o), n);
      } else if kind.Fence? {
        GrowCode(MoveText(o), n);
      }
    }
  }

  lemma ItemsAreNoCode(b: Buffers, o: Origin, line: string, n: nat)
    requires !b.inCode && o.code == [] && (Classify(line).Item? || Classify(line).Quoted?)
    ensures Track(b, o, line, n).code == []
  {
    hide Classify;
  }

  // ---- when the order is kept -------------------------------------------------------------

  predicate Rising(s: seq<nat>) {
    forall i, j :: 0 <= i < j < |s| ==> s[i] < s[j]
  }

  predicate AllBelow(s: seq<nat>, n: nat) {
    forall x :: x in s ==> x < n
  }

  /** Whether line `i` stands between a fence and the next. */
  predicate InFence(lines: seq<string>, i: nat)
    requires i <= |lines|
  {
    i > 0 && InFence(lines, i - 1) != Classify(lines[i - 1]).Fence?
  }

  /** The last of the first `n` lines is a list item, outside fences. */
  predicate ListOpen(lines: seq<string>, n: nat)
    requires n <= |lines|
  {
    n > 0 && !InFence(lines, n - 1) && Classify(lines[n - 1]).Item?
  }

  /** Prose right after a list item, outside fences. */
  predicate Overtakes(lines: seq<string>, i: nat)
    requires i < |lines|
  {
    ListOpen(lines, i) && Classify(lines[i]).Prose?
  }

  lemma InsertRising(a: seq<nat>, n: nat, b: seq<nat>)
    requires AllBelow(a + b, n)
    ensures Rising(a + [n] + b) <==> Rising(a + b) && b == []
  {
    var s, t := a + b, a + [n] + b;
    assert forall i :: 0 <= i < |a| ==> s[i] == t[i] && s[i] in s;
    assert forall i :: |a| <= i < |s| ==> s[i] == t[i + 1];
    assert t[|a|] == n;
    if b == [] {
      assert s == a;
    } else {
      assert t[|a| + 1] == b[0] == s[|a|] && b[0] in s;
    }
  }

  lemma {:induction false} ModeIsFence(lines: seq<string>, i: nat)
    requires i <= |lines|
    ensures Before(lines, i).inCode == InFence(lines, i)
  {
    if i > 0 {
      ModeIsFence(lines, i - 1);
      BeforeNext(lines, i - 1);
      ConsumeMode(Before(lines, i - 1), lines[i - 1]);
      hide Consume, Before, Classify;
    }
  }

  lemma ConsumeMode(b: Buffers, line: string)
    ensures Consume(b, line).inCode == (b.inCode != Classify(line).Fence?)
  {
    MoveTextEmpties(b, NOWHERE);
    FlushesKeepRest(b);
    FlushesKeepRest(FlushParagraph(b));
    FlushesKeepRest(FlushQuote(FlushParagraph(b)));
    hide Classify, FlushText, FlushParagraph, FlushList, FlushQuote;
  }

  /** No prose among the first `n` lines overtakes a list. */
  predicate NoneOvertakes(lines: seq<string>, n: nat)
    requires n <= |lines|
  {
    forall i :: 0 <= i < n ==> !Overtakes(lines, i)
  }

  /**
   * After `n` lines: what is held is in order as long as nothing overtakes, and then a list is open after an item only.
   */
  predicate InStep(o: Origin, lines: seq<string>, n: nat)
    requires n <= |lines|
  {
    && Apart(o) && AllBelow(Linear(o), n) && (o.code != [] <==> InFence(lines, n))
    && (Rising(Linear(o)) <==> NoneOvertakes(lines, n))
    && (Rising(Linear(o)) ==> (o.items != [] <==> ListOpen(lines, n)))
  }

  lemma OneLineOn(lines: seq<string>, n: nat)
    requires n < |lines|
    ensures NoneOvertakes(lines, n + 1) <==> NoneOvertakes(lines, n) && !Overtakes(lines, n)
    ensures InFence(lines, n + 1) <==> InFence(lines, n) != Classify(lines[n]).Fence?
    ensures ListOpen(lines, n + 1) <==> !InFence(lines, n) && Classify(lines[n]).Item?
    ensures ListOpen(lines, n) ==> !InFence(lines, n)
  {
    hide Classify;
  }

  lemma AppendRising(s: seq<nat>, n: nat)
    requires AllBelow(s, n)
    ensures (Rising(s + [n]) <==> Rising(s)) && AllBelow(s + [n], n + 1)
  {
    InsertRising(s, n, []);
    assert s + [] == s && s + [n] + [] == s + [n];
  }

  lemma InsertBelow(a: seq<nat>, n: nat, b: seq<nat>)
    requires AllBelow(a + b, n)
    ensures AllBelow(a + [n] + b, n + 1)
  {
    assert forall x :: x in a + [n] + b ==> x in a + b || x == n;
  }

  lemma StepInStep(b: Buffers, o: Origin, lines: seq<string>, n: nat)
    requires n < |lines| && InStep(o, lines, n) && b.inCode == InFence(lines, n)
    ensures InStep(Track(b, o, lines[n], n), lines, n + 1)
  {
    var kind, more := Classify(lines[n]), Track(b, o, lines[n], n);
    TrackAdds(b, o, lines[n], n);
    OneLineOn(lines, n);
    hide Classify, Track, Linear, Flat, Rising, NoneOvertakes, Apart, MoveQuote, ListOpen, InFence;
    if Carries(kind, b.inCode) {
      if !b.inCode && kind.Prose? {
        var f := Flat(MoveQuote(o).blocks) + MoveQuote(o).paragraph;
        InsertRising(f, n, o.items);
        InsertBelow(f, n, o.items);
      } else {
        AppendRising(Linear(o), n);
      }
    }
    hide AllBelow;
  }

  lemma NothingInStep(lines: seq<string>)
    ensures InStep(NOWHERE, lines, 0)
  {
    assert Linear(NOWHERE) == [];
  }

  lemma {:induction false} TracedInStep(lines: seq<string>, n: nat)
    requires n <= |lines|
    ensures InStep(Traced(lines, n), lines, n)
  {
    hide InStep, Track, Before, InFence;
    if n > 0 {
      TracedInStep(lines, n - 1);
      ModeIsFence(lines, n - 1);
      StepInStep(Before(lines, n - 1), Traced(lines, n - 1), lines, n - 1);
    } else {
      NothingInStep(lines);
    }
  }

  lemma FinalOrder(o: Origin)
    requires Apart(o)
    ensures Flat(MoveText(MoveCode(o)).blocks) == Linear(o)
  {
    var c := MoveCode(o);
    MovesKeepOrder(o);
    MovesEmpty(o);
    MoveTextKeepsOrder(c);
    MoveTextEmpties(EMPTY, c);
    if o.code == [] {
      assert c == o;
    }
    assert Linear(c) == Linear(o);
    hide MoveCode, MoveText, Flat, Linear;
    LinearOfBlocks(MoveText(c));
  }

  lemma LinearOfBlocks(o: Origin)
    requires o.paragraph == [] && o.items == [] && o.quote == [] && o.code == []
    ensures Linear(o) == Flat(o.blocks)
  {
    hide Flat;
  }

  /**
   * The blocks keep the order of the lines if and only if, outside fences, no prose line follows a list item directly.
   */
  lemma OrderIsKeptIff(text: string)
    ensures Rising(Flat(Origins(text))) <==> forall i :: 0 < i < |Lines(text)| ==> !Overtakes(Lines(text), i)
  {
    hide Classify, Rising, Lines, Flat, Linear, MoveText, MoveCode, Traced, InFence, Apart;
    var lines := Lines(text);
    var o := Traced(lines, |lines|);
    TracedInStep(lines, |lines|);
    FinalOrder(o);
    assert Origins(text) == MoveText(MoveCode(o)).blocks;
  }

  // ---- each line once ------------------------------------------------------------------------

  /** How often each of the first `n` lines occurs: once if it leaves anything in the document. */
  predicate OnceEach(s: seq<nat>, lines: seq<string>, n: nat) {
    && AllBelow(s, n)
    && forall i :: 0 <= i < n && i < |lines| ==>
        multiset(s)[i] == if Carries(Classify(lines[i]), InFence(lines, i)) then 1 else 0
  }

  lemma OneMoreOnce(a: seq<nat>, n: nat, b: seq<nat>, lines: seq<string>)
    requires n < |lines| && OnceEach(a + b, lines, n)
    ensures Carries(Classify(lines[n]), InFence(lines, n)) ==> OnceEach(a + [n] + b, lines, n + 1)
    ensures !Carries(Classify(lines[n]), InFence(lines, n)) ==> OnceEach(a + b, lines, n + 1)
  {
    hide Classify, InFence, Carries;
    assert multiset(a + [n] + b) == multiset(a + b) + multiset{n};
    assert n !in a + b;
    assert forall x :: x in a + [n] + b ==> x in a + b || x == n;
  }

  lemma NothingOnce(lines: seq<string>)
    ensures OnceEach(Linear(NOWHERE), lines, 0)
  {
    assert Linear(NOWHERE) == [];
  }

  lemma {:induction false} TracedOnce(lines: seq<string>, n: nat)
    requires n <= |lines|
    ensures OnceEach(Linear(Traced(lines, n)), lines, n)
  {
    hide OnceEach, Track, Before, Classify, Linear, Flat, MoveQuote, Carries, InFence, Rising, NoneOvertakes, ListOpen,
         AllBelow, Apart;
    if n > 0 {
      var b, o, m := Before(lines, n - 1), Traced(lines, n - 1), n - 1;
      TracedOnce(lines, m);
      TracedInStep(lines, m);
      ModeIsFence(lines, m);
      TrackAdds(b, o, lines[m], m);
      assert Linear(o) + [] == Linear(o) && Linear(o) + [m] + [] == Linear(o) + [m];
      OneMoreOnce(Linear(o), m, [], lines);
      if Linear(o) == Flat(MoveQuote(o).blocks) + MoveQuote(o).paragraph + o.items {
        OneMoreOnce(Flat(MoveQuote(o).blocks) + MoveQuote(o).paragraph, m, o.items, lines);
      }
    } else {
      NothingOnce(lines);
    }
  }

  /** Every line but blank ones and closing fences is in exactly one block, exactly once. */
  lemma EachLineOnce(text: string)
    ensures OnceEach(Flat(Origins(text)), Lines(text), |Lines(text)|)
  {
    hide OnceEach, Lines, Flat, Linear, MoveText, MoveCode, Traced, Apart;
    var lines := Lines(text);
    var o := Traced(lines, |lines|);
    TracedOnce(lines, |lines|);
    TracedInStep(lines, |lines|);
    FinalOrder(o);
    assert Origins(text) == MoveText(MoveCode(o)).blocks;
  }
}
