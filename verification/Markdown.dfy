/** The block state machine of markdown-preview.ts: a line loop with four buffers that groups lines into blocks. */
module Markdown {
  import opened Text

  // ---- line classification -----------------------------------------------------

  datatype Kind =
    | Fence(lang: string)
    | Blank
    | Heading(level: nat, text: string)
    | Rule
    | Quote(text: string)
    | Item(text: string)
    | Text(text: string)

  predicate IsWord(c: char) { 'a' <= c <= 'z' || 'A' <= c <= 'Z' || '0' <= c <= '9' || c == '_' }

  predicate AllWord(s: string) { forall c :: c in s ==> IsWord(c) }

  /** What `.*$` accepts: no line terminator. */
  predicate Dots(s: string) { '\n' !in s && '\r' !in s && '\U{2028}' !in s && '\U{2029}' !in s }

  function Hashes(s: string): (n: nat)
    ensures n <= |s|
  {
    if s != [] && s[0] == '#' then 1 + Hashes(s[1..]) else 0
  }

  predicate AllAre(s: string, c: char) { forall d :: d in s ==> d == c }

  predicate IsRule(s: string) { |s| >= 3 && s[0] in "-*_" && AllAre(s, s[0]) }

  predicate IsItem(s: string) {
    |s| >= 2 && s[0] in "-*+" && IsSpace(s[1]) && Dots(TrimStart(s[1..]))
  }

  predicate IsHeading(s: string) {
    1 <= Hashes(s) <= 6 && Hashes(s) < |s| && IsSpace(s[Hashes(s)]) && Dots(TrimStart(s[Hashes(s)..]))
  }

  /** The rest of a quote line after `>` and one optional space. */
  function QuoteRest(s: string): string
    requires s != []
  {
    if |s| >= 2 && IsSpace(s[1]) then s[2..] else s[1..]
  }

  /** The regex tests of the loop, in its order, on the right-trimmed line. */
  function Classify(raw: string): Kind {
    var line := TrimEnd(raw);
    if "```" <= line && AllWord(line[3..]) then Fence(line[3..])
    else if line == "" then Blank
    else if IsHeading(line) then Heading(Hashes(line), TrimStart(line[Hashes(line)..]))
    else if IsRule(TrimStart(line)) then Rule
    else if line[0] == '>' && Dots(QuoteRest(line)) then Quote(QuoteRest(line))
    else if IsItem(TrimStart(line)) then Item(TrimStart(TrimStart(line)[1..]))
    else Text(TrimStart(line))
  }

  // ---- the declarative grouping ----------------------------------------------------

  datatype Block =
    | Paragraph(lines: seq<string>)
    | List(items: seq<string>)
    | Blockquote(lines: seq<string>)
    | Code(lang: string, lines: seq<string>)
    | HeadingBlock(level: nat, text: string)
    | RuleBlock

  /** The three kinds of line that collect into a block with their neighbours. */
  datatype Tag = TextTag | ItemTag | QuoteTag

  predicate Has(raw: string, tag: Tag) {
    match tag
    case TextTag => Classify(raw).Text?
    case ItemTag => Classify(raw).Item?
    case QuoteTag => Classify(raw).Quote?
  }

  function TextOf(raw: string, tag: Tag): string
    requires Has(raw, tag)
  {
    Classify(raw).text
  }

  function BlockOf(tag: Tag, texts: seq<string>): Block {
    match tag case TextTag => Paragraph(texts) case ItemTag => List(texts) case QuoteTag => Blockquote(texts)
  }

  /** The longest run of `tag` lines at the front. */
  function RunTexts(lines: seq<string>, tag: Tag): (r: seq<string>)
    ensures |r| <= |lines|
  {
    if lines != [] && Has(lines[0], tag) then [TextOf(lines[0], tag)] + RunTexts(lines[1..], tag) else []
  }

  /** The index of the first fence, or |lines|. */
  function FenceAt(lines: seq<string>): (k: nat)
    ensures k <= |lines|
    ensures k < |lines| ==> Classify(lines[k]).Fence?
  {
    if lines == [] || Classify(lines[0]).Fence? then 0 else 1 + FenceAt(lines[1..])
  }

  /** A fence opens a code block up to the next fence (an unclosed one runs to the end and loses its language);
      paragraphs, lists and quotes are maximal runs of their lines. */
  function Group(lines: seq<string>): seq<Block>
    decreases |lines|, 1
  {
    if lines == [] then []
    else
      match Classify(lines[0])
      case Fence(lang) => Fenced(lang, [], lines[1..])
      case Blank => Group(lines[1..])
      case Heading(level, text) => [HeadingBlock(level, text)] + Group(lines[1..])
      case Rule => [RuleBlock] + Group(lines[1..])
      case Quote(t) => Collected(QuoteTag, [t], lines[1..])
      case Item(t) => Collected(ItemTag, [t], lines[1..])
      case Text(t) => Collected(TextTag, [t], lines[1..])
  }

  /** A run that has already collected `texts`. */
  function Collected(tag: Tag, texts: seq<string>, rest: seq<string>): seq<Block>
    decreases |rest|, 2
  {
    [BlockOf(tag, texts + RunTexts(rest, tag))] + Group(rest[|RunTexts(rest, tag)|..])
  }

  /** A code block that has already collected `code`. */
  function Fenced(lang: string, code: seq<string>, rest: seq<string>): seq<Block>
    decreases |rest|, 2
  {
    if FenceAt(rest) < |rest|
    then [Code(lang, code + rest[..FenceAt(rest)])] + Group(rest[FenceAt(rest) + 1..])
    else [Code("", code + rest)]
  }

  // ---- the loop ----------------------------------------------------------------------

  /** What the buffers hold: nothing, one open run, or an open fence. */
  datatype Open = Nothing | Collecting(tag: Tag, texts: seq<string>) | InCode(lang: string, code: seq<string>)

  function Resume(open: Open, rest: seq<string>): seq<Block> {
    match open
    case Nothing => Group(rest)
    case Collecting(tag, texts) => Collected(tag, texts, rest)
    case InCode(lang, code) => Fenced(lang, code, rest)
  }

  function Flushed(open: Open): seq<Block> {
    match open
    case Collecting(tag, texts) => [BlockOf(tag, texts)]
    case _ => []
  }

  lemma RunMore(tag: Tag, line: string, rest: seq<string>)
    requires Has(line, tag)
    ensures RunTexts([line] + rest, tag) == [TextOf(line, tag)] + RunTexts(rest, tag)
  {
    assert ([line] + rest)[1..] == rest;
  }

  lemma DropNext(line: string, rest: seq<string>, n: nat)
    requires n <= |rest|
    ensures ([line] + rest)[n + 1..] == rest[n..] && ([line] + rest)[..n + 1] == [line] + rest[..n]
  {}

  lemma CollectMore(tag: Tag, texts: seq<string>, line: string, rest: seq<string>)
    requires Has(line, tag)
    ensures Collected(tag, texts, [line] + rest) == Collected(tag, texts + [TextOf(line, tag)], rest)
  {
    RunMore(tag, line, rest);
    Assoc(texts, [TextOf(line, tag)], RunTexts(rest, tag));
    DropNext(line, rest, |RunTexts(rest, tag)|);
  }

  lemma CollectStops(tag: Tag, texts: seq<string>, lines: seq<string>)
    requires lines == [] || !Has(lines[0], tag)
    ensures Collected(tag, texts, lines) == [BlockOf(tag, texts)] + Group(lines)
  {
    assert RunTexts(lines, tag) == [] && texts + [] == texts;
  }

  lemma FenceLater(line: string, rest: seq<string>)
    requires !Classify(line).Fence?
    ensures FenceAt([line] + rest) == FenceAt(rest) + 1
  {
    assert ([line] + rest)[1..] == rest;
  }

  lemma CodeMore(lang: string, code: seq<string>, line: string, rest: seq<string>)
    requires !Classify(line).Fence?
    ensures Fenced(lang, code, [line] + rest) == Fenced(lang, code + [line], rest)
  {
    var k := FenceAt(rest);
    FenceLater(line, rest);
    Assoc(code, [line], rest);
    Assoc(code, [line], rest[..k]);
    DropNext(line, rest, k);
    if k < |rest| { DropNext(line, rest, k + 1); }
  }

  lemma CodeStops(lang: string, code: seq<string>, line: string, rest: seq<string>)
    requires Classify(line).Fence?
    ensures Fenced(lang, code, [line] + rest) == [Code(lang, code)] + Group(rest)
  {
    var lines := [line] + rest;
    assert lines[1..] == rest && code + lines[..0] == code;
  }

  /** One line outside a fence: the blocks it flushes and what stays open after it. */
  lemma TextStep(open: Open, line: string, rest: seq<string>)
    requires !open.InCode?
    ensures Resume(open, [line] + rest) ==
      match Classify(line)
      case Fence(lang) => Flushed(open) + Resume(InCode(lang, []), rest)
      case Blank => Flushed(open) + Resume(Nothing, rest)
      case Heading(level, text) => Flushed(open) + [HeadingBlock(level, text)] + Resume(Nothing, rest)
      case Rule => Flushed(open) + [RuleBlock] + Resume(Nothing, rest)
      case Quote(t) => Joined(open, QuoteTag, t, rest)
      case Item(t) => Joined(open, ItemTag, t, rest)
      case Text(t) => Joined(open, TextTag, t, rest)
  {
    var lines := [line] + rest;
    assert lines[1..] == rest;
    if open.Collecting? {
      if Has(line, open.tag) {
        CollectMore(open.tag, open.texts, line, rest);
      } else {
        CollectStops(open.tag, open.texts, lines);
      }
    }
  }

  /** A text line joins the open run of its tag, or closes the open run and starts one. */
  function Joined(open: Open, tag: Tag, t: string, rest: seq<string>): seq<Block> {
    if open.Collecting? && open.tag == tag then Resume(Collecting(tag, open.texts + [t]), rest)
    else Flushed(open) + Resume(Collecting(tag, [t]), rest)
  }

  /** The variables of renderMarkdownBody's loop, which its flush closures share. */
  class BlockLoop {
    var blocks: seq<Block>
    var paragraphLines: seq<string>
    var listItems: seq<string>
    var quoteLines: seq<string>
    var codeLines: seq<string>
    var inCodeBlock: bool
    var codeLanguage: string

    /** At most one of the text buffers is non-empty, and all three are empty inside a fence; outside one the code
        buffer is empty. */
    predicate OneBuffer()
      reads this
    {
      && (paragraphLines == [] || listItems == [])
      && (paragraphLines == [] || quoteLines == [])
      && (listItems == [] || quoteLines == [])
      && (inCodeBlock ==> paragraphLines == listItems == quoteLines == [])
      && (!inCodeBlock ==> codeLines == [] && codeLanguage == "")
    }

    function Buffered(): Open
      reads this
    {
      if inCodeBlock then InCode(codeLanguage, codeLines)
      else if paragraphLines != [] then Collecting(TextTag, paragraphLines)
      else if listItems != [] then Collecting(ItemTag, listItems)
      else if quoteLines != [] then Collecting(QuoteTag, quoteLines)
      else Nothing
    }

    constructor ()
      ensures OneBuffer() && blocks == [] && Buffered() == Nothing
    {
      blocks, paragraphLines, listItems, quoteLines, codeLines := [], [], [], [], [];
      inCodeBlock, codeLanguage := false, "";
    }

    method FlushParagraph()
      modifies this`blocks, this`paragraphLines
      ensures blocks ==
        if old(paragraphLines) == [] then old(blocks) else old(blocks) + [Paragraph(old(paragraphLines))]
      ensures paragraphLines == []
    {
      if paragraphLines == [] { return; }
      blocks := blocks + [Paragraph(paragraphLines)];
      paragraphLines := [];
    }

    method FlushList()
      modifies this`blocks, this`listItems
      ensures blocks == if old(listItems) == [] then old(blocks) else old(blocks) + [List(old(listItems))]
      ensures listItems == []
    {
      if listItems == [] { return; }
      blocks := blocks + [List(listItems)];
      listItems := [];
    }

    method FlushQuote()
      modifies this`blocks, this`quoteLines
      ensures blocks == if old(quoteLines) == [] then old(blocks) else old(blocks) + [Blockquote(old(quoteLines))]
      ensures quoteLines == []
    {
      if quoteLines == [] { return; }
      blocks := blocks + [Blockquote(quoteLines)];
      quoteLines := [];
    }

    method FlushTextBlocks()
      requires OneBuffer() && !inCodeBlock
      modifies this`blocks, this`paragraphLines, this`listItems, this`quoteLines
      ensures OneBuffer() && Buffered() == Nothing
      ensures blocks == old(blocks) + Flushed(old(Buffered()))
    {
      FlushParagraph();
      FlushList();
      FlushQuote();
    }

    /** One round of the loop: what is still to come means the same after it as before. */
    method TakeLine(rawLine: string, ghost rest: seq<string>)
      requires OneBuffer()
      modifies this
      ensures OneBuffer()
      ensures blocks + Resume(Buffered(), rest) == old(blocks) + Resume(old(Buffered()), [rawLine] + rest)
    {
      if Classify(rawLine).Fence? {
        TakeFence(rawLine, rest);
      } else if inCodeBlock {
        CodeMore(codeLanguage, codeLines, rawLine, rest);
        codeLines := codeLines + [rawLine];
      } else {
        TakeText(rawLine, rest);
      }
    }

    method TakeFence(rawLine: string, ghost rest: seq<string>)
      requires OneBuffer() && Classify(rawLine).Fence?
      modifies this
      ensures OneBuffer()
      ensures blocks + Resume(Buffered(), rest) == old(blocks) + Resume(old(Buffered()), [rawLine] + rest)
    {
      if inCodeBlock {
        CodeStops(codeLanguage, codeLines, rawLine, rest);
        Assoc(blocks, [Code(codeLanguage, codeLines)], Group(rest));
        blocks := blocks + [Code(codeLanguage, codeLines)];
        codeLines, inCodeBlock, codeLanguage := [], false, "";
      } else {
        TextStep(Buffered(), rawLine, rest);
        Assoc(blocks, Flushed(Buffered()), Resume(InCode(Classify(rawLine).lang, []), rest));
        FlushTextBlocks();
        inCodeBlock := true;
        codeLanguage := Classify(rawLine).lang;
      }
    }

    method TakeText(rawLine: string, ghost rest: seq<string>)
      requires OneBuffer() && !inCodeBlock && !Classify(rawLine).Fence?
      modifies this
      ensures OneBuffer()
      ensures blocks + Resume(Buffered(), rest) == old(blocks) + Resume(old(Buffered()), [rawLine] + rest)
    {
      TextStep(Buffered(), rawLine, rest);
      ghost var was, flushed := blocks, Flushed(Buffered());
      match Classify(rawLine) {
        case Blank =>
          FlushTextBlocks();
          Assoc(was, flushed, Group(rest));
        case Heading(level, text) =>
          FlushTextBlocks();
          blocks := blocks + [HeadingBlock(level, text)];
          AppendTwice(was, flushed, [HeadingBlock(level, text)], Group(rest));
        case Rule =>
          FlushTextBlocks();
          blocks := blocks + [RuleBlock];
          AppendTwice(was, flushed, [RuleBlock], Group(rest));
        case Quote(t) => PushQuote(t, rest);
        case Item(t) => PushItem(t, rest);
        case Text(t) => PushText(t, rest);
      }
    }

    method PushQuote(t: string, ghost rest: seq<string>)
      requires OneBuffer() && !inCodeBlock
      modifies this
      ensures OneBuffer()
      ensures blocks + Resume(Buffered(), rest) == old(blocks) + Joined(old(Buffered()), QuoteTag, t, rest)
    {
      Assoc(blocks, Flushed(Buffered()), Resume(Collecting(QuoteTag, [t]), rest));
      FlushParagraph();
      FlushList();
      quoteLines := quoteLines + [t];
      assert [] + [t] == [t] && old(blocks) + [] == old(blocks);
    }

    method PushItem(t: string, ghost rest: seq<string>)
      requires OneBuffer() && !inCodeBlock
      modifies this
      ensures OneBuffer()
      ensures blocks + Resume(Buffered(), rest) == old(blocks) + Joined(old(Buffered()), ItemTag, t, rest)
    {
      Assoc(blocks, Flushed(Buffered()), Resume(Collecting(ItemTag, [t]), rest));
      FlushParagraph();
      FlushQuote();
      listItems := listItems + [t];
      assert [] + [t] == [t] && old(blocks) + [] == old(blocks);
    }

    method PushText(t: string, ghost rest: seq<string>)
      requires OneBuffer() && !inCodeBlock
      modifies this
      ensures OneBuffer()
      ensures blocks + Resume(Buffered(), rest) == old(blocks) + Joined(old(Buffered()), TextTag, t, rest)
    {
      Assoc(blocks, Flushed(Buffered()), Resume(Collecting(TextTag, [t]), rest));
      FlushList();
      FlushQuote();
      paragraphLines := paragraphLines + [t];
      assert [] + [t] == [t] && old(blocks) + [] == old(blocks);
    }

    /** After the last line: flush, then close an unclosed fence without its language. */
    method Finish()
      requires OneBuffer()
      modifies this
      ensures blocks == old(blocks) + Resume(old(Buffered()), [])
    {
      if Buffered().Collecting? { CollectStops(Buffered().tag, Buffered().texts, []); }
      if inCodeBlock {
        assert codeLines + [] == codeLines;
        blocks := blocks + [Code("", codeLines)];
      } else {
        FlushTextBlocks();
      }
    }
  }

  lemma AppendTwice(a: seq<Block>, b: seq<Block>, c: seq<Block>, d: seq<Block>)
    ensures a + (b + c + d) == a + b + c + d
  {}

  lemma TakeFirst(lines: seq<string>, i: nat)
    requires i < |lines|
    ensures lines[i..] == [lines[i]] + lines[i + 1..]
  {}

  /** renderMarkdownBody up to the HTML text of each block. */
  method RenderBlocks(lines: seq<string>) returns (blocks: seq<Block>)
    ensures blocks == Group(lines)
  {
    var loop := new BlockLoop();
    assert lines[0..] == lines;
    for i := 0 to |lines|
      invariant loop.OneBuffer()
      invariant Group(lines) == loop.blocks + Resume(loop.Buffered(), lines[i..])
    {
      TakeFirst(lines, i);
      loop.TakeLine(lines[i], lines[i + 1..]);
    }
    loop.Finish();
    return loop.blocks;
  }

  /** renderMarkdownBody on the text itself: CRLF and LF both end a line. */
  method RenderMarkdownBody(markdown: string) returns (blocks: seq<Block>)
    ensures blocks == Group(Lines(LfOrCrLf, markdown))
  {
    blocks := RenderBlocks(Lines(LfOrCrLf, markdown));
  }

  // ---- every content line lands in exactly one block, in order -----------------------

  /** A piece of content: one line of a block, tagged with the kind of block it is in. */
  datatype Piece =
    | Run(tag: Tag, text: string)
    | CodeLine(raw: string)
    | HeadingPiece(level: nat, text: string)
    | RulePiece

  /** The content of the input, line by line; `inCode` says whether a fence is open. */
  function Content(lines: seq<string>, inCode: bool): seq<Piece> {
    if lines == [] then []
    else
      var k := Classify(lines[0]);
      if k.Fence? then Content(lines[1..], !inCode)
      else if inCode then [CodeLine(lines[0])] + Content(lines[1..], true)
      else match k
        case Blank => Content(lines[1..], false)
        case Heading(level, text) => [HeadingPiece(level, text)] + Content(lines[1..], false)
        case Rule => [RulePiece] + Content(lines[1..], false)
        case Quote(t) => [Run(QuoteTag, t)] + Content(lines[1..], false)
        case Item(t) => [Run(ItemTag, t)] + Content(lines[1..], false)
        case Text(t) => [Run(TextTag, t)] + Content(lines[1..], false)
  }

  function Runs(tag: Tag, texts: seq<string>): seq<Piece> {
    if texts == [] then [] else [Run(tag, texts[0])] + Runs(tag, texts[1..])
  }

  function CodeLines(code: seq<string>): seq<Piece> {
    if code == [] then [] else [CodeLine(code[0])] + CodeLines(code[1..])
  }

  function Pieces(b: Block): seq<Piece> {
    match b
    case Paragraph(ls) => Runs(TextTag, ls)
    case List(ls) => Runs(ItemTag, ls)
    case Blockquote(ls) => Runs(QuoteTag, ls)
    case Code(_, ls) => CodeLines(ls)
    case HeadingBlock(level, text) => [HeadingPiece(level, text)]
    case RuleBlock => [RulePiece]
  }

  function Flatten(bs: seq<Block>): seq<Piece> {
    if bs == [] then [] else Pieces(bs[0]) + Flatten(bs[1..])
  }

  lemma FlattenCons(b: Block, bs: seq<Block>)
    ensures Flatten([b] + bs) == Pieces(b) + Flatten(bs)
  {}

  lemma DropCons(lines: seq<string>, n: nat)
    requires n < |lines|
    ensures lines[1..][n..] == lines[n + 1..]
  {}

  lemma TakeCons(lines: seq<string>, n: nat)
    requires n < |lines|
    ensures lines[..n + 1] == [lines[0]] + lines[1..][..n]
  {}

  lemma RunsCons(tag: Tag, t: string, ts: seq<string>)
    ensures Runs(tag, [t] + ts) == [Run(tag, t)] + Runs(tag, ts)
  {}

  lemma {:induction false} RunContent(lines: seq<string>, tag: Tag)
    ensures Content(lines, false) == Runs(tag, RunTexts(lines, tag)) + Content(lines[|RunTexts(lines, tag)|..], false)
  {
    if lines != [] && Has(lines[0], tag) {
      var r := RunTexts(lines[1..], tag);
      RunContent(lines[1..], tag);
      DropCons(lines, |r|);
      RunsCons(tag, TextOf(lines[0], tag), r);
      Assoc([Run(tag, TextOf(lines[0], tag))], Runs(tag, r), Content(lines[|r| + 1..], false));
    }
  }

  lemma CodeLinesCons(line: string, ls: seq<string>)
    ensures CodeLines([line] + ls) == [CodeLine(line)] + CodeLines(ls)
  {}

  lemma {:induction false} CodeContent(lines: seq<string>)
    ensures Content(lines, true) == CodeLines(lines[..FenceAt(lines)]) + AfterFence(lines)
  {
    if lines == [] || Classify(lines[0]).Fence? {
    } else {
      var k := FenceAt(lines[1..]);
      CodeContent(lines[1..]);
      TakeCons(lines, k);
      if k < |lines[1..]| { DropCons(lines, k + 1); }
      CodeLinesCons(lines[0], lines[1..][..k]);
      Assoc([CodeLine(lines[0])], CodeLines(lines[1..][..k]), AfterFence(lines[1..]));
    }
  }

  /** The content after the fence that ends a code block. */
  function AfterFence(lines: seq<string>): seq<Piece> {
    if FenceAt(lines) < |lines| then Content(lines[FenceAt(lines) + 1..], false) else []
  }

  ghost predicate Once(lines: seq<string>) { Flatten(Group(lines)) == Content(lines, false) }

  lemma CollectedOnce(tag: Tag, t: string, rest: seq<string>)
    requires Once(rest[|RunTexts(rest, tag)|..])
    ensures Flatten(Collected(tag, [t], rest)) == [Run(tag, t)] + Content(rest, false)
  {
    var r := RunTexts(rest, tag);
    var after := rest[|r|..];
    FlattenCons(BlockOf(tag, [t] + r), Group(after));
    RunContent(rest, tag);
    RunsCons(tag, t, r);
    Assoc([Run(tag, t)], Runs(tag, r), Content(after, false));
  }

  lemma RunOnce(lines: seq<string>, rest: seq<string>, tag: Tag)
    requires lines != [] && rest == lines[1..] && Has(lines[0], tag)
    requires Once(rest[|RunTexts(rest, tag)|..])
    ensures Once(lines)
  {
    CollectedOnce(tag, TextOf(lines[0], tag), rest);
  }

  lemma SingleOnce(lines: seq<string>)
    requires lines != [] && Once(lines[1..])
    requires Classify(lines[0]).Blank? || Classify(lines[0]).Heading? || Classify(lines[0]).Rule?
    ensures Once(lines)
  {
    match Classify(lines[0])
    case Heading(level, text) => FlattenCons(HeadingBlock(level, text), Group(lines[1..]));
    case Rule => FlattenCons(RuleBlock, Group(lines[1..]));
    case _ =>
  }

  lemma NoPrefix(a: seq<string>)
    ensures [] + a == a && a[..|a|] == a
  {}

  lemma FlattenOne(b: Block)
    ensures Flatten([b]) == Pieces(b) + []
  {
    FlattenCons(b, []);
    assert [b] + [] == [b];
  }

  lemma FencedFromStart(lang: string, rest: seq<string>)
    ensures Fenced(lang, [], rest) ==
      if FenceAt(rest) < |rest| then [Code(lang, rest[..FenceAt(rest)])] + Group(rest[FenceAt(rest) + 1..])
      else [Code("", rest[..FenceAt(rest)])]
  {
    NoPrefix(rest[..FenceAt(rest)]);
    NoPrefix(rest);
  }

  lemma FencedOnce(lang: string, rest: seq<string>)
    requires FenceAt(rest) < |rest| ==> Flatten(Group(rest[FenceAt(rest) + 1..])) == AfterFence(rest)
    ensures Flatten(Fenced(lang, [], rest)) == Content(rest, true)
  {
    var code := rest[..FenceAt(rest)];
    CodeContent(rest);
    FencedFromStart(lang, rest);
    if FenceAt(rest) < |rest| {
      FlattenCons(Code(lang, code), Group(rest[FenceAt(rest) + 1..]));
    } else {
      FlattenOne(Code("", code));
    }
  }

  lemma CodeOnce(lines: seq<string>)
    requires lines != [] && Classify(lines[0]).Fence?
    requires FenceAt(lines[1..]) < |lines[1..]| ==> Once(lines[1..][FenceAt(lines[1..]) + 1..])
    ensures Once(lines)
  {
    FencedOnce(Classify(lines[0]).lang, lines[1..]);
  }

  /** Every content line lands in exactly one block and the blocks keep the input order, also when the last fence is
      never closed. */
  lemma {:induction false} EveryLineOnce(lines: seq<string>)
    ensures Flatten(Group(lines)) == Content(lines, false)
    decreases |lines|
  {
    if lines != [] {
      var rest, kind := lines[1..], Classify(lines[0]);
      if kind.Fence? {
        if FenceAt(rest) < |rest| { EveryLineOnce(rest[FenceAt(rest) + 1..]); }
        CodeOnce(lines);
      } else if kind.Quote? || kind.Item? || kind.Text? {
        var tag := if kind.Quote? then QuoteTag else if kind.Item? then ItemTag else TextTag;
        EveryLineOnce(rest[|RunTexts(rest, tag)|..]);
        RunOnce(lines, rest, tag);
      } else {
        EveryLineOnce(rest);
        SingleOnce(lines);
      }
    }
  }
}
