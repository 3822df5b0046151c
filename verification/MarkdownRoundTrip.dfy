/** Printing a document line by line and rendering it back to its blocks. */
module MarkdownRoundTrip {
  import opened Markdown
  import opened Text

  // ---- printed lines -----------------------------------------------------------------

  /** A language name: letters, digits and underscores. */
  predicate Word(s: string) {
    forall c :: c in s ==> 'a' <= c <= 'z' || 'A' <= c <= 'Z' || '0' <= c <= '9' || c == '_'
  }

  /** Spaces and tabs around a line's text. */
  predicate Blanks(s: string) { forall c :: c in s ==> c == ' ' || c == '\t' }

  type Pad = s: string | Blanks(s) witness ""

  type Gap = s: string | Blanks(s) && s != "" witness " "

  /** One line's worth of text, not padded itself. */
  predicate Inline(s: string) { Solid(s) && Dots(s) }

  function Repeat(c: char, n: nat): (r: string)
    ensures |r| == n && forall i :: 0 <= i < n ==> r[i] == c
  {
    seq(n, _ => c)
  }

  ghost predicate LooksLikeFence(t: string) { exists w :: t == "```" + w && Word(w) }

  /** One to six hashes and a space. */
  ghost predicate LooksLikeHeading(t: string) {
    exists k :: 1 <= k <= 6 && k < |t| && t[..k] == Repeat('#', k) && IsSpace(t[k])
  }

  /** Three or more equal dashes, stars or underscores. */
  ghost predicate LooksLikeRule(t: string) {
    exists c :: c in {'-', '*', '_'} && |t| >= 3 && t == Repeat(c, |t|)
  }

  predicate LooksLikeItem(t: string) { |t| >= 2 && t[0] in {'-', '*', '+'} && IsSpace(t[1]) }

  /** A line outside a fence. */
  datatype Line =
    | HeadingLine(level: nat, gap: Gap, text: string, pad: Pad)
    | RuleLine(indent: Pad, mark: char, n: nat, pad: Pad)
    | QuoteLine(spaced: bool, text: string, pad: Pad)
    | ItemLine(indent: Pad, marker: char, gap: Gap, text: string, pad: Pad)
    | TextLine(indent: Pad, text: string, pad: Pad)
    | BlankLine(pad: Pad)
  {
    function Text(): string {
      match this
      case HeadingLine(level, gap, text, pad) => Repeat('#', level) + (gap + text) + pad
      case RuleLine(indent, mark, n, pad) => indent + Repeat(mark, n) + pad
      case QuoteLine(spaced, text, pad) => ">" + (if spaced then " " else "") + text + pad
      case ItemLine(indent, marker, gap, text, pad) => indent + ([marker] + (gap + text)) + pad
      case TextLine(indent, text, pad) => indent + text + pad
      case BlankLine(pad) => pad
    }

    ghost predicate Ok() {
      match this
      case HeadingLine(level, _, text, _) => 1 <= level <= 6 && Inline(text) && text != ""
      case RuleLine(_, mark, n, _) => n >= 3 && mark in {'-', '*', '_'}
      case QuoteLine(spaced, text, _) =>
        Dots(text) && (text != "" ==> !IsSpace(text[|text| - 1]) && (!spaced ==> !IsSpace(text[0])))
      case ItemLine(_, marker, _, text, _) => marker in {'-', '*', '+'} && Inline(text) && text != ""
      case TextLine(indent, text, _) =>
        && Inline(text) && text != "" && !LooksLikeRule(text) && !LooksLikeItem(text)
        && (indent == "" ==> !LooksLikeFence(text) && !LooksLikeHeading(text) && text[0] != '>')
      case BlankLine(_) => true
    }

    /** What the line is meant to be. */
    function Meant(): Kind {
      match this
      case HeadingLine(level, _, text, _) => Heading(level, text)
      case RuleLine(_, _, _, _) => Rule
      case QuoteLine(_, text, _) => Quote(text)
      case ItemLine(_, _, _, text, _) => Item(text)
      case TextLine(_, text, _) => Kind.Text(text)
      case BlankLine(_) => Blank
    }
  }

  // ---- reading a printed line ------------------------------------------------------------

  lemma {:induction false} HashesOf(n: nat, rest: string)
    requires rest != "" && rest[0] != '#'
    ensures Hashes(Repeat('#', n) + rest) == n
  {
    if n == 0 {
      assert Repeat('#', 0) + rest == rest;
    } else {
      assert (Repeat('#', n) + rest)[1..] == Repeat('#', n - 1) + rest;
      HashesOf(n - 1, rest);
    }
  }

  lemma {:induction false} HashesAre(s: string)
    ensures s[..Hashes(s)] == Repeat('#', Hashes(s))
  {
    if s != "" && s[0] == '#' {
      HashesAre(s[1..]);
      assert s[..Hashes(s)] == [s[0]] + s[1..][..Hashes(s[1..])];
    } else {
      assert s[..0] == Repeat('#', 0);
    }
  }

  lemma WordIsWord(s: string)
    ensures Word(s) <==> AllWord(s)
  {}

  lemma ReadHeading(l: Line)
    requires l.HeadingLine? && l.Ok()
    ensures Classify(l.Text()) == Heading(l.level, l.text)
  {
    var body := Repeat('#', l.level) + (l.gap + l.text);
    TrimEndDrops(body, l.pad);
    assert body[0] == '#' && l.gap[0] in l.gap && (l.gap + l.text)[0] == l.gap[0];
    HashesOf(l.level, l.gap + l.text);
    assert body[l.level..] == l.gap + l.text && body[l.level] == l.gap[0];
    TrimStartDrops(l.gap, l.text);
  }

  lemma NotFenceNorHeading(indent: string, t: string)
    requires Blanks(indent) && t != "" && t[0] != '`' && t[0] != '#'
    ensures !("```" <= indent + t) && Hashes(indent + t) == 0
  {
    var line := indent + t;
    if indent == "" {
      assert line == t;
    } else {
      assert indent[0] in indent && line[0] == indent[0];
    }
    assert line[0] != '`' && line[0] != '#';
  }

  lemma ReadRule(l: Line)
    requires l.RuleLine? && l.Ok()
    ensures Classify(l.Text()) == Rule
  {
    var marks := Repeat(l.mark, l.n);
    TrimEndDrops(l.indent + marks, l.pad);
    NotFenceNorHeading(l.indent, marks);
    TrimStartDrops(l.indent, marks);
    assert marks[0] == l.mark && AllAre(marks, marks[0]);
  }

  lemma QuoteTrimmed(l: Line)
    requires l.QuoteLine? && l.Ok()
    ensures TrimEnd(l.Text()) == if l.text == "" then ">" else ">" + (if l.spaced then " " else "") + l.text
  {
    var lead := ">" + (if l.spaced then " " else "");
    if l.text == "" {
      assert l.Text() == ">" + ((if l.spaced then " " else "") + l.pad);
      TrimEndDrops(">", (if l.spaced then " " else "") + l.pad);
    } else {
      TrimEndDrops(lead + l.text, l.pad);
    }
  }

  lemma ReadQuote(l: Line)
    requires l.QuoteLine? && l.Ok()
    ensures Classify(l.Text()) == Quote(l.text)
  {
    QuoteTrimmed(l);
    var line := TrimEnd(l.Text());
    assert line[0] == '>' && Hashes(line) == 0 && TrimStart(line) == line;
    if l.text == "" {
      assert QuoteRest(line) == "";
    } else if l.spaced {
      assert line[2..] == l.text && line[1] == ' ';
    } else {
      assert line[1..] == l.text;
    }
  }

  lemma ItemBody(marker: char, gap: Gap, text: string)
    requires marker in {'-', '*', '+'} && Inline(text) && text != ""
    ensures var body := [marker] + (gap + text);
      body[0] == marker && IsItem(body) && !IsRule(body) && TrimStart(body[1..]) == text
  {
    var body := [marker] + (gap + text);
    assert gap[0] in gap && body[1] == gap[0] && body[1] in body;
    assert body[1..] == gap + text;
    TrimStartDrops(gap, text);
  }

  /** A line that is no fence, heading or quote, by its first character. */
  predicate PlainStart(line: string) { line != "" && line[0] != '`' && line[0] != '#' && line[0] != '>' }

  lemma PlainLine(line: string)
    requires PlainStart(line) && TrimEnd(line) == line
    ensures Classify(line) ==
      if IsRule(TrimStart(line)) then Rule
      else if IsItem(TrimStart(line)) then Item(TrimStart(TrimStart(line)[1..]))
      else Kind.Text(TrimStart(line))
  {
    assert Hashes(line) == 0;
    assert !("```" <= line);
  }

  lemma IndentedStart(indent: string, body: string)
    requires Blanks(indent) && PlainStart(body)
    ensures PlainStart(indent + body)
  {
    if indent == "" {
      assert indent + body == body;
    } else {
      assert indent[0] in indent && (indent + body)[0] == indent[0];
    }
  }

  lemma ClassifyItem(line: string, indent: string, body: string)
    requires line == indent + body && TrimEnd(line) == line && Blanks(indent)
    requires body != "" && body[0] in {'-', '*', '+'} && IsItem(body) && !IsRule(body)
    ensures Classify(line) == Item(TrimStart(body[1..]))
  {
    IndentedStart(indent, body);
    PlainLine(line);
    TrimStartDrops(indent, body);
  }

  lemma ReadItem(l: Line)
    requires l.ItemLine? && l.Ok()
    ensures Classify(l.Text()) == Item(l.text)
  {
    var body := [l.marker] + (l.gap + l.text);
    var line := l.indent + body;
    ItemBody(l.marker, l.gap, l.text);
    TrimEndDrops(line, l.pad);
    assert line + "" == line;
    TrimEndDrops(line, "");
    ClassifyItem(line, l.indent, body);
    SameClass(l.Text(), line);
  }

  /** Only the right-trimmed line counts. */
  lemma SameClass(a: string, b: string)
    requires TrimEnd(a) == TrimEnd(b)
    ensures Classify(a) == Classify(b)
  {}

  lemma FenceLooks(t: string)
    ensures "```" <= t && AllWord(t[3..]) ==> LooksLikeFence(t)
  {
    if "```" <= t && AllWord(t[3..]) {
      WordIsWord(t[3..]);
      assert t == "```" + t[3..];
    }
  }

  lemma HeadingLooks(t: string)
    ensures IsHeading(t) ==> LooksLikeHeading(t)
  {
    HashesAre(t);
  }

  lemma RuleLooks(t: string)
    ensures IsRule(t) ==> LooksLikeRule(t)
  {
    if IsRule(t) {
      assert t[0] in {'-', '*', '_'};
      assert forall i :: 0 <= i < |t| ==> t[i] in t;
      assert t == Repeat(t[0], |t|);
    }
  }

  lemma ReadText(l: Line)
    requires l.TextLine? && l.Ok()
    ensures Classify(l.Text()) == Kind.Text(l.text)
  {
    var line := l.indent + l.text;
    TrimEndDrops(line, l.pad);
    TrimStartDrops(l.indent, l.text);
    RuleLooks(l.text);
    if l.indent == "" {
      assert line == l.text;
      FenceLooks(l.text);
      HeadingLooks(l.text);
    } else {
      assert line[0] == l.indent[0];
    }
  }

  /** Every printed line is read as what it was meant to be. */
  lemma LineReadsBack(l: Line)
    requires l.Ok()
    ensures Classify(l.Text()) == l.Meant()
  {
    match l
    case HeadingLine(_, _, _, _) => ReadHeading(l);
    case RuleLine(_, _, _, _) => ReadRule(l);
    case QuoteLine(_, _, _) => ReadQuote(l);
    case ItemLine(_, _, _, _, _) => ReadItem(l);
    case TextLine(_, _, _) => ReadText(l);
    case BlankLine(pad) =>
      TrimEndDrops("", pad);
      assert "" + pad == pad;
  }

  lemma FenceReadsBack(lang: string, pad: Pad)
    requires Word(lang)
    ensures Classify("```" + lang + pad) == Fence(lang)
  {
    WordIsWord(lang);
    var line := "```" + lang;
    assert lang != "" ==> lang[|lang| - 1] in lang;
    TrimEndDrops(line, pad);
    assert line[3..] == lang;
  }

  // ---- documents ---------------------------------------------------------------------------

  /** A part of a document: a heading, rule or blank line; a run of quote, item or text lines; or a fenced block. */
  datatype Part =
    | LonePart(line: Line)
    | RunPart(lines: seq<Line>)
    | FencePart(lang: string, pad: Pad, code: seq<string>, closePad: Pad)

  /** Code may be any text that does not itself start a fence. */
  predicate CodeOk(code: seq<string>) { forall i :: 0 <= i < |code| ==> !("```" <= code[i]) && NoEol(code[i]) }

  predicate SameKind(a: Line, b: Line) {
    || (a.QuoteLine? && b.QuoteLine?) || (a.ItemLine? && b.ItemLine?) || (a.TextLine? && b.TextLine?)
  }

  ghost predicate PartOk(p: Part) {
    match p
    case LonePart(l) => l.Ok() && (l.HeadingLine? || l.RuleLine? || l.BlankLine?)
    case RunPart(ls) => ls != [] && forall i :: 0 <= i < |ls| ==> ls[i].Ok() && SameKind(ls[0], ls[i])
    case FencePart(lang, _, code, _) => Word(lang) && CodeOk(code)
  }

  /** Two runs of the same kind are one run, so they do not stand next to each other. */
  ghost predicate DocOk(parts: seq<Part>) {
    && (forall i :: 0 <= i < |parts| ==> PartOk(parts[i]))
    && (forall i :: 0 <= i < |parts| - 1 ==>
          parts[i].RunPart? && parts[i + 1].RunPart? ==> !SameKind(parts[i].lines[0], parts[i + 1].lines[0]))
  }

  function LineTexts(ls: seq<Line>): (r: seq<string>)
    ensures |r| == |ls|
  {
    if ls == [] then [] else [ls[0].Text()] + LineTexts(ls[1..])
  }

  function Contents(ls: seq<Line>): seq<string>
    requires forall i :: 0 <= i < |ls| ==> ls[i].QuoteLine? || ls[i].ItemLine? || ls[i].TextLine?
  {
    if ls == [] then [] else [ls[0].text] + Contents(ls[1..])
  }

  function PartTexts(p: Part): seq<string> {
    match p
    case LonePart(l) => [l.Text()]
    case RunPart(ls) => LineTexts(ls)
    case FencePart(lang, pad, code, closePad) => ["```" + lang + pad] + (code + ["```" + closePad])
  }

  function PrintDoc(parts: seq<Part>): seq<string> {
    if parts == [] then [] else PartTexts(parts[0]) + PrintDoc(parts[1..])
  }

  /** The blocks a part stands for. */
  function BlocksOf(p: Part): seq<Block>
    requires PartOk(p)
  {
    match p
    case LonePart(HeadingLine(level, _, text, _)) => [HeadingBlock(level, text)]
    case LonePart(RuleLine(_, _, _, _)) => [RuleBlock]
    case LonePart(_) => []
    case RunPart(ls) =>
      if ls[0].QuoteLine? then [Blockquote(Contents(ls))]
      else if ls[0].ItemLine? then [List(Contents(ls))]
      else [Paragraph(Contents(ls))]
    case FencePart(lang, _, code, _) => [Code(lang, code)]
  }

  function DocBlocks(parts: seq<Part>): seq<Block>
    requires DocOk(parts)
  {
    if parts == [] then [] else BlocksOf(parts[0]) + DocBlocks(parts[1..])
  }

  // ---- rendering a part ----------------------------------------------------------------------

  function TagOf(l: Line): Tag
    requires l.QuoteLine? || l.ItemLine? || l.TextLine?
  {
    if l.QuoteLine? then QuoteTag else if l.ItemLine? then ItemTag else TextTag
  }

  /** The text that follows does not go on with the run. */
  predicate Stops(rest: seq<string>, tag: Tag) { rest == [] || !Has(rest[0], tag) }

  lemma {:induction false} RunOfLines(ls: seq<Line>, tag: Tag, rest: seq<string>)
    requires forall i :: 0 <= i < |ls| ==>
      ls[i].Ok() && (ls[i].QuoteLine? || ls[i].ItemLine? || ls[i].TextLine?) && TagOf(ls[i]) == tag
    requires Stops(rest, tag)
    ensures RunTexts(LineTexts(ls) + rest, tag) == Contents(ls)
    ensures |Contents(ls)| == |ls|
  {
    if ls == [] {
      assert LineTexts(ls) + rest == rest;
    } else {
      LineReadsBack(ls[0]);
      ConsThenRest(ls[0].Text(), LineTexts(ls[1..]), rest);
      RunOfLines(ls[1..], tag, rest);
    }
  }

  lemma DropLines(a: seq<string>, rest: seq<string>)
    ensures (a + rest)[|a|..] == rest
  {}

  lemma GroupRun(lines: seq<string>, tag: Tag)
    requires lines != [] && Has(lines[0], tag)
    ensures Group(lines) == Collected(tag, [TextOf(lines[0], tag)], lines[1..])
  {}

  lemma RunStarts(l: Line, tail: seq<string>)
    requires l.Ok() && (l.QuoteLine? || l.ItemLine? || l.TextLine?)
    ensures Group([l.Text()] + tail) == Collected(TagOf(l), [l.text], tail)
  {
    LineReadsBack(l);
    GroupRun([l.Text()] + tail, TagOf(l));
    TailOf(l.Text(), tail);
  }

  lemma TailOf(line: string, tail: seq<string>)
    ensures ([line] + tail)[0] == line && ([line] + tail)[1..] == tail
  {}

  lemma RunCollected(tag: Tag, t: string, ls: seq<string>, rest: seq<string>, texts: seq<string>)
    requires RunTexts(ls + rest, tag) == texts && |texts| == |ls|
    ensures Collected(tag, [t], ls + rest) == [BlockOf(tag, [t] + texts)] + Group(rest)
  {
    DropLines(ls, rest);
  }

  lemma RenderRun(ls: seq<Line>, rest: seq<string>)
    requires PartOk(RunPart(ls)) && Stops(rest, TagOf(ls[0]))
    ensures Group(LineTexts(ls) + rest) == BlocksOf(RunPart(ls)) + Group(rest)
  {
    var tag := TagOf(ls[0]);
    RunOfLines(ls[1..], tag, rest);
    RunCollected(tag, ls[0].text, LineTexts(ls[1..]), rest, Contents(ls[1..]));
    RunStarts(ls[0], LineTexts(ls[1..]) + rest);
    Assoc([ls[0].Text()], LineTexts(ls[1..]), rest);
  }

  lemma {:induction false} TrimEndIsPrefix(s: string)
    ensures TrimEnd(s) <= s
  {
    if s != "" && IsSpace(s[|s| - 1]) { TrimEndIsPrefix(s[..|s| - 1]); }
  }

  lemma PrefixOfPrefix(a: string, b: string, c: string)
    requires b <= c
    ensures a <= b ==> a <= c
  {}

  lemma CodeIsNoFence(raw: string)
    requires !("```" <= raw)
    ensures !Classify(raw).Fence?
  {
    TrimEndIsPrefix(raw);
    PrefixOfPrefix("```", TrimEnd(raw), raw);
  }

  lemma {:induction false} FenceAfterCode(code: seq<string>, close: string, rest: seq<string>)
    requires CodeOk(code) && Classify(close).Fence?
    ensures FenceAt(code + ([close] + rest)) == |code|
  {
    if code == [] {
      assert code + ([close] + rest) == [close] + rest;
    } else {
      CodeIsNoFence(code[0]);
      assert (code + ([close] + rest))[1..] == code[1..] + ([close] + rest);
      FenceAfterCode(code[1..], close, rest);
    }
  }

  lemma CutCode(code: seq<string>, close: string, rest: seq<string>)
    ensures var lines := code + ([close] + rest);
      lines[..|code|] == code && lines[|code| + 1..] == rest
  {}

  lemma RenderFence(p: Part, rest: seq<string>)
    requires p.FencePart? && PartOk(p)
    ensures Group(PartTexts(p) + rest) == [Code(p.lang, p.code)] + Group(rest)
  {
    var open, close := "```" + p.lang + p.pad, "```" + p.closePad;
    var tail := p.code + ([close] + rest);
    FenceReadsBack(p.lang, p.pad);
    FenceReadsBack("", p.closePad);
    assert "```" + "" + p.closePad == close;
    assert PartTexts(p) + rest == [open] + tail;
    FenceAfterCode(p.code, close, rest);
    CutCode(p.code, close, rest);
    FencedFromStart(p.lang, tail);
    assert ([open] + tail)[1..] == tail;
  }

  lemma RenderLone(l: Line, rest: seq<string>)
    requires PartOk(LonePart(l))
    ensures Group([l.Text()] + rest) == BlocksOf(LonePart(l)) + Group(rest)
  {
    LineReadsBack(l);
    assert ([l.Text()] + rest)[1..] == rest;
    if l.BlankLine? { assert [] + Group(rest) == Group(rest); }
  }

  lemma RenderPart(p: Part, rest: seq<string>)
    requires PartOk(p) && (p.RunPart? ==> Stops(rest, TagOf(p.lines[0])))
    ensures Group(PartTexts(p) + rest) == BlocksOf(p) + Group(rest)
  {
    match p
    case LonePart(l) => RenderLone(l, rest);
    case RunPart(ls) => RenderRun(ls, rest);
    case FencePart(_, _, _, _) => RenderFence(p, rest);
  }

  /** What starts with another part, or ends, does not go on with a run of this kind. */
  lemma PartStops(p: Part, rest: seq<string>, tag: Tag)
    requires PartOk(p) && (p.RunPart? ==> TagOf(p.lines[0]) != tag)
    ensures Stops(PartTexts(p) + rest, tag)
  {
    match p
    case LonePart(l) => LineReadsBack(l);
    case RunPart(ls) =>
      LineReadsBack(ls[0]);
      assert (LineTexts(ls) + rest)[0] == ls[0].Text();
    case FencePart(lang, pad, _, _) => FenceReadsBack(lang, pad);
  }

  /** How a document may end: after its last line, or inside a fence that is never closed. */
  datatype Ending = AtLineEnd | InFence(lang: string, code: seq<string>)

  function EndingTexts(e: Ending): seq<string> {
    match e case AtLineEnd => [""] case InFence(lang, code) => ["```" + lang] + code
  }

  /** An unclosed fence loses its language. */
  function EndingBlocks(e: Ending): seq<Block> {
    match e case AtLineEnd => [] case InFence(_, code) => [Code("", code)]
  }

  predicate EndingOk(e: Ending) { e.InFence? ==> Word(e.lang) && CodeOk(e.code) }

  lemma {:induction false} NoFenceInCode(code: seq<string>)
    requires CodeOk(code)
    ensures FenceAt(code) == |code|
  {
    if code != [] {
      CodeIsNoFence(code[0]);
      NoFenceInCode(code[1..]);
    }
  }

  lemma RenderEnding(e: Ending, tag: Tag)
    requires EndingOk(e)
    ensures Group(EndingTexts(e)) == EndingBlocks(e) && Stops(EndingTexts(e), tag)
  {
    match e
    case AtLineEnd =>
      assert Classify("").Blank? && [""][1..] == [];
    case InFence(lang, code) =>
      FenceReadsBack(lang, "");
      assert "```" + lang + "" == "```" + lang;
      assert (["```" + lang] + code)[1..] == code;
      NoFenceInCode(code);
      FencedFromStart(lang, code);
      assert code[..|code|] == code;
  }

  /** Rendering a printed document gives back exactly its blocks. */
  lemma {:induction false} LinesRenderBack(parts: seq<Part>, e: Ending)
    requires DocOk(parts) && EndingOk(e)
    ensures Group(PrintDoc(parts) + EndingTexts(e)) == DocBlocks(parts) + EndingBlocks(e)
  {
    if parts == [] {
      RenderEnding(e, TextTag);
      assert [] + EndingTexts(e) == EndingTexts(e) && [] + EndingBlocks(e) == EndingBlocks(e);
    } else {
      var p, rest := parts[0], PrintDoc(parts[1..]) + EndingTexts(e);
      LinesRenderBack(parts[1..], e);
      Assoc(PartTexts(p), PrintDoc(parts[1..]), EndingTexts(e));
      if p.RunPart? { NextStops(parts, e); }
      RenderPart(p, rest);
      Assoc(BlocksOf(p), DocBlocks(parts[1..]), EndingBlocks(e));
    }
  }

  lemma NextStops(parts: seq<Part>, e: Ending)
    requires DocOk(parts) && EndingOk(e) && parts != [] && parts[0].RunPart?
    ensures Stops(PrintDoc(parts[1..]) + EndingTexts(e), TagOf(parts[0].lines[0]))
  {
    var tag := TagOf(parts[0].lines[0]);
    if |parts| == 1 {
      RenderEnding(e, tag);
      assert PrintDoc([]) + EndingTexts(e) == EndingTexts(e);
    } else {
      Assoc(PartTexts(parts[1]), PrintDoc(parts[1..][1..]), EndingTexts(e));
      PartStops(parts[1], PrintDoc(parts[1..][1..]) + EndingTexts(e), tag);
    }
  }

  // ---- printed text ------------------------------------------------------------------------------

  lemma PadNoEol(a: string, pad: Pad)
    requires NoEol(a)
    ensures NoEol(a + pad)
  {
    assert forall c :: c in pad ==> c != '\n' && c != '\r';
    assert forall c :: c in a + pad ==> c in a || c in pad;
    if pad != "" { assert pad[|pad| - 1] in pad; } else { assert a + pad == a; }
  }

  lemma AppendNoEol(a: string, b: string)
    requires NoEol(a) && NoEol(b)
    ensures NoEol(a + b)
  {
    assert forall c :: c in a + b ==> c in a || c in b;
    if b == "" { assert a + b == a; }
  }

  lemma DotsNoEol(t: string)
    requires Dots(t)
    ensures NoEol(t)
  {
    if t != "" { assert t[|t| - 1] in t; }
  }

  lemma LineNoEol(l: Line)
    requires l.Ok()
    ensures NoEol(l.Text())
  {
    PadNoEol("", l.pad);
    assert "" + l.pad == l.pad;
    match l {
      case HeadingLine(level, gap, text, pad) =>
        DotsNoEol(text);
        PadNoEol("", gap);
        assert "" + gap == gap;
        AppendNoEol(gap, text);
        AppendNoEol(Repeat('#', level), gap + text);
        PadNoEol(Repeat('#', level) + (gap + text), pad);
      case RuleLine(indent, mark, n, pad) =>
        PadNoEol("", indent);
        assert "" + indent == indent;
        AppendNoEol(indent, Repeat(mark, n));
        PadNoEol(indent + Repeat(mark, n), pad);
      case QuoteLine(spaced, text, pad) =>
        DotsNoEol(text);
        AppendNoEol(">" + (if spaced then " " else ""), text);
        PadNoEol(">" + (if spaced then " " else "") + text, pad);
      case ItemLine(indent, marker, gap, text, pad) =>
        DotsNoEol(text);
        PadNoEol("", indent);
        PadNoEol("", gap);
        assert "" + indent == indent && "" + gap == gap;
        AppendNoEol(gap, text);
        AppendNoEol([marker], gap + text);
        AppendNoEol(indent, [marker] + (gap + text));
        PadNoEol(indent + ([marker] + (gap + text)), pad);
      case TextLine(indent, text, pad) =>
        DotsNoEol(text);
        PadNoEol("", indent);
        assert "" + indent == indent;
        AppendNoEol(indent, text);
        PadNoEol(indent + text, pad);
      case BlankLine(_) =>
    }
  }

  predicate AllNoEol(lines: seq<string>) { forall i :: 0 <= i < |lines| ==> NoEol(lines[i]) }

  lemma {:induction false} LinesNoEol(ls: seq<Line>)
    requires forall i :: 0 <= i < |ls| ==> ls[i].Ok()
    ensures AllNoEol(LineTexts(ls))
  {
    if ls != [] {
      LineNoEol(ls[0]);
      LinesNoEol(ls[1..]);
    }
  }

  lemma FenceNoEol(lang: string, pad: Pad)
    requires Word(lang)
    ensures NoEol("```" + lang + pad)
  {
    assert forall c :: c in lang ==> c != '\n' && c != '\r';
    if lang != "" { assert lang[|lang| - 1] in lang; }
    AppendNoEol("```", lang);
    PadNoEol("```" + lang, pad);
  }

  lemma PartNoEol(p: Part)
    requires PartOk(p)
    ensures AllNoEol(PartTexts(p))
  {
    match p
    case LonePart(l) => LineNoEol(l);
    case RunPart(ls) => LinesNoEol(ls);
    case FencePart(lang, pad, code, closePad) =>
      FenceNoEol(lang, pad);
      PadNoEol("```", closePad);
  }

  lemma {:induction false} DocNoEol(parts: seq<Part>)
    requires DocOk(parts)
    ensures AllNoEol(PrintDoc(parts))
  {
    if parts != [] {
      PartNoEol(parts[0]);
      DocNoEol(parts[1..]);
    }
  }

  lemma EndingNoEol(e: Ending)
    requires EndingOk(e)
    ensures AllNoEol(EndingTexts(e))
  {
    if e.InFence? {
      FenceNoEol(e.lang, "");
      assert "```" + e.lang + "" == "```" + e.lang;
    }
  }

  /** Any document of headings, rules, quotes, lists, paragraphs, fences and blank lines, printed with LF or CRLF and
      with spaces or tabs where they do not matter, renders back to exactly its blocks. */
  lemma RoundTrip(parts: seq<Part>, e: Ending, eol: Eol)
    requires DocOk(parts) && EndingOk(e)
    ensures Group(Lines(LfOrCrLf, Terminated(PrintDoc(parts), eol) + JoinedBy(EndingTexts(e), eol)))
      == DocBlocks(parts) + EndingBlocks(e)
  {
    DocNoEol(parts);
    EndingNoEol(e);
    SplitTerminated(PrintDoc(parts), eol, JoinedBy(EndingTexts(e), eol));
    SplitJoined(EndingTexts(e), eol);
    LinesRenderBack(parts, e);
  }
}
