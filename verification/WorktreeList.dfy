/** parseWorktreeList of scripts/self-worktree.js: reading `git worktree list --porcelain`. */
module WorktreeList {
  import opened Text
  import opened Wrappers

  datatype Entry = Entry(path: string, branch: string, head: string)

  const WORKTREE := "worktree "
  const BRANCH := "branch "
  const HEAD := "HEAD "

  /** What the loop makes of the remaining lines, given the entry it is in. */
  function Parse(lines: seq<string>, current: Option<Entry>): seq<Entry> {
    if lines == [] then Closed(current)
    else
      var line := Trim(lines[0]);
      if line == "" then Closed(current) + Parse(lines[1..], None)
      else if WORKTREE <= line then Closed(current) + Parse(lines[1..], Some(Entry(line[|WORKTREE|..], "", "")))
      else Parse(lines[1..], if current.None? then None else Some(WithAttribute(current.value, line)))
  }

  function Closed(current: Option<Entry>): seq<Entry> { if current.Some? then [current.value] else [] }

  function WithAttribute(e: Entry, line: string): Entry {
    var f := if BRANCH <= line then e.(branch := line[|BRANCH|..]) else e;
    if HEAD <= line then f.(head := line[|HEAD|..]) else f
  }

  /** One round of the loop, seen from the entries already pushed. */
  lemma ParseStep(done: seq<Entry>, lines: seq<string>, i: nat, current: Option<Entry>)
    requires i < |lines|
    ensures var line := Trim(lines[i]);
      done + Parse(lines[i..], current) ==
        if line == "" then (done + Closed(current)) + Parse(lines[i + 1..], None)
        else if WORKTREE <= line
        then (done + Closed(current)) + Parse(lines[i + 1..], Some(Entry(line[|WORKTREE|..], "", "")))
        else done + Parse(lines[i + 1..], if current.None? then None else Some(WithAttribute(current.value, line)))
  {
    assert lines[i..][1..] == lines[i + 1..];
    var line := Trim(lines[i]);
    var next := if line == "" then Parse(lines[i + 1..], None)
                else if WORKTREE <= line then Parse(lines[i + 1..], Some(Entry(line[|WORKTREE|..], "", "")))
                else [];
    Assoc(done, Closed(current), next);
  }

  method ParseWorktreeList(output: string) returns (entries: seq<Entry>)
    ensures entries == Parse(Lines(LfOrCrLf, output), None)
  {
    entries := [];
    var current: Option<Entry> := None;
    var lines := Lines(LfOrCrLf, output);
    assert lines[0..] == lines;
    for i := 0 to |lines|
      invariant Parse(lines, None) == entries + Parse(lines[i..], current)
    {
      ParseStep(entries, lines, i, current);
      var line := Trim(lines[i]);
      if line == "" {
        entries, current := Push(entries, current), None;
        continue;
      }
      if WORKTREE <= line {
        entries, current := Push(entries, current), Some(Entry(line[|WORKTREE|..], "", ""));
        continue;
      }
      if current.None? { continue; }
      if BRANCH <= line { current := Some(current.value.(branch := line[|BRANCH|..])); }
      if HEAD <= line { current := Some(current.value.(head := line[|HEAD|..])); }
    }
    entries := Push(entries, current);
  }

  /** `if (current) entries.push(current)` */
  function Push(entries: seq<Entry>, current: Option<Entry>): (r: seq<Entry>)
    ensures r == entries + Closed(current)
  {
    if current.Some? then entries + [current.value] else entries
  }

  // ---- printing ------------------------------------------------------------------------

  predicate Trimmed(s: string) {
    s != "" && !IsSpace(s[0]) && !IsSpace(s[|s| - 1]) && NoEol(s)
  }

  datatype Attribute = Branch(name: string) | Head(hash: string) | Flag(text: string) {
    function Text(): string {
      match this case Branch(b) => "branch " + b case Head(h) => "HEAD " + h case Flag(t) => t
    }
    predicate Ok() {
      match this
      case Branch(b) => Trimmed(b)
      case Head(h) => Trimmed(h)
      case Flag(t) => Trimmed(t) && !(WORKTREE <= t) && !(BRANCH <= t) && !(HEAD <= t)
    }
    function On(e: Entry): Entry {
      match this case Branch(b) => e.(branch := b) case Head(h) => e.(head := h) case Flag(_) => e
    }
  }

  type Attr = a: Attribute | a.Ok() witness Flag("bare")

  /** A worktree as printed: its path, its attribute lines, and any number of blank lines after it. */
  datatype Porcelain = Porcelain(path: string, attrs: seq<Attr>, blanks: nat, eol: Eol)

  type Worktree = w: Porcelain | Trimmed(w.path) witness Porcelain("/", [], 1, Lf)

  function Attributed(e: Entry, attrs: seq<Attr>): Entry
    decreases |attrs|
  {
    if attrs == [] then e else Attributed(attrs[0].On(e), attrs[1..])
  }

  /** The entry that was printed; a missing branch or HEAD line leaves the field empty. */
  function EntryOf(w: Worktree): Entry { Attributed(Entry(w.path, "", ""), w.attrs) }

  function Entries(ws: seq<Worktree>): seq<Entry> {
    if ws == [] then [] else [EntryOf(ws[0])] + Entries(ws[1..])
  }

  function AttrTexts(attrs: seq<Attr>): seq<string> {
    if attrs == [] then [] else [attrs[0].Text()] + AttrTexts(attrs[1..])
  }

  function Blanks(n: nat): seq<string> { if n == 0 then [] else [""] + Blanks(n - 1) }

  function LinesOf(w: Worktree): seq<string> { ["worktree " + w.path] + AttrTexts(w.attrs) + Blanks(w.blanks) }

  function Print(ws: seq<Worktree>): string {
    if ws == [] then "" else Terminated(LinesOf(ws[0]), ws[0].eol) + Print(ws[1..])
  }

  // ---- round trip ------------------------------------------------------------------------

  lemma TrimNothing(s: string)
    requires s != "" && !IsSpace(s[0]) && !IsSpace(s[|s| - 1])
    ensures Trim(s) == s
  {}

  lemma TrimKeyword(k: string, v: string)
    requires k in [WORKTREE, BRANCH, HEAD] && Trimmed(v)
    ensures Trim(k + v) == k + v && (k + v)[|k|..] == v && k <= k + v && NoEol(k + v)
    ensures WORKTREE <= k + v <==> k == WORKTREE
    ensures BRANCH <= k + v <==> k == BRANCH
    ensures HEAD <= k + v <==> k == HEAD
  {
    assert (k + v)[0] == k[0] && (k + v)[|k + v| - 1] == v[|v| - 1];
    TrimNothing(k + v);
  }

  lemma {:induction false} ParseAttrs(attrs: seq<Attr>, rest: seq<string>, e: Entry)
    ensures Parse(AttrTexts(attrs) + rest, Some(e)) == Parse(rest, Some(Attributed(e, attrs)))
    decreases |attrs|
  {
    if attrs == [] {
      assert [] + rest == rest;
    } else {
      AttrsFirst(attrs, rest);
      AttributeLine(attrs[0], e);
      ParseAttrs(attrs[1..], rest, attrs[0].On(e));
    }
  }

  /** Attribute lines before the first worktree belong to nothing. */
  lemma {:induction false} LeadingAttrsIgnored(attrs: seq<Attr>, rest: seq<string>)
    ensures Parse(AttrTexts(attrs) + rest, None) == Parse(rest, None)
    decreases |attrs|
  {
    if attrs == [] {
      assert [] + rest == rest;
    } else {
      AttrsFirst(attrs, rest);
      AttributeLine(attrs[0], Entry("", "", ""));
      LeadingAttrsIgnored(attrs[1..], rest);
    }
  }

  lemma AttrsFirst(attrs: seq<Attr>, rest: seq<string>)
    requires attrs != []
    ensures var lines := AttrTexts(attrs) + rest;
      lines[0] == attrs[0].Text() && lines[1..] == AttrTexts(attrs[1..]) + rest
  {
    ConsThenRest(attrs[0].Text(), AttrTexts(attrs[1..]), rest);
  }

  lemma AttributeLine(a: Attr, e: Entry)
    ensures Trim(a.Text()) == a.Text() != "" && !(WORKTREE <= a.Text())
    ensures WithAttribute(e, a.Text()) == a.On(e)
    ensures NoEol(a.Text())
  {
    match a
    case Branch(b) => TrimKeyword(BRANCH, b);
    case Head(h) => TrimKeyword(HEAD, h);
    case Flag(t) => TrimNothing(t);
  }

  /** Blank lines close the current entry once. */
  lemma {:induction false} ParseBlanks(n: nat, rest: seq<string>, current: Option<Entry>)
    requires n > 0
    ensures Parse(Blanks(n) + rest, current) == Closed(current) + Parse(rest, None)
  {
    var lines := Blanks(n) + rest;
    assert lines[0] == "" && lines[1..] == Blanks(n - 1) + rest;
    if n == 1 {
      assert Blanks(0) + rest == rest;
    } else {
      ParseBlanks(n - 1, rest, None);
    }
  }

  /** Text that follows a complete worktree: the next one, or the end. */
  predicate StartsFresh(rest: seq<string>) {
    rest != [] && (Trim(rest[0]) == "" || WORKTREE <= Trim(rest[0]))
  }

  lemma FreshCloses(rest: seq<string>, e: Entry)
    requires StartsFresh(rest)
    ensures Parse(rest, Some(e)) == [e] + Parse(rest, None)
  {}

  lemma FirstLine(w: Worktree, rest: seq<string>)
    ensures var lines := LinesOf(w) + rest;
      lines[0] == WORKTREE + w.path && lines[1..] == AttrTexts(w.attrs) + (Blanks(w.blanks) + rest)
  {
    ConsThenRest(WORKTREE + w.path, AttrTexts(w.attrs), Blanks(w.blanks));
    ConsThenRest(WORKTREE + w.path, AttrTexts(w.attrs) + Blanks(w.blanks), rest);
    Assoc([WORKTREE + w.path], AttrTexts(w.attrs), Blanks(w.blanks));
    Assoc(AttrTexts(w.attrs), Blanks(w.blanks), rest);
  }

  /** The blank lines after a worktree, or the start of the next one, close its entry. */
  lemma ParseEnd(w: Worktree, rest: seq<string>)
    requires StartsFresh(rest)
    ensures Parse(Blanks(w.blanks) + rest, Some(EntryOf(w))) == [EntryOf(w)] + Parse(rest, None)
  {
    if w.blanks == 0 {
      assert Blanks(0) + rest == rest;
      FreshCloses(rest, EntryOf(w));
    } else {
      ParseBlanks(w.blanks, rest, Some(EntryOf(w)));
    }
  }

  lemma ParseFirstLine(path: string, lines: seq<string>, current: Option<Entry>)
    requires Trimmed(path) && lines != [] && lines[0] == WORKTREE + path
    ensures Parse(lines, current) == Closed(current) + Parse(lines[1..], Some(Entry(path, "", "")))
  {
    TrimKeyword(WORKTREE, path);
  }

  lemma ParseWorktree(w: Worktree, rest: seq<string>, current: Option<Entry>)
    requires StartsFresh(rest)
    ensures Parse(LinesOf(w) + rest, current) == Closed(current) + ([EntryOf(w)] + Parse(rest, None))
  {
    FirstLine(w, rest);
    ParseFirstLine(w.path, LinesOf(w) + rest, current);
    ParseAttrs(w.attrs, Blanks(w.blanks) + rest, Entry(w.path, "", ""));
    ParseEnd(w, rest);
  }

  lemma {:induction false} AttrTextsOk(attrs: seq<Attr>)
    ensures forall i :: 0 <= i < |AttrTexts(attrs)| ==> NoEol(AttrTexts(attrs)[i])
  {
    if attrs != [] {
      AttributeLine(attrs[0], Entry("", "", ""));
      AttrTextsOk(attrs[1..]);
    }
  }

  lemma {:induction false} BlanksOk(n: nat)
    ensures forall i :: 0 <= i < |Blanks(n)| ==> NoEol(Blanks(n)[i])
  {
    if n > 0 { BlanksOk(n - 1); }
  }

  lemma LinesOfOk(w: Worktree)
    ensures forall i :: 0 <= i < |LinesOf(w)| ==> NoEol(LinesOf(w)[i])
  {
    AttrTextsOk(w.attrs);
    BlanksOk(w.blanks);
    TrimKeyword(WORKTREE, w.path);
  }

  lemma SplitFirst(ws: seq<Worktree>)
    requires ws != []
    ensures Lines(LfOrCrLf, Print(ws)) == LinesOf(ws[0]) + Lines(LfOrCrLf, Print(ws[1..]))
  {
    LinesOfOk(ws[0]);
    SplitTerminated(LinesOf(ws[0]), ws[0].eol, Print(ws[1..]));
  }

  lemma PrintStartsFresh(ws: seq<Worktree>)
    ensures StartsFresh(Lines(LfOrCrLf, Print(ws)))
  {
    if ws != [] {
      SplitFirst(ws);
      TrimKeyword(WORKTREE, ws[0].path);
      assert Lines(LfOrCrLf, Print(ws))[0] == WORKTREE + ws[0].path;
    }
  }

  /** Any printed worktrees, with or without blank separators or a trailing blank line, with LF or CRLF, parse back to
      the same entries in order. */
  lemma {:induction false} RoundTrip(ws: seq<Worktree>)
    ensures Parse(Lines(LfOrCrLf, Print(ws)), None) == Entries(ws)
  {
    if ws == [] {
      assert Lines(LfOrCrLf, "") == [""];
    } else {
      RoundTrip(ws[1..]);
      SplitFirst(ws);
      PrintStartsFresh(ws[1..]);
      ParseWorktree(ws[0], Lines(LfOrCrLf, Print(ws[1..])), None);
    }
  }
}
