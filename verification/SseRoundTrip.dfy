/** Printing payloads as an event stream and parsing them back, and the agreement of the two parsers.
    The format is that of sections 9.2.5 and 9.2.6 of the WHATWG HTML Living Standard, with LF and CRLF line ends. */
module SseRoundTrip {
  import opened Sse
  import opened Text
  import opened Wrappers

  /** One printed line: a data line, with or without a space behind the colon, or any other field or comment line. */
  datatype Item = Data(value: string, spaced: bool, eol: Eol) | Other(text: string, eol: Eol) {
    function Text(): string { if Data? then "data:" + ((if spaced then " " else "") + value) else text }
  }

  predicate ItemOk(i: Item) {
    && NoEol(i.Text()) && i.Text() != "" && (i.Other? ==> !("data:" <= i.text))
    && (i.Data? && !i.spaced && i.value != "" ==> i.value[0] != ' ')
  }

  type Line = i: Item | ItemOk(i) witness Other(":", Lf)

  /** A frame: at least one line, then a blank line. */
  datatype Printed = Printed(items: seq<Line>, blank: Eol)

  type Frame = p: Printed | p.items != [] witness Printed([Other(":", Lf)], Lf)

  /** The lines of a frame without the last line end. */
  function Body(items: seq<Line>): string
    requires items != []
  {
    if |items| == 1 then items[0].Text()
    else items[0].Text() + (items[0].eol.Text() + Body(items[1..]))
  }

  function PrintFrame(p: Frame): string
  {
    Body(p.items) + (p.items[|p.items| - 1].eol.Text() + p.blank.Text())
  }

  function Print(ps: seq<Frame>): string
  {
    if ps == [] then "" else PrintFrame(ps[0]) + Print(ps[1..])
  }

  function DataOf(items: seq<Line>): seq<string> {
    if items == [] then []
    else (if items[0].Data? then [items[0].value] else []) + DataOf(items[1..])
  }

  function JoinLines(lines: seq<string>): string {
    if lines == [] then "" else if |lines| == 1 then lines[0] else lines[0] + "\n" + JoinLines(lines[1..])
  }

  /** The payloads that were printed: one per frame that has data lines. */
  function Sent(ps: seq<Frame>): seq<string> {
    if ps == [] then []
    else (if DataOf(ps[0].items) != [] then [JoinLines(DataOf(ps[0].items))] else []) + Sent(ps[1..])
  }

  // ---- finding the frame ---------------------------------------------------

  /** No separator starts inside text without line ends. */
  lemma {:induction false} SkipText(k: Framing, t: string, x: string)
    requires NoEol(t)
    ensures FindBreak(k, t + x) ==
      var b := FindBreak(k, x);
      if b.None? then None else Some(Break(|t| + b.value.start, b.value.len))
  {
    if t == [] {
      assert t + x == x;
    } else {
      assert (t + x)[1..] == t[1..] + x;
      SkipText(k, t[1..], x);
    }
  }

  /** A line end followed by a line that is not empty is not a separator. */
  lemma SkipEol(e: Eol, x: string)
    requires x != [] && EolLen(LfOrCrLf, x) == 0
    ensures FindBreak(BlankLine, e.Text() + x) ==
      var b := FindBreak(BlankLine, x);
      if b.None? then None else Some(Break(|e.Text()| + b.value.start, b.value.len))
  {
    var s := e.Text() + x;
    assert EolLen(LfOrCrLf, s) == |e.Text()| && s[|e.Text()|..] == x;
    assert ("\n" + x)[1..] == x;
    assert EolLen(LfOrCrLf, "\n" + x) == 1;
    if e.CrLf? {
      assert s[1..] == "\n" + x;
    }
  }

  lemma EolsBreak(e: Eol, f: Eol, z: string)
    ensures FindBreak(BlankLine, (e.Text() + f.Text()) + z) == Some(Break(0, |e.Text() + f.Text()|))
  {
    var s := (e.Text() + f.Text()) + z;
    assert EolLen(LfOrCrLf, s) == |e.Text()|;
    Assoc(e.Text(), f.Text(), z);
    assert s[|e.Text()|..] == f.Text() + z;
    assert EolLen(LfOrCrLf, f.Text() + z) == |f.Text()|;
  }

  lemma NoEolFirst(t: string, x: string)
    requires NoEol(t) && t != ""
    ensures EolLen(LfOrCrLf, t + x) == 0
  {
    assert t[0] in t && (t + x)[0] == t[0];
    if |t| > 1 { assert t[1] in t && (t + x)[1] == t[1]; }
  }

  lemma FirstLine(items: seq<Line>, x: string)
    requires items != []
    ensures Body(items) + x != [] && EolLen(LfOrCrLf, Body(items) + x) == 0
  {
    var t := items[0].Text();
    if |items| == 1 {
      NoEolFirst(t, x);
    } else {
      var more := items[0].eol.Text() + Body(items[1..]);
      NoEolFirst(t, more + x);
      Assoc(t, more, x);
    }
  }

  /** The first separator of a frame body followed by a separator is that separator. */
  lemma {:induction false} BodyEnds(items: seq<Line>, w: string, n: nat)
    requires items != [] && FindBreak(BlankLine, w) == Some(Break(0, n))
    ensures FindBreak(BlankLine, Body(items) + w) == Some(Break(|Body(items)|, n))
  {
    if |items| == 1 {
      SkipText(BlankLine, items[0].Text(), w);
    } else {
      var x := Body(items[1..]) + w;
      BodyEnds(items[1..], w, n);
      FirstLine(items[1..], w);
      SkipEol(items[0].eol, x);
      SkipText(BlankLine, items[0].Text(), items[0].eol.Text() + x);
      Regroup(items[0].Text(), items[0].eol.Text(), Body(items[1..]), w);
    }
  }

  lemma CutFrame(body: string, sep: string, z: string)
    requires FindBreak(BlankLine, body + (sep + z)) == Some(Break(|body|, |sep|))
    ensures Frames(BlankLine, body + (sep + z)) == FrameThen(body, Frames(BlankLine, z))
  {
    Cut(body, sep, z);
    FramesUnfold(BlankLine, body + (sep + z), Break(|body|, |sep|));
  }

  lemma Cut(a: string, b: string, c: string)
    ensures var s, at := a + (b + c), Break(|a|, |b|);
      Before(s, at) == a && After(s, at) == c
  {}

  lemma FrameOfPrint(p: Frame, z: string)
    ensures Frames(BlankLine, PrintFrame(p) + z) == FrameThen(Body(p.items), Frames(BlankLine, z))
  {
    var e, f := p.items[|p.items| - 1].eol, p.blank;
    var sep := e.Text() + f.Text();
    EolsBreak(e, f, z);
    BodyEnds(p.items, sep + z, |sep|);
    CutFrame(Body(p.items), sep, z);
    Assoc(Body(p.items), sep, z);
  }

  lemma {:induction false} FramesOfPrint(ps: seq<Frame>)
    ensures var f := Frames(BlankLine, Print(ps));
      |f.frames| == |ps| && f.rest == "" && forall i :: 0 <= i < |ps| ==> f.frames[i] == Body(ps[i].items)
  {
    if ps == [] {
    } else {
      FramesOfPrint(ps[1..]);
      FrameOfPrint(ps[0], Print(ps[1..]));
    }
  }

  // ---- reading the frame ----------------------------------------------------

  function Texts(items: seq<Line>): seq<string> {
    if items == [] then [] else [items[0].Text()] + Texts(items[1..])
  }

  lemma {:induction false} LinesOfBody(items: seq<Line>)
    requires items != []
    ensures Lines(LfOrCrLf, Body(items)) == Texts(items)
  {
    assert ItemOk(items[0]);
    if |items| == 1 {
      LineOfText(items[0].Text());
    } else {
      LinesOfBody(items[1..]);
      LineThenRest(items[0].Text(), items[0].eol, Body(items[1..]));
    }
  }

  /** The data values are the printed ones, up to the one space the printer may have put in front. */
  lemma {:induction false} ValuesOfTexts(items: seq<Line>)
    ensures |DataValues(Texts(items))| == |DataOf(items)|
    ensures forall i :: 0 <= i < |DataOf(items)| ==> StripSpace(DataValues(Texts(items))[i]) == DataOf(items)[i]
  {
    if items != [] {
      ValuesOfTexts(items[1..]);
      TextsFirst(items);
      if items[0].Data? {
        DataText(items[0]);
      }
    }
  }

  lemma TextsFirst(items: seq<Line>)
    requires items != []
    ensures Texts(items)[0] == items[0].Text() && Texts(items)[1..] == Texts(items[1..])
  {}

  lemma DataText(i: Line)
    requires i.Data?
    ensures DATA <= i.Text() && StripSpace(i.Text()[|DATA|..]) == i.value
  {
    var v := (if i.spaced then " " else "") + i.value;
    assert i.Text()[|DATA|..] == v;
    if i.spaced { assert v[1..] == i.value; } else { assert v == i.value; }
  }

  lemma {:induction false} JoinOfValues(values: seq<string>, lines: seq<string>)
    requires |values| == |lines| && forall i :: 0 <= i < |lines| ==> StripSpace(values[i]) == lines[i]
    ensures JoinStripped(values) == JoinLines(lines)
  {
    if values != [] {
      JoinOfValues(values[1..], lines[1..]);
    }
  }

  lemma PayloadOfBody(items: seq<Line>)
    requires items != []
    ensures Payload(BlankLine, Body(items)) ==
      if DataOf(items) == [] then None else Some(JoinLines(DataOf(items)))
  {
    LinesOfBody(items);
    ValuesOfTexts(items);
    JoinOfValues(DataValues(Texts(items)), DataOf(items));
  }

  lemma {:induction false} PayloadsOfBodies(ps: seq<Frame>, frames: seq<string>)
    requires |frames| == |ps| && forall i :: 0 <= i < |ps| ==> frames[i] == Body(ps[i].items)
    ensures Payloads(BlankLine, frames) == Sent(ps)
  {
    if ps != [] {
      PayloadOfBody(ps[0].items);
      PayloadsOfBodies(ps[1..], frames[1..]);
    }
  }

  /** Round trip: any printed frames, with LF or CRLF line ends and any comment lines, parse back to the payloads
      that were printed, with nothing left over. */
  lemma RoundTrip(ps: seq<Frame>)
    ensures Payloads(BlankLine, Frames(BlankLine, Print(ps)).frames) == Sent(ps)
    ensures Frames(BlankLine, Print(ps)).rest == ""
  {
    FramesOfPrint(ps);
    PayloadsOfBodies(ps, Frames(BlankLine, Print(ps)).frames);
  }

  // ---- the two parsers agree ----------------------------------------------------

  lemma {:induction false} SameBreaks(s: string)
    requires '\r' !in s
    ensures FindBreak(BlankLine, s) == FindBreak(DoubleLf, s)
  {
    var a := EolLen(LfOrCrLf, s);
    assert forall c :: c in s[a..] ==> c in s;
    assert BreakLen(BlankLine, s) == BreakLen(DoubleLf, s);
    if s != [] {
      assert forall c :: c in s[1..] ==> c in s;
      SameBreaks(s[1..]);
    }
  }

  lemma SameFirst(s: string, b: Break) returns (f: string, tail: string)
    requires '\r' !in s && FindBreak(BlankLine, s) == FindBreak(DoubleLf, s) == Some(b)
    ensures |tail| < |s| && '\r' !in tail && '\r' !in f
    ensures Frames(BlankLine, s) == FrameThen(f, Frames(BlankLine, tail))
    ensures Frames(DoubleLf, s) == FrameThen(f, Frames(DoubleLf, tail))
  {
    f, tail := Before(s, b), After(s, b);
    FramesUnfold(BlankLine, s, b);
    FramesUnfold(DoubleLf, s, b);
    NoCrAround(s, b);
  }

  /** On LF-only text both parsers cut the same frames. */
  lemma {:induction false} SameFrames(s: string)
    requires '\r' !in s
    ensures Frames(BlankLine, s) == Frames(DoubleLf, s)
    decreases |s|
  {
    SameBreaks(s);
    var b := FindBreak(BlankLine, s);
    if b.Some? {
      var f, tail := SameFirst(s, b.value);
      SameFrames(tail);
    }
  }

  lemma NoCrAround(s: string, b: Break)
    requires '\r' !in s && b.start + b.len <= |s|
    ensures '\r' !in Before(s, b) && '\r' !in After(s, b)
  {}

  lemma {:induction false} SameLines(s: string)
    requires '\r' !in s
    ensures Lines(LfOrCrLf, s) == Lines(LfOnly, s)
  {
    if s != [] {
      assert forall c :: c in s[1..] ==> c in s;
      SameLines(s[1..]);
    }
  }

  lemma TrimIgnoresSpace(s: string)
    ensures Trim(StripSpace(s)) == Trim(s)
  {}

  function Trims(payloads: seq<string>): seq<string> {
    if payloads == [] then [] else [Trim(payloads[0])] + Trims(payloads[1..])
  }

  function TrimSome(payload: Option<string>): Option<string> {
    if payload.None? then None else Some(Trim(payload.value))
  }

  /** On an LF-only frame with at most one data line both find a payload or neither does, and the event stream's
      payload is the other's up to surrounding whitespace. */
  lemma SamePayload(frame: string)
    requires '\r' !in frame && |DataValues(Lines(LfOrCrLf, frame))| <= 1
    ensures Payload(DoubleLf, frame) == TrimSome(Payload(BlankLine, frame))
  {
    SameLines(frame);
    var values := DataValues(Lines(LfOrCrLf, frame));
    if values != [] {
      TrimIgnoresSpace(values[0]);
    }
  }

  lemma {:induction false} SamePayloads(frames: seq<string>)
    requires forall f :: f in frames ==> '\r' !in f && |DataValues(Lines(LfOrCrLf, f))| <= 1
    ensures Payloads(DoubleLf, frames) == Trims(Payloads(BlankLine, frames))
  {
    if frames != [] {
      SamePayload(frames[0]);
      SamePayloads(frames[1..]);
      PayloadsFirst(BlankLine, frames);
      PayloadsFirst(DoubleLf, frames);
      TrimsFirst(Payload(BlankLine, frames[0]), Payloads(BlankLine, frames[1..]));
    }
  }

  function WithFirst(payload: Option<string>, rest: seq<string>): seq<string> {
    if payload.None? then rest else [payload.value] + rest
  }

  lemma PayloadsFirst(k: Framing, frames: seq<string>)
    requires frames != []
    ensures Payloads(k, frames) == WithFirst(Payload(k, frames[0]), Payloads(k, frames[1..]))
  {
    assert [] + Payloads(k, frames[1..]) == Payloads(k, frames[1..]);
  }

  lemma TrimsFirst(p: Option<string>, ps: seq<string>)
    ensures Trims(WithFirst(p, ps)) == WithFirst(TrimSome(p), Trims(ps))
  {
    if p.Some? { assert ([p.value] + ps)[1..] == ps; }
  }

  lemma {:induction false} FramesHaveNoCr(s: string)
    requires '\r' !in s
    ensures forall f :: f in Frames(DoubleLf, s).frames ==> '\r' !in f
    decreases |s|
  {
    SameBreaks(s);
    var b := FindBreak(DoubleLf, s);
    if b.Some? {
      var f, tail := SameFirst(s, b.value);
      FramesHaveNoCr(tail);
    }
  }

  /** On LF-only streams with at most one data line a frame, `openStream` finds the same
      payloads as `streamRunUpdates`, up to surrounding whitespace. */
  lemma ParsersAgree(text: string)
    requires '\r' !in text
    requires forall f :: f in Frames(BlankLine, text).frames ==> |DataValues(Lines(LfOrCrLf, f))| <= 1
    ensures Payloads(DoubleLf, Frames(DoubleLf, text).frames) ==
      Trims(Payloads(BlankLine, Frames(BlankLine, text).frames))
  {
    SameFrames(text);
    FramesHaveNoCr(text);
    SamePayloads(Frames(DoubleLf, text).frames);
  }

  // ---- what the event stream finds ----------------------------------------------------------

  /** The payloads that the event stream is to find: of each frame the first data line, trimmed. */
  function FirstSent(ps: seq<Frame>): seq<string> {
    if ps == [] then []
    else (if DataOf(ps[0].items) != [] then [Trim(DataOf(ps[0].items)[0])] else []) + FirstSent(ps[1..])
  }

  lemma EventPayload(items: seq<Line>)
    requires items != [] && '\r' !in Body(items)
    ensures Payload(DoubleLf, Body(items)) == if DataOf(items) == [] then None else Some(Trim(DataOf(items)[0]))
  {
    SameLines(Body(items));
    LinesOfBody(items);
    ValuesOfTexts(items);
    if DataOf(items) != [] {
      TrimIgnoresSpace(DataValues(Texts(items))[0]);
    }
  }

  lemma {:induction false} EventPayloads(ps: seq<Frame>, frames: seq<string>)
    requires |frames| == |ps| && forall i :: 0 <= i < |ps| ==> frames[i] == Body(ps[i].items) && '\r' !in frames[i]
    ensures Payloads(DoubleLf, frames) == FirstSent(ps)
  {
    if ps != [] {
      EventPayload(ps[0].items);
      EventPayloads(ps[1..], frames[1..]);
    }
  }

  /** On printed text without CR, `openStream` finds in each frame the first data line, trimmed, and no other. */
  lemma EventRoundTrip(ps: seq<Frame>)
    requires '\r' !in Print(ps)
    ensures Payloads(DoubleLf, Frames(DoubleLf, Print(ps)).frames) == FirstSent(ps)
  {
    var frames := Frames(BlankLine, Print(ps)).frames;
    FramesOfPrint(ps);
    SameFrames(Print(ps));
    FramesHaveNoCr(Print(ps));
    forall i | 0 <= i < |ps| ensures frames[i] == Body(ps[i].items) && '\r' !in frames[i] {
      assert frames[i] in Frames(DoubleLf, Print(ps)).frames;
    }
    EventPayloads(ps, frames);
  }
}
