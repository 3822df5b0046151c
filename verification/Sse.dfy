/** The incremental server-sent-event parsers of HttpWsRunnerClient.ts.

    `streamRunUpdates` splits frames on the regex \r?\n\r?\n, joins all data lines and throws on malformed JSON;
    `openStream` splits on \n\n, takes the first data line and skips malformed JSON.  Text chunks are already
    decoded; `parses` stands for JSON.parse succeeding. */
module Sse {
  import opened Text
  import opened Wrappers

  /** How a parser cuts frames: at a blank line, or at two line feeds. */
  datatype Framing = BlankLine | DoubleLf {
    function Newlines(): Newlines { if BlankLine? then LfOrCrLf else LfOnly }
  }

  /** Length of the frame separator at the front of s, or 0. */
  function BreakLen(k: Framing, s: string): (n: nat)
    ensures n <= |s|
  {
    var a := EolLen(k.Newlines(), s);
    if a > 0 && EolLen(k.Newlines(), s[a..]) > 0 then a + EolLen(k.Newlines(), s[a..]) else 0
  }

  datatype Break = Break(start: nat, len: nat)

  /** The leftmost frame separator. */
  function FindBreak(k: Framing, s: string): (b: Option<Break>)
    ensures b.Some? ==> b.value.len > 0 && b.value.start + b.value.len <= |s|
  {
    if BreakLen(k, s) > 0 then Some(Break(0, BreakLen(k, s)))
    else if s == [] then None
    else
      var b := FindBreak(k, s[1..]);
      if b.None? then None else Some(Break(b.value.start + 1, b.value.len))
  }

  datatype Framed = Framed(frames: seq<string>, rest: string)

  /** One whole-text split into complete frames and an unfinished remainder. */
  function Frames(k: Framing, s: string): Framed
    decreases |s|
  {
    match FindBreak(k, s)
    case None => Framed([], s)
    case Some(b) => FrameThen(Before(s, b), Frames(k, After(s, b)))
  }

  function Before(s: string, b: Break): string
    requires b.start + b.len <= |s|
  {
    s[..b.start]
  }

  function After(s: string, b: Break): string
    requires b.start + b.len <= |s|
  {
    s[b.start + b.len..]
  }

  function FrameThen(first: string, tail: Framed): Framed { Framed([first] + tail.frames, tail.rest) }

  const DATA := "data:"

  function DataValues(lines: seq<string>): seq<string> {
    if lines == [] then []
    else (if DATA <= lines[0] then [lines[0][|DATA|..]] else []) + DataValues(lines[1..])
  }

  function StripSpace(s: string): string { if |s| > 0 && s[0] == ' ' then s[1..] else s }

  function JoinStripped(values: seq<string>): string {
    if values == [] then ""
    else if |values| == 1 then StripSpace(values[0])
    else StripSpace(values[0]) + "\n" + JoinStripped(values[1..])
  }

  /** The JSON text a frame carries, if any, for each of the two parsers. */
  function Payload(k: Framing, frame: string): Option<string> {
    var values := DataValues(Lines(k.Newlines(), frame));
    if values == [] then None
    else if k.BlankLine? then Some(JoinStripped(values))
    else Some(Trim(values[0]))
  }

  function Payloads(k: Framing, frames: seq<string>): seq<string> {
    if frames == [] then []
    else (if Payload(k, frames[0]).Some? then [Payload(k, frames[0]).value] else []) + Payloads(k, frames[1..])
  }

  datatype Outcome = Outcome(events: seq<string>, threw: bool)

  /** What a consumer sees of a payload list: the update stream throws at the first malformed payload, the event
      stream skips malformed ones. */
  function Consume(k: Framing, payloads: seq<string>, parses: string -> bool): Outcome {
    if payloads == [] then Outcome([], false)
    else if parses(payloads[0]) then
      var r := Consume(k, payloads[1..], parses);
      Outcome([payloads[0]] + r.events, r.threw)
    else if k.BlankLine? then Outcome([], true)
    else Consume(k, payloads[1..], parses)
  }

  /** Payload n is the first malformed one, or there is none and n is their number. */
  predicate FirstMalformed(payloads: seq<string>, parses: string -> bool, n: nat) {
    && n <= |payloads| && (n < |payloads| ==> !parses(payloads[n]))
    && forall i :: 0 <= i < n ==> parses(payloads[i])
  }

  function WellFormed(payloads: seq<string>, parses: string -> bool): seq<string> {
    if payloads == [] then []
    else WellFormed(payloads[..|payloads| - 1], parses) +
         (if parses(payloads[|payloads| - 1]) then [payloads[|payloads| - 1]] else [])
  }

  /** The update stream yields the payloads up to the first malformed one, at which it throws. */
  lemma {:induction false} UpdatesStopAtMalformed(payloads: seq<string>, parses: string -> bool, n: nat)
    requires FirstMalformed(payloads, parses, n)
    ensures Consume(BlankLine, payloads, parses) == Outcome(payloads[..n], n < |payloads|)
  {
    if n > 0 {
      assert parses(payloads[0]);
      UpdatesStopAtMalformed(payloads[1..], parses, n - 1);
      assert payloads[..n] == [payloads[0]] + payloads[1..][..n - 1];
    }
  }

  lemma {:induction false} SomeFirstMalformed(payloads: seq<string>, parses: string -> bool) returns (n: nat)
    ensures FirstMalformed(payloads, parses, n)
  {
    if payloads == [] || !parses(payloads[0]) {
      n := 0;
    } else {
      n := SomeFirstMalformed(payloads[1..], parses);
      n := n + 1;
    }
  }

  lemma {:induction false} WellFormedSplit(a: seq<string>, b: seq<string>, parses: string -> bool)
    ensures WellFormed(a + b, parses) == WellFormed(a, parses) + WellFormed(b, parses)
  {
    if b == [] {
      assert a + b == a && WellFormed(a, parses) + [] == WellFormed(a, parses);
    } else {
      var front, last := b[..|b| - 1], b[|b| - 1];
      WellFormedSplit(a, front, parses);
      assert (a + b)[..|a + b| - 1] == a + front && (a + b)[|a + b| - 1] == last;
      Assoc(WellFormed(a, parses), WellFormed(front, parses), if parses(last) then [last] else []);
    }
  }

  /** The event stream never throws; it yields exactly the well-formed payloads. */
  lemma {:induction false} EventsSkipMalformed(payloads: seq<string>, parses: string -> bool)
    ensures Consume(DoubleLf, payloads, parses) == Outcome(WellFormed(payloads, parses), false)
  {
    if payloads != [] {
      EventsSkipMalformed(payloads[1..], parses);
      WellFormedSplit([payloads[0]], payloads[1..], parses);
      assert [payloads[0]] + payloads[1..] == payloads;
      assert [payloads[0]][..0] == [] && [] + [payloads[0]] == [payloads[0]];
      assert [] + WellFormed(payloads[1..], parses) == WellFormed(payloads[1..], parses);
    }
  }

  /** The whole-text parse. */
  function ParseText(k: Framing, text: string, parses: string -> bool): Outcome {
    Consume(k, Payloads(k, Frames(k, text).frames), parses)
  }

  function Concat(chunks: seq<string>): string {
    if chunks == [] then "" else chunks[0] + Concat(chunks[1..])
  }

  // ---- chunking does not matter ----------------------------------------------

  lemma BreakStable(k: Framing, p: string, q: string)
    requires BreakLen(k, p) > 0
    ensures BreakLen(k, p + q) == BreakLen(k, p)
  {
    var a := EolLen(k.Newlines(), p);
    assert (p + q)[a..] == p[a..] + q;
  }

  /** A separator that more text completes starts so late that nothing after it is a separator yet. */
  lemma NoLaterBreak(k: Framing, p: string, q: string)
    requires BreakLen(k, p) == 0 && BreakLen(k, p + q) > 0 && p != []
    ensures FindBreak(k, p[1..]).None?
  {
    var a := EolLen(k.Newlines(), p + q);
    assert |p| <= 3;
    if |p| > a {
      assert (p + q)[a..] == p[a..] + q;
    }
    if |p| >= 2 {
      assert p[1..][1..] == p[2..];
      if |p| == 3 {
        assert p[2..][1..] == [];
      }
    }
  }

  /** The leftmost separator of a buffer stays the leftmost one, with the same length, when text is appended, even
      when a CR LF pair is split. */
  lemma {:induction false} FindStable(k: Framing, p: string, q: string)
    requires FindBreak(k, p).Some?
    ensures FindBreak(k, p + q) == FindBreak(k, p)
  {
    if BreakLen(k, p) > 0 {
      BreakStable(k, p, q);
    } else {
      assert (p + q)[1..] == p[1..] + q;
      if BreakLen(k, p + q) > 0 {
        NoLaterBreak(k, p, q);
      }
      FindStable(k, p[1..], q);
    }
  }

  /** Cutting the first frame off a buffer cuts it off the whole text still to come. */
  lemma FirstFrame(k: Framing, buf: string, more: string, b: Break)
    requires FindBreak(k, buf) == Some(b)
    ensures Frames(k, buf + more) == FrameThen(Before(buf, b), Frames(k, After(buf, b) + more))
  {
    FindStable(k, buf, more);
    FramesUnfold(k, buf + more, b);
    CutBuffer(buf, more, b);
  }

  lemma FramesUnfold(k: Framing, s: string, b: Break)
    requires FindBreak(k, s) == Some(b)
    ensures Frames(k, s) == FrameThen(Before(s, b), Frames(k, After(s, b)))
  {}

  lemma CutBuffer(buf: string, more: string, b: Break)
    requires b.start + b.len <= |buf|
    ensures Before(buf + more, b) == Before(buf, b) && After(buf + more, b) == After(buf, b) + more
  {}

  /** The frames of p followed by those of p's remainder with q behind it. */
  function SplitFrames(k: Framing, p: Framed, q: string): Framed {
    var r := Frames(k, p.rest + q);
    Framed(p.frames + r.frames, r.rest)
  }

  lemma SplitFramesCons(k: Framing, f: string, p: Framed, q: string)
    ensures SplitFrames(k, FrameThen(f, p), q) == FrameThen(f, SplitFrames(k, p, q))
  {
    Assoc([f], p.frames, Frames(k, p.rest + q).frames);
  }

  lemma SplitFramesNone(k: Framing, p: string, q: string)
    ensures SplitFrames(k, Framed([], p), q) == Frames(k, p + q)
  {
    assert [] + Frames(k, p + q).frames == Frames(k, p + q).frames;
  }

  lemma SplitStep(k: Framing, p: string, q: string, f: string, tail: string)
    requires Frames(k, p) == FrameThen(f, Frames(k, tail))
    requires Frames(k, p + q) == FrameThen(f, Frames(k, tail + q))
    requires Frames(k, tail + q) == SplitFrames(k, Frames(k, tail), q)
    ensures Frames(k, p + q) == SplitFrames(k, Frames(k, p), q)
  {
    SplitFramesCons(k, f, Frames(k, tail), q);
  }

  lemma FirstOf(k: Framing, p: string, q: string, b: Break) returns (f: string, tail: string)
    requires FindBreak(k, p) == Some(b)
    ensures |tail| < |p|
    ensures Frames(k, p) == FrameThen(f, Frames(k, tail))
    ensures Frames(k, p + q) == FrameThen(f, Frames(k, tail + q))
  {
    f, tail := Before(p, b), After(p, b);
    FirstFrame(k, p, q, b);
    FramesUnfold(k, p, b);
  }

  /** A text may be split anywhere: its frames are those of the first part, then those of what is left of it with the
      second part behind. */
  lemma {:induction false} FramesSplitAnywhere(k: Framing, p: string, q: string)
    ensures Frames(k, p + q) == SplitFrames(k, Frames(k, p), q)
    decreases |p|
  {
    var b := FindBreak(k, p);
    if b.None? {
      SplitFramesNone(k, p, q);
    } else {
      var f, tail := FirstOf(k, p, q, b.value);
      FramesSplitAnywhere(k, tail, q);
      SplitStep(k, p, q, f, tail);
    }
  }

  function Then(events: seq<string>, r: Outcome): Outcome { Outcome(events + r.events, r.threw) }

  function ConsumeFrames(k: Framing, frames: seq<string>, parses: string -> bool): Outcome {
    Consume(k, Payloads(k, frames), parses)
  }

  /** What consuming one more frame does. */
  lemma ConsumeFirst(k: Framing, frame: string, frames: seq<string>, parses: string -> bool)
    ensures var payload := Payload(k, frame);
      ConsumeFrames(k, [frame] + frames, parses) ==
        if payload.None? then ConsumeFrames(k, frames, parses)
        else if parses(payload.value) then Then([payload.value], ConsumeFrames(k, frames, parses))
        else if k.BlankLine? then Outcome([], true)
        else ConsumeFrames(k, frames, parses)
  {
    var payload, rest := Payload(k, frame), Payloads(k, frames);
    assert ([frame] + frames)[1..] == frames;
    if payload.Some? {
      assert Payloads(k, [frame] + frames) == [payload.value] + rest;
      assert ([payload.value] + rest)[1..] == rest;
    } else {
      assert [] + rest == rest;
    }
  }

  /** What the rest of the text means after the first frame of the buffer has been handled. */
  lemma NextFrame(k: Framing, buf: string, more: string, b: Break, parses: string -> bool)
    requires FindBreak(k, buf) == Some(b)
    ensures var payload := Payload(k, Before(buf, b));
      var rest := ParseText(k, After(buf, b) + more, parses);
      ParseText(k, buf + more, parses) ==
        if payload.None? then rest
        else if parses(payload.value) then Then([payload.value], rest)
        else if k.BlankLine? then Outcome([], true)
        else rest
  {
    FirstFrame(k, buf, more, b);
    ConsumeFirst(k, Before(buf, b), Frames(k, After(buf, b) + more).frames, parses);
  }

  /** One round of the inner loop, seen from the events already yielded. */
  lemma DrainStep(k: Framing, buf: string, more: string, b: Break, frame: string, rest: string, events: seq<string>,
                  parses: string -> bool)
    requires FindBreak(k, buf) == Some(b) && frame == Before(buf, b) && rest == After(buf, b)
    ensures var payload := Payload(k, frame);
      Pending(k, events, buf + more, parses) ==
        if payload.None? then Pending(k, events, rest + more, parses)
        else if parses(payload.value) then Pending(k, events + [payload.value], rest + more, parses)
        else if k.BlankLine? then Outcome(events, true)
        else Pending(k, events, rest + more, parses)
  {
    NextFrame(k, buf, more, b, parses);
    ThenFrame(k, events, Payload(k, frame), ParseText(k, rest + more, parses), parses);
  }

  lemma ThenFrame(k: Framing, events: seq<string>, payload: Option<string>, r: Outcome, parses: string -> bool)
    ensures payload.Some? ==> Then(events, Then([payload.value], r)) == Then(events + [payload.value], r)
    ensures Then(events, Outcome([], true)) == Outcome(events, true)
  {
    if payload.Some? { Assoc(events, [payload.value], r.events); }
    assert events + [] == events;
  }

  /** The text of the chunks from i on. */
  function Rest(chunks: seq<string>, i: nat): string
    requires i <= |chunks|
  {
    Concat(chunks[i..])
  }

  /** What the stream means when `events` have been yielded and `text` is still to be parsed. */
  function Pending(k: Framing, events: seq<string>, text: string, parses: string -> bool): Outcome {
    Then(events, ParseText(k, text, parses))
  }

  /** The buffered loops of both streams: for every chunking they yield, and throw, as one whole-text parse. */
  method Stream(k: Framing, chunks: seq<string>, parses: string -> bool) returns (events: seq<string>, threw: bool)
    ensures Outcome(events, threw) == ParseText(k, Concat(chunks), parses)
  {
    var buf := "";
    events, threw := [], false;
    ghost var whole := ParseText(k, Concat(chunks), parses);
    NothingYet(k, chunks, parses);
    for i := 0 to |chunks|
      invariant !threw && FindBreak(k, buf).None?
      invariant whole == Pending(k, events, buf + Rest(chunks, i), parses)
    {
      RestNext(chunks, i, buf);
      events, buf, threw := DrainBuffer(k, buf + chunks[i], events, parses, Rest(chunks, i + 1), whole);
      if threw { return; }
    }
    NothingLeft(k, buf, events, chunks, parses);
  }

  lemma NothingYet(k: Framing, chunks: seq<string>, parses: string -> bool)
    ensures ParseText(k, Concat(chunks), parses) == Pending(k, [], "" + Rest(chunks, 0), parses)
  {
    var whole := ParseText(k, Concat(chunks), parses);
    assert Then([], whole) == whole;
    assert chunks[0..] == chunks && "" + Concat(chunks) == Concat(chunks);
  }

  lemma RestNext(chunks: seq<string>, i: nat, buf: string)
    requires i < |chunks|
    ensures buf + Rest(chunks, i) == (buf + chunks[i]) + Rest(chunks, i + 1)
  {
    assert chunks[i..][1..] == chunks[i + 1..];
  }

  lemma NothingLeft(k: Framing, buf: string, events: seq<string>, chunks: seq<string>, parses: string -> bool)
    requires FindBreak(k, buf).None?
    ensures Pending(k, events, buf + Rest(chunks, |chunks|), parses) == Outcome(events, false)
  {
    assert chunks[|chunks|..] == [] && buf + "" == buf;
    assert events + [] == events;
  }

  /** The inner loop: handle every complete frame in the buffer. */
  method DrainBuffer(k: Framing, buf0: string, events0: seq<string>, parses: string -> bool,
                     ghost more: string, ghost whole: Outcome)
      returns (events: seq<string>, buf: string, threw: bool)
    requires whole == Pending(k, events0, buf0 + more, parses)
    ensures threw ==> whole == Outcome(events, true)
    ensures !threw ==> FindBreak(k, buf).None? && whole == Pending(k, events, buf + more, parses)
  {
    events, buf, threw := events0, buf0, false;
    var b := FindBreak(k, buf);
    while b.Some?
      invariant b == FindBreak(k, buf) && !threw
      invariant whole == Pending(k, events, buf + more, parses)
      decreases |buf|
    {
      var frame, rest := Before(buf, b.value), After(buf, b.value);
      DrainStep(k, buf, more, b.value, frame, rest, events, parses);
      var payload := Payload(k, frame);
      buf := rest;
      b := FindBreak(k, buf);
      if payload.None? { continue; }
      if !parses(payload.value) {
        if k.BlankLine? { return events, buf, true; }
        continue;
      }
      events := events + [payload.value];
    }
  }
}
