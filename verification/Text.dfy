/** Line splitting and trimming as JavaScript's `split` and `trim` do them, shared by the parsers of this project. */
module Text {
  /** Which line breaks a parser splits at: \r?\n, or \n alone. */
  datatype Newlines = LfOrCrLf | LfOnly

  /** Length of the line break at the front of s, or 0. */
  function EolLen(k: Newlines, s: string): (n: nat)
    ensures n <= |s| && n <= 2
  {
    if |s| >= 1 && s[0] == '\n' then 1
    else if k.LfOrCrLf? && |s| >= 2 && s[0] == '\r' && s[1] == '\n' then 2
    else 0
  }

  function Lines(k: Newlines, s: string): (r: seq<string>)
    ensures |r| >= 1
    decreases |s|
  {
    if s == [] then [""]
    else if EolLen(k, s) > 0 then [""] + Lines(k, s[EolLen(k, s)..])
    else
      var r := Lines(k, s[1..]);
      [[s[0]] + r[0]] + r[1..]
  }

  predicate IsSpace(c: char) {
    || c == ' ' || '\t' <= c <= '\r' || c == '\U{A0}' || c == '\U{1680}' || '\U{2000}' <= c <= '\U{200A}'
    || c == '\U{2028}' || c == '\U{2029}' || c == '\U{202F}' || c == '\U{205F}' || c == '\U{3000}' || c == '\U{FEFF}'
  }

  function TrimStart(s: string): string { if s != [] && IsSpace(s[0]) then TrimStart(s[1..]) else s }

  function TrimEnd(s: string): string {
    if s != [] && IsSpace(s[|s| - 1]) then TrimEnd(s[..|s| - 1]) else s
  }

  function Trim(s: string): string { TrimEnd(TrimStart(s)) }

  // ---- printed lines -----------------------------------------------------------

  datatype Eol = Lf | CrLf {
    function Text(): string { if Lf? then "\n" else "\r\n" }
  }

  /** Text that splitting at line breaks leaves whole, whatever stands behind it; a lone \r is text. */
  predicate NoEol(s: string) { '\n' !in s && (s != "" ==> s[|s| - 1] != '\r') }

  lemma {:induction false} LineOfText(t: string)
    requires NoEol(t)
    ensures Lines(LfOrCrLf, t) == [t]
  {
    if t != [] {
      LineOfText(t[1..]);
      assert t[0] in t && [t[0]] + t[1..] == t;
    }
  }

  lemma {:induction false} LineThenRest(t: string, e: Eol, y: string)
    requires NoEol(t)
    ensures Lines(LfOrCrLf, t + (e.Text() + y)) == [t] + Lines(LfOrCrLf, y)
  {
    var s := t + (e.Text() + y);
    if t == [] {
      assert s == e.Text() + y;
      assert s[|e.Text()|..] == y;
    } else {
      assert s[1..] == t[1..] + (e.Text() + y);
      LineThenRest(t[1..], e, y);
      var r := Lines(LfOrCrLf, s[1..]);
      assert r[0] == t[1..] && r[1..] == Lines(LfOrCrLf, y);
      assert t[0] in t && [t[0]] + t[1..] == t;
    }
  }

  /** Every line with its line end. */
  function Terminated(lines: seq<string>, eol: Eol): string {
    if lines == [] then "" else lines[0] + (eol.Text() + Terminated(lines[1..], eol))
  }

  lemma {:induction false} SplitTerminated(lines: seq<string>, eol: Eol, rest: string)
    requires forall i :: 0 <= i < |lines| ==> NoEol(lines[i])
    ensures Lines(LfOrCrLf, Terminated(lines, eol) + rest) == lines + Lines(LfOrCrLf, rest)
  {
    if lines == [] {
      assert "" + rest == rest;
    } else {
      SplitTerminated(lines[1..], eol, rest);
      Regroup(lines[0], eol.Text(), Terminated(lines[1..], eol), rest);
      LineThenRest(lines[0], eol, Terminated(lines[1..], eol) + rest);
    }
  }

  /** Lines with a line end between them, and none behind the last. */
  function JoinedBy(lines: seq<string>, eol: Eol): string {
    if lines == [] then "" else if |lines| == 1 then lines[0]
    else lines[0] + (eol.Text() + JoinedBy(lines[1..], eol))
  }

  lemma {:induction false} SplitJoined(lines: seq<string>, eol: Eol)
    requires lines != [] && forall i :: 0 <= i < |lines| ==> NoEol(lines[i])
    ensures Lines(LfOrCrLf, JoinedBy(lines, eol)) == lines
  {
    if |lines| == 1 {
      LineOfText(lines[0]);
    } else {
      SplitJoined(lines[1..], eol);
      LineThenRest(lines[0], eol, JoinedBy(lines[1..], eol));
    }
  }

  // ---- trimming --------------------------------------------------------------------

  predicate AllSpace(s: string) { forall c :: c in s ==> IsSpace(c) }

  /** Text that trimming leaves alone. */
  predicate Solid(s: string) { s != "" ==> !IsSpace(s[0]) && !IsSpace(s[|s| - 1]) }

  lemma {:induction false} TrimStartDrops(pad: string, s: string)
    requires AllSpace(pad) && (s != "" ==> !IsSpace(s[0]))
    ensures TrimStart(pad + s) == s
  {
    if pad == "" {
      assert pad + s == s;
    } else {
      assert pad[0] in pad && (pad + s)[1..] == pad[1..] + s;
      TrimStartDrops(pad[1..], s);
    }
  }

  lemma {:induction false} TrimEndDrops(s: string, pad: string)
    requires AllSpace(pad) && (s != "" ==> !IsSpace(s[|s| - 1]))
    ensures TrimEnd(s + pad) == s
  {
    if pad == "" {
      assert s + pad == s;
    } else {
      assert pad[|pad| - 1] in pad && (s + pad)[..|s + pad| - 1] == s + pad[..|pad| - 1];
      TrimEndDrops(s, pad[..|pad| - 1]);
    }
  }

  /** Trimming takes the spaces around a text and nothing else. */
  lemma TrimExactly(before: string, s: string, after: string)
    requires AllSpace(before) && AllSpace(after) && Solid(s)
    ensures Trim(before + s + after) == s
  {
    if s == "" {
      assert before + s + after == before + after;
      assert AllSpace(before + after);
      TrimStartDrops(before + after, "");
      assert (before + after) + "" == before + after;
    } else {
      assert before + s + after == before + (s + after);
      TrimStartDrops(before, s + after);
      TrimEndDrops(s, after);
    }
  }

  // ---- concatenation -------------------------------------------------------------

  lemma Assoc<T>(a: seq<T>, b: seq<T>, c: seq<T>)
    ensures a + (b + c) == a + b + c
  {}

  lemma Regroup<T>(a: seq<T>, b: seq<T>, c: seq<T>, d: seq<T>)
    ensures a + (b + c) + d == a + (b + (c + d))
  {}

  lemma ConsThenRest<T>(a: T, b: seq<T>, c: seq<T>)
    ensures ([a] + b + c)[0] == a && ([a] + b + c)[1..] == b + c
  {}
}
