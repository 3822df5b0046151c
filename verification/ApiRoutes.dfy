/** The file-system route table and matcher of apps/admin-web/vite.config.ts. */
module ApiRoutes {
  import opened Wrappers

  /** A path segment of a route: fixed text or a named parameter. */
  datatype Seg = Static(text: string) | Param(name: string)

  /** A scanned route: its segments and the route file to load. */
  datatype Route = Route(segs: seq<Seg>, file: string)

  function SegOf(name: string): Seg {
    if |name| >= 2 && name[0] == '[' && name[|name| - 1] == ']' then Param(name[1..|name| - 1]) else Static(name)
  }

  function Params(segs: seq<Seg>): seq<string> {
    if segs == [] then [] else (if segs[0].Param? then [segs[0].name] else []) + Params(segs[1..])
  }

  function StaticCount(r: Route): int { |r.segs| - |Params(r.segs)| }

  /** Directory names are non-empty and hold no separator. */
  predicate NameOk(s: string) { s != "" && '/' !in s }

  ghost predicate RouteOk(r: Route) {
    forall i :: 0 <= i < |r.segs| ==> r.segs[i].Static? ==> NameOk(r.segs[i].text)
  }

  // ---- the pattern ---------------------------------------------------------------

  function Join(parts: seq<string>): string {
    if parts == [] then "" else if |parts| == 1 then parts[0] else parts[0] + "/" + Join(parts[1..])
  }

  /** The values a segment accepts: a parameter takes one or more characters other than '/'. */
  predicate Accepts(seg: Seg, value: string) {
    match seg
    case Static(text) => value == text
    case Param(_) => value != "" && '/' !in value
  }

  predicate Fits(r: Route, values: seq<string>) {
    |values| == |r.segs| && forall i :: 0 <= i < |values| ==> Accepts(r.segs[i], values[i])
  }

  const PREFIX := "/api/"

  /** The anchored regex: the path is the prefix and the '/'-joined values of the segments. */
  ghost predicate Matches(r: Route, path: string) {
    exists values :: Fits(r, values) && path == PREFIX + Join(values)
  }

  // ---- the path decides the values ---------------------------------------------------

  /** Splits at every '/'; the empty text has no part. */
  function Split(s: string): (r: seq<string>)
    ensures s != "" ==> r != []
  {
    if s == "" then []
    else if s[0] == '/' then [""] + (if s[1..] == "" then [""] else Split(s[1..]))
    else
      var r := Split(s[1..]);
      if r == [] then [[s[0]]] else [[s[0]] + r[0]] + r[1..]
  }

  lemma {:induction false} SplitPart(p: string)
    requires NameOk(p)
    ensures Split(p) == [p]
  {
    assert p[0] in p;
    if |p| > 1 {
      SplitPart(p[1..]);
      assert [p[0]] + p[1..] == p;
    } else {
      assert p[1..] == "" && p == [p[0]];
    }
  }

  lemma {:induction false} SplitFirst(p: string, rest: string)
    requires NameOk(p) && rest != ""
    ensures Split(p + ("/" + rest)) == [p] + Split(rest)
  {
    var s := p + ("/" + rest);
    assert p[0] in p;
    assert s[1..] == p[1..] + ("/" + rest);
    if |p| == 1 {
      assert s[1..] == "/" + rest && ("/" + rest)[1..] == rest;
      assert Split("/" + rest) == [""] + Split(rest);
      assert p == [s[0]] + "";
    } else {
      SplitFirst(p[1..], rest);
      assert p == [s[0]] + p[1..];
    }
  }

  lemma {:induction false} SplitJoin(parts: seq<string>)
    requires forall i :: 0 <= i < |parts| ==> NameOk(parts[i])
    ensures Split(Join(parts)) == parts
    ensures parts != [] ==> Join(parts) != ""
  {
    if parts == [] {
    } else if |parts| == 1 {
      SplitPart(parts[0]);
    } else {
      SplitJoin(parts[1..]);
      SplitFirst(parts[0], Join(parts[1..]));
      assert parts[0] + "/" + Join(parts[1..]) == parts[0] + ("/" + Join(parts[1..]));
    }
  }

  /** A route matches a path exactly when the path's own parts fit its segments; so all matching routes have the
      same segment count and capture the same values. */
  lemma MatchesExactly(r: Route, path: string)
    requires RouteOk(r)
    ensures Matches(r, path) <==>
      PREFIX <= path && Join(Split(path[|PREFIX|..])) == path[|PREFIX|..] && Fits(r, Split(path[|PREFIX|..]))
  {
    if Matches(r, path) {
      var values :| Fits(r, values) && path == PREFIX + Join(values);
      forall i | 0 <= i < |values| ensures NameOk(values[i]) {
        assert Accepts(r.segs[i], values[i]);
      }
      SplitJoin(values);
      assert path[|PREFIX|..] == Join(values);
    }
    if PREFIX <= path && Join(Split(path[|PREFIX|..])) == path[|PREFIX|..] && Fits(r, Split(path[|PREFIX|..])) {
      assert path == PREFIX + path[|PREFIX|..];
    }
  }

  /** All routes that match a path have the same segment count. */
  lemma MatchesHaveSameLength(r: Route, q: Route, path: string)
    requires RouteOk(r) && RouteOk(q) && Matches(r, path) && Matches(q, path)
    ensures |r.segs| == |q.segs|
  {
    MatchesExactly(r, path);
    MatchesExactly(q, path);
  }

  // ---- the sort -------------------------------------------------------------------------

  /** The specificity comparator. */
  function Compare(l: Route, r: Route): int {
    if StaticCount(l) != StaticCount(r) then StaticCount(r) - StaticCount(l)
    else if |l.segs| != |r.segs| then |r.segs| - |l.segs|
    else |Params(l.segs)| - |Params(r.segs)|
  }

  /** What a stable sort by the comparator delivers: `from[i]` is where the i-th result stood before. */
  ghost predicate SortedFrom(listed: seq<Route>, sorted: seq<Route>, from: seq<nat>) {
    && |sorted| == |listed| == |from|
    && (forall i :: 0 <= i < |from| ==> from[i] < |listed| && sorted[i] == listed[from[i]])
    && (forall k :: 0 <= k < |listed| ==> k in from)
    && (forall i, j :: 0 <= i < j < |from| ==>
          Compare(sorted[i], sorted[j]) < 0 || (Compare(sorted[i], sorted[j]) == 0 && from[i] < from[j]))
  }

  /** The second and third sort keys never separate two routes that match the same path. */
  lemma OnlyFirstKeyMatters(r: Route, q: Route, path: string)
    requires RouteOk(r) && RouteOk(q) && Matches(r, path) && Matches(q, path)
    ensures Compare(r, q) == StaticCount(q) - StaticCount(r)
  {
    MatchesHaveSameLength(r, q, path);
  }

  // ---- the match loop ---------------------------------------------------------------------

  /** The capture groups of a successful match. */
  function Match(r: Route, path: string): Option<seq<string>> {
    if PREFIX <= path && Join(Split(path[|PREFIX|..])) == path[|PREFIX|..] && Fits(r, Split(path[|PREFIX|..]))
    then Some(Split(path[|PREFIX|..])) else None
  }

  /** The params object: parameters are assigned left to right, so a repeated name keeps its last value. */
  function Captured(segs: seq<Seg>, values: seq<string>): map<string, string>
    requires |segs| == |values|
  {
    if segs == [] then map[]
    else
      var n := |segs| - 1;
      var m := Captured(segs[..n], values[..n]);
      if segs[n].Param? then m[segs[n].name := values[n]] else m
  }

  method AssignParams(segs: seq<Seg>, values: seq<string>) returns (params: map<string, string>)
    requires |segs| == |values|
    ensures params == Captured(segs, values)
  {
    params := map[];
    for i := 0 to |segs|
      invariant params == Captured(segs[..i], values[..i])
    {
      assert segs[..i + 1][..i] == segs[..i] && values[..i + 1][..i] == values[..i];
      if segs[i].Param? {
        params := params[segs[i].name := values[i]];
      }
    }
    assert segs[..|segs|] == segs && values[..|values|] == values;
  }

  /** The first-match loop over the sorted routes. */
  method FirstMatch(sorted: seq<Route>, path: string) returns (index: Option<nat>, params: map<string, string>)
    requires forall i :: 0 <= i < |sorted| ==> RouteOk(sorted[i])
    ensures index.None? ==> params == map[] && forall i :: 0 <= i < |sorted| ==> !Matches(sorted[i], path)
    ensures index.Some? ==> index.value < |sorted| && Matches(sorted[index.value], path)
    ensures index.Some? ==> forall i :: 0 <= i < index.value ==> !Matches(sorted[i], path)
    ensures index.Some? ==> Match(sorted[index.value], path).Some?
    ensures index.Some? ==> params == Captured(sorted[index.value].segs, Match(sorted[index.value], path).value)
  {
    params := map[];
    for i := 0 to |sorted|
      invariant forall j :: 0 <= j < i ==> !Matches(sorted[j], path)
    {
      MatchesExactly(sorted[i], path);
      var captured := Match(sorted[i], path);
      if captured.Some? {
        params := AssignParams(sorted[i].segs, captured.value);
        return Some(i), params;
      }
    }
    return None, params;
  }

  /** The first match after the sort has the most static segments of all matching routes, and is the first of those
      in listing order. */
  lemma FirstMatchIsMostSpecific(listed: seq<Route>, sorted: seq<Route>, from: seq<nat>, path: string, m: nat, k: nat)
    requires SortedFrom(listed, sorted, from) && m < |sorted| && k < |listed|
    requires forall i :: 0 <= i < |listed| ==> RouteOk(listed[i])
    requires Matches(sorted[m], path) && forall i :: 0 <= i < m ==> !Matches(sorted[i], path)
    requires Matches(listed[k], path)
    ensures StaticCount(sorted[m]) >= StaticCount(listed[k])
    ensures StaticCount(sorted[m]) == StaticCount(listed[k]) ==> from[m] <= k
  {
    assert k in from;
    var i :| 0 <= i < |from| && from[i] == k;
    OnlyFirstKeyMatters(sorted[m], listed[k], path);
  }

  /** Position i is the last one with its parameter's name. */
  ghost predicate LastUse(segs: seq<Seg>, i: int) {
    0 <= i < |segs| && segs[i].Param? && forall j :: i < j < |segs| ==> segs[j] != segs[i]
  }

  /** Each parameter holds the path segment at its position (its last position, if the name repeats), and there are
      no other parameters. */
  lemma {:induction false} ParamsAreSegments(segs: seq<Seg>, values: seq<string>)
    requires |segs| == |values|
    ensures forall i :: LastUse(segs, i) ==>
      segs[i].name in Captured(segs, values) && Captured(segs, values)[segs[i].name] == values[i]
    ensures forall n :: n in Captured(segs, values) ==> exists i :: 0 <= i < |segs| && segs[i] == Param(n)
  {
    if segs != [] {
      var n := |segs| - 1;
      ParamsAreSegments(segs[..n], values[..n]);
      forall x | x in Captured(segs, values) ensures exists i :: 0 <= i < |segs| && segs[i] == Param(x) {
        if segs[n] == Param(x) {
        } else {
          var i :| 0 <= i < n && segs[..n][i] == Param(x);
          assert segs[i] == Param(x);
        }
      }
      forall i | LastUse(segs, i)
        ensures segs[i].name in Captured(segs, values) && Captured(segs, values)[segs[i].name] == values[i]
      {
        if i < n {
          assert segs[..n][i] == segs[i] && values[..n][i] == values[i];
          assert segs[n] != segs[i] && LastUse(segs[..n], i);
        }
      }
    }
  }
}
