/** scanRoutes of apps/admin-web/vite.config.ts: the route table of a directory tree. */
module RouteScan {
  import opened ApiRoutes
  import opened Text
  import opened Wrappers

  datatype Entry = SubDir(name: string, entries: seq<Entry>) | File(name: string)

  predicate IsRouteFile(e: Entry) { e.File? && (e.name == "route.ts" || e.name == "route.js") }

  function SegsOf(parts: seq<string>): (r: seq<Seg>)
    ensures |r| == |parts|
  {
    seq(|parts|, i requires 0 <= i < |parts| => SegOf(parts[i]))
  }

  const API_DIR := "/src/app/api/"

  /** Backslashes become slashes. */
  function Slashed(s: string): (r: string)
    ensures r == "" <==> s == ""
  {
    if s == "" then "" else [if s[0] == '\\' then '/' else s[0]] + Slashed(s[1..])
  }

  /** The route of file `name` in the directory reached by these names.  The segments are the parts of the relative
      path, as it is printed, with slashes for backslashes, and split again. */
  function RouteOf(dirs: seq<string>, name: string): Route {
    var relPath := Slashed(Join(dirs));
    Route(SegsOf(Split(relPath)), API_DIR + (if relPath != "" then relPath + "/" else "") + name)
  }

  predicate NamesOk(dirs: seq<string>) { forall i :: 0 <= i < |dirs| ==> NameOk(dirs[i]) }

  lemma {:induction false} JoinLast(dirs: seq<string>, name: string)
    requires dirs != []
    ensures Join(dirs + [name]) == Join(dirs) + "/" + name
  {
    assert (dirs + [name])[1..] == dirs[1..] + [name];
    if |dirs| == 1 {
      assert dirs[1..] + [name] == [name];
    } else {
      JoinLast(dirs[1..], name);
      Regroup(dirs[0] + "/", Join(dirs[1..]), "/", name);
    }
  }

  lemma {:induction false} NothingSlashed(s: string)
    requires '\\' !in s
    ensures Slashed(s) == s
  {
    if s != "" {
      NothingSlashed(s[1..]);
      assert s[0] in s && [s[0]] + s[1..] == s;
    }
  }

  predicate NoBackslash(dirs: seq<string>) { forall i :: 0 <= i < |dirs| ==> '\\' !in dirs[i] }

  lemma {:induction false} JoinNoBackslash(dirs: seq<string>)
    ensures '\\' !in Join(dirs) <==> NoBackslash(dirs)
  {
    if |dirs| > 1 {
      JoinNoBackslash(dirs[1..]);
      assert forall i :: 0 < i < |dirs| ==> dirs[i] == dirs[1..][i - 1];
      assert NoBackslash(dirs) <==> '\\' !in dirs[0] && NoBackslash(dirs[1..]);
    }
  }

  /** One segment a directory, bracketed names being parameters, and the route file's own path. */
  lemma RouteOfDirs(dirs: seq<string>, name: string)
    requires NamesOk(dirs) && NoBackslash(dirs)
    ensures RouteOf(dirs, name).segs == SegsOf(dirs)
    ensures RouteOf(dirs, name).file == "/src/app/api/" + Join(dirs + [name])
    ensures RouteOk(RouteOf(dirs, name))
  {
    SplitJoin(dirs);
    JoinNoBackslash(dirs);
    NothingSlashed(Join(dirs));
    if dirs == [] {
      assert dirs + [name] == [name];
    } else {
      JoinLast(dirs, name);
      Assoc(API_DIR, Join(dirs) + "/", name);
    }
  }

  function Count(s: string, c: char): nat {
    if s == "" then 0 else (if s[0] == c then 1 else 0) + Count(s[1..], c)
  }

  lemma {:induction false} SplitCounts(s: string)
    ensures |Split(s)| == if s == "" then 0 else Count(s, '/') + 1
  {
    if s != "" { SplitCounts(s[1..]); }
  }

  lemma {:induction false} SlashedCounts(s: string)
    ensures Count(Slashed(s), '/') == Count(s, '/') + Count(s, '\\')
    ensures Count(s, '\\') == 0 <==> '\\' !in s
  {
    if s != "" {
      SlashedCounts(s[1..]);
      assert Slashed(s)[1..] == Slashed(s[1..]);
      assert s == [s[0]] + s[1..];
    }
  }

  /** A route has one segment a directory of its path if and only if no directory name holds a backslash (as one may
      on POSIX), and each backslash makes one segment more. */
  lemma OneSegmentADirectoryExactlyWhen(dirs: seq<string>, name: string)
    requires NamesOk(dirs)
    ensures |RouteOf(dirs, name).segs| == |dirs| + Count(Join(dirs), '\\')
    ensures |RouteOf(dirs, name).segs| == |dirs| <==> NoBackslash(dirs)
  {
    SplitJoin(dirs);
    SplitCounts(Join(dirs));
    SplitCounts(Slashed(Join(dirs)));
    SlashedCounts(Join(dirs));
    JoinNoBackslash(dirs);
  }

  /** The routes below a directory listing, in listing order. */
  function Scan(entries: seq<Entry>, dirs: seq<string>): seq<Route>
    decreases entries, 1
  {
    if entries == [] then [] else Below(entries[0], dirs) + Scan(entries[1..], dirs)
  }

  function Below(e: Entry, dirs: seq<string>): seq<Route>
    decreases e, 0
  {
    match e
    case SubDir(name, sub) => Scan(sub, dirs + [name])
    case File(name) => if IsRouteFile(e) then [RouteOf(dirs, name)] else []
  }

  lemma ScanStep(done: seq<Route>, entries: seq<Entry>, dirs: seq<string>, i: nat)
    requires i < |entries|
    ensures done + Scan(entries[i..], dirs) == (done + Below(entries[i], dirs)) + Scan(entries[i + 1..], dirs)
  {
    assert entries[i..][1..] == entries[i + 1..];
    Assoc(done, Below(entries[i], dirs), Scan(entries[i + 1..], dirs));
  }

  /** The recursive scan; a directory that does not exist has no routes. */
  method ScanRoutes(dir: Option<seq<Entry>>, dirs: seq<string>) returns (routes: seq<Route>)
    ensures routes == if dir.None? then [] else Scan(dir.value, dirs)
    decreases if dir.None? then [] else dir.value
  {
    routes := [];
    if dir.None? { return; }
    var entries := dir.value;
    assert entries[0..] == entries;
    for i := 0 to |entries|
      invariant Scan(entries, dirs) == routes + Scan(entries[i..], dirs)
    {
      ScanStep(routes, entries, dirs, i);
      match entries[i] {
        case SubDir(name, sub) =>
          var below := ScanRoutes(Some(sub), dirs + [name]);
          routes := routes + below;
        case File(name) =>
          if name == "route.ts" || name == "route.js" {
            routes := routes + [RouteOf(dirs, name)];
          } else {
            assert routes + [] == routes;
          }
      }
    }
  }

  /** Following these directory names from a listing ends at a listing with this route file. */
  ghost predicate Leads(entries: seq<Entry>, path: seq<string>, name: string)
    decreases |path|
  {
    if path == [] then File(name) in entries && name in {"route.ts", "route.js"}
    else exists i :: 0 <= i < |entries| && entries[i].SubDir? && entries[i].name == path[0]
                     && Leads(entries[i].entries, path[1..], name)
  }

  lemma {:induction false} ScanFinds(entries: seq<Entry>, dirs: seq<string>, path: seq<string>, name: string)
    requires Leads(entries, path, name)
    ensures RouteOf(dirs + path, name) in Scan(entries, dirs)
    decreases |path|, |entries|
  {
    if path == [] {
      assert dirs + path == dirs;
      if entries[0] != File(name) { ScanFinds(entries[1..], dirs, path, name); }
    } else {
      var i :| 0 <= i < |entries| && entries[i].SubDir? && entries[i].name == path[0]
               && Leads(entries[i].entries, path[1..], name);
      if i == 0 {
        ScanFinds(entries[0].entries, dirs + [path[0]], path[1..], name);
        assert dirs + [path[0]] + path[1..] == dirs + path;
      } else {
        assert entries[1..][i - 1] == entries[i];
        ScanFinds(entries[1..], dirs, path, name);
      }
    }
  }

  lemma LeadsFromTail(entries: seq<Entry>, path: seq<string>, name: string)
    requires entries != [] && Leads(entries[1..], path, name)
    ensures Leads(entries, path, name)
  {
    if path != [] {
      var i :| 0 <= i < |entries[1..]| && entries[1..][i].SubDir? && entries[1..][i].name == path[0]
               && Leads(entries[1..][i].entries, path[1..], name);
      assert entries[i + 1] == entries[1..][i];
    }
  }

  lemma LeadsIntoSubDir(entries: seq<Entry>, path: seq<string>, name: string)
    requires entries != [] && entries[0].SubDir? && Leads(entries[0].entries, path, name)
    ensures Leads(entries, [entries[0].name] + path, name)
  {
    assert ([entries[0].name] + path)[1..] == path;
  }

  lemma {:induction false} ScanOnlyFinds(entries: seq<Entry>, dirs: seq<string>, r: Route)
      returns (path: seq<string>, name: string)
    requires r in Scan(entries, dirs)
    ensures Leads(entries, path, name) && r == RouteOf(dirs + path, name)
    decreases entries
  {
    if r in Below(entries[0], dirs) {
      if entries[0].SubDir? {
        path, name := ScanOnlyFinds(entries[0].entries, dirs + [entries[0].name], r);
        LeadsIntoSubDir(entries, path, name);
        assert dirs + [entries[0].name] + path == dirs + ([entries[0].name] + path);
        path := [entries[0].name] + path;
      } else {
        path, name := [], entries[0].name;
        assert dirs + path == dirs;
      }
    } else {
      path, name := ScanOnlyFinds(entries[1..], dirs, r);
      LeadsFromTail(entries, path, name);
    }
  }

  /** The table holds exactly the routes of the route files of the tree. */
  lemma ScanExactly(entries: seq<Entry>, r: Route)
    ensures r in Scan(entries, []) <==> exists path, name :: Leads(entries, path, name) && r == RouteOf(path, name)
  {
    if r in Scan(entries, []) {
      var path, name := ScanOnlyFinds(entries, [], r);
      assert [] + path == path;
    }
    forall path, name | Leads(entries, path, name) && r == RouteOf(path, name) ensures r in Scan(entries, []) {
      ScanFinds(entries, [], path, name);
      assert [] + path == path;
    }
  }

  /** Every directory name below is non-empty and holds no separator, as on any file system, and no backslash. */
  predicate TreeOk(entries: seq<Entry>)
    decreases entries
  {
    forall i :: 0 <= i < |entries| ==> entries[i].SubDir? ==>
      NameOk(entries[i].name) && '\\' !in entries[i].name && TreeOk(entries[i].entries)
  }

  lemma {:induction false} LeadsByNames(entries: seq<Entry>, path: seq<string>, name: string)
    requires TreeOk(entries) && Leads(entries, path, name)
    ensures NamesOk(path) && NoBackslash(path)
    decreases |path|
  {
    if path != [] {
      var i :| 0 <= i < |entries| && entries[i].SubDir? && entries[i].name == path[0]
               && Leads(entries[i].entries, path[1..], name);
      LeadsByNames(entries[i].entries, path[1..], name);
      assert forall j :: 0 < j < |path| ==> path[j] == path[1..][j - 1];
    }
  }

  /** Every scanned route is one that the matcher handles, has one segment a directory of its path, and loads the file
      at that path. */
  lemma ScannedRoutes(entries: seq<Entry>, r: Route) returns (path: seq<string>, name: string)
    requires TreeOk(entries) && r in Scan(entries, [])
    ensures Leads(entries, path, name)
    ensures RouteOk(r) && r.segs == SegsOf(path) && r.file == "/src/app/api/" + Join(path + [name])
  {
    path, name := ScanOnlyFinds(entries, [], r);
    assert [] + path == path;
    LeadsByNames(entries, path, name);
    RouteOfDirs(path, name);
  }

  // ---- from directories to requests ----------------------------------------------------

  function Bracket(n: string): string { "[" + n + "]" }

  ghost predicate IsBracketed(d: string) { exists n :: d == Bracket(n) }

  /** A bracketed directory is a parameter of the name inside, any other one is fixed text. */
  lemma SegOfName(d: string, n: string)
    ensures SegOf(Bracket(n)) == Param(n)
    ensures !IsBracketed(d) ==> SegOf(d) == Static(d)
  {
    assert Bracket(n)[1..|Bracket(n)| - 1] == n;
    if SegOf(d).Param? {
      assert d == Bracket(d[1..|d| - 1]);
    }
  }

  lemma AcceptsByName(d: string, v: string)
    requires NameOk(v)
    ensures Accepts(SegOf(d), v) <==> IsBracketed(d) || v == d
  {
    SegOfName(d, "");
    if IsBracketed(d) {
      var n :| d == Bracket(n);
      SegOfName(d, n);
    }
  }

  /** The parts of a request are those that were joined. */
  lemma RequestSplits(values: seq<string>)
    requires NamesOk(values)
    ensures var path := "/api/" + Join(values);
      PREFIX <= path && path[|PREFIX|..] == Join(values) && Split(path[|PREFIX|..]) == values
  {
    SplitJoin(values);
    assert ("/api/" + Join(values))[|PREFIX|..] == Join(values);
  }

  lemma FitsByName(r: Route, dirs: seq<string>, values: seq<string>)
    requires r.segs == SegsOf(dirs) && NamesOk(values)
    ensures Fits(r, values) <==>
      |dirs| == |values| && forall i :: 0 <= i < |dirs| ==> IsBracketed(dirs[i]) || dirs[i] == values[i]
  {
    forall i | 0 <= i < |dirs| && i < |values|
      ensures Accepts(r.segs[i], values[i]) <==> IsBracketed(dirs[i]) || dirs[i] == values[i]
    {
      AcceptsByName(dirs[i], values[i]);
    }
  }

  /** A request reaches the route file below `dirs` if and only if it has one part a directory and every directory that
      is not bracketed is named in its place. */
  lemma RequestMatchesExactly(dirs: seq<string>, name: string, values: seq<string>)
    requires NamesOk(dirs) && NoBackslash(dirs) && NamesOk(values)
    ensures Matches(RouteOf(dirs, name), "/api/" + Join(values)) <==>
      |dirs| == |values| && forall i :: 0 <= i < |dirs| ==> IsBracketed(dirs[i]) || dirs[i] == values[i]
  {
    var r := RouteOf(dirs, name);
    RouteOfDirs(dirs, name);
    RequestSplits(values);
    MatchesExactly(r, "/api/" + Join(values));
    FitsByName(r, dirs, values);
  }

  /** Position i is the last one of the bracketed directory [n]. */
  ghost predicate LastNamed(dirs: seq<string>, i: int, n: string) {
    0 <= i < |dirs| && dirs[i] == Bracket(n) && forall j :: i < j < |dirs| ==> dirs[j] != Bracket(n)
  }

  lemma NoOtherParam(d: string, n: string)
    ensures SegOf(d) == Param(n) ==> d == Bracket(n)
  {
    SegOfName(d, n);
  }

  lemma ParamsByName(dirs: seq<string>, values: seq<string>)
    requires |dirs| == |values|
    ensures forall i, n :: LastNamed(dirs, i, n) ==>
      n in Captured(SegsOf(dirs), values) && Captured(SegsOf(dirs), values)[n] == values[i]
    ensures forall n :: n in Captured(SegsOf(dirs), values) ==> Bracket(n) in dirs
  {
    var segs := SegsOf(dirs);
    ParamsAreSegments(segs, values);
    forall i, n | LastNamed(dirs, i, n)
      ensures n in Captured(segs, values) && Captured(segs, values)[n] == values[i]
    {
      SegOfName(dirs[i], n);
      forall j | i < j < |dirs| ensures segs[j] != segs[i] {
        NoOtherParam(dirs[j], n);
      }
      assert LastUse(segs, i);
    }
    forall n | n in Captured(segs, values) ensures Bracket(n) in dirs {
      var i :| 0 <= i < |segs| && segs[i] == Param(n);
      NoOtherParam(dirs[i], n);
    }
  }

  lemma MatchOfRequest(dirs: seq<string>, name: string, values: seq<string>)
    requires NamesOk(dirs) && NoBackslash(dirs) && NamesOk(values)
    requires Matches(RouteOf(dirs, name), "/api/" + Join(values))
    ensures RouteOf(dirs, name).segs == SegsOf(dirs) && |dirs| == |values|
    ensures Match(RouteOf(dirs, name), "/api/" + Join(values)) == Some(values)
  {
    RouteOfDirs(dirs, name);
    RequestMatchesExactly(dirs, name, values);
    RequestSplits(values);
    MatchesExactly(RouteOf(dirs, name), "/api/" + Join(values));
  }

  /** The parameters of such a request: the part at the last directory of each bracketed name, and nothing else. */
  lemma RequestParams(dirs: seq<string>, name: string, values: seq<string>)
    requires NamesOk(dirs) && NoBackslash(dirs) && NamesOk(values)
    requires Matches(RouteOf(dirs, name), "/api/" + Join(values))
    ensures var segs := RouteOf(dirs, name).segs;
      && Match(RouteOf(dirs, name), "/api/" + Join(values)) == Some(values) && |segs| == |values| == |dirs|
      && (forall i, n :: LastNamed(dirs, i, n) ==>
            n in Captured(segs, values) && Captured(segs, values)[n] == values[i])
      && (forall n :: n in Captured(segs, values) ==> Bracket(n) in dirs)
  {
    MatchOfRequest(dirs, name, values);
    ParamsByName(dirs, values);
  }
}
