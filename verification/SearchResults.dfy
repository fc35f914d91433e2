/** What becomes of the sink after the walk: grouping by file, sorting, the
    result cap, and the theorems about whole walks. */
module SearchResults {
  import opened Wrappers
  import opened SearchWalk

  // ----- grep: groups of lines -----

  datatype Group = Group(path: nat, lines: seq<Hit>)

  // The commit of one hit: onto the last group if it is the same file.
  function PushHit(groups: seq<Group>, m: Match): seq<Group> {
    if groups != [] && groups[|groups| - 1].path == m.path then
      groups[..|groups| - 1] + [Group(m.path, groups[|groups| - 1].lines + [m.hit])]
    else
      groups + [Group(m.path, [m.hit])]
  }

  // The grouped form of the sink.
  function Grouped(sink: seq<Match>): seq<Group> {
    if sink == [] then [] else PushHit(Grouped(sink[..|sink| - 1]), sink[|sink| - 1])
  }

  function Lines(g: Group): (r: seq<Match>)
    ensures |r| == |g.lines|
  {
    seq(|g.lines|, i requires 0 <= i < |g.lines| => Match(g.path, g.lines[i]))
  }

  function Flatten(groups: seq<Group>): seq<Match> {
    if groups == [] then [] else Lines(groups[0]) + Flatten(groups[1..])
  }

  lemma {:induction false} FlattenConcat(a: seq<Group>, b: seq<Group>)
    ensures Flatten(a + b) == Flatten(a) + Flatten(b)
  {
    if a == [] {
      assert a + b == b;
    } else {
      assert (a + b)[1..] == a[1..] + b;
      FlattenConcat(a[1..], b);
    }
  }

  lemma {:induction false} FlattenOne(g: Group)
    ensures Flatten([g]) == Lines(g)
  {
    assert [g][1..] == [];
  }

  // Grouping loses nothing and reorders nothing.
  lemma {:induction false} FlattenPush(groups: seq<Group>, m: Match)
    ensures Flatten(PushHit(groups, m)) == Flatten(groups) + [m]
  {
    if groups != [] && groups[|groups| - 1].path == m.path {
      var init, last := groups[..|groups| - 1], groups[|groups| - 1];
      var last' := Group(m.path, last.lines + [m.hit]);
      assert groups == init + [last];
      FlattenConcat(init, [last]);
      FlattenConcat(init, [last']);
      FlattenOne(last);
      FlattenOne(last');
      assert Lines(last') == Lines(last) + [m];
    } else {
      var g := Group(m.path, [m.hit]);
      FlattenConcat(groups, [g]);
      FlattenOne(g);
      assert Lines(g) == [m];
    }
  }

  lemma {:induction false} FlattenGrouped(sink: seq<Match>)
    ensures Flatten(Grouped(sink)) == sink
  {
    if sink != [] {
      FlattenGrouped(sink[..|sink| - 1]);
      FlattenPush(Grouped(sink[..|sink| - 1]), sink[|sink| - 1]);
    }
  }

  // ----- sorting -----

  ghost predicate Ascending(lines: seq<Hit>) {
    forall i, j :: 0 <= i < j < |lines| ==> lines[i].line < lines[j].line
  }

  // The stable library sorts, as insertion.
  function InsertLine(h: Hit, lines: seq<Hit>): seq<Hit> {
    if lines == [] || h.line <= lines[0].line then [h] + lines else [lines[0]] + InsertLine(h, lines[1..])
  }

  function SortLines(lines: seq<Hit>): seq<Hit> {
    if lines == [] then [] else InsertLine(lines[0], SortLines(lines[1..]))
  }

  function InsertGroup(g: Group, groups: seq<Group>): seq<Group> {
    if groups == [] || g.path <= groups[0].path then [g] + groups else [groups[0]] + InsertGroup(g, groups[1..])
  }

  function SortGroups(groups: seq<Group>): seq<Group> {
    if groups == [] then [] else InsertGroup(groups[0], SortGroups(groups[1..]))
  }

  function SortEachGroup(groups: seq<Group>): seq<Group> {
    if groups == [] then []
    else [Group(groups[0].path, SortLines(groups[0].lines))] + SortEachGroup(groups[1..])
  }

  // The hits of one line number, in order.
  function AtLine(lines: seq<Hit>, line: nat): seq<Hit> {
    if lines == [] then [] else (if lines[0].line == line then [lines[0]] else []) + AtLine(lines[1..], line)
  }

  ghost predicate InLineOrder(lines: seq<Hit>) {
    forall i, j :: 0 <= i < j < |lines| ==> lines[i].line <= lines[j].line
  }

  lemma {:induction false} InsertLineIs(h: Hit, lines: seq<Hit>, line: nat)
    requires InLineOrder(lines)
    ensures var r := InsertLine(h, lines);
            && InLineOrder(r) && |r| == |lines| + 1
            && (forall i :: 0 <= i < |r| ==> r[i].line >= h.line || (lines != [] && r[i].line >= lines[0].line))
            && AtLine(r, line) == (if h.line == line then [h] else []) + AtLine(lines, line)
  {
    if lines == [] || h.line <= lines[0].line {
      assert ([h] + lines)[1..] == lines;
    } else {
      var rest := InsertLine(h, lines[1..]);
      InsertLineIs(h, lines[1..], line);
      assert ([lines[0]] + rest)[1..] == rest;
      NoneBefore(h, lines, line);
    }
  }

  lemma {:induction false} NoneBefore(h: Hit, lines: seq<Hit>, line: nat)
    requires InLineOrder(lines) && lines != [] && lines[0].line < h.line
    ensures (if lines[0].line == line then [lines[0]] else [])
            + ((if h.line == line then [h] else []) + AtLine(lines[1..], line)) ==
            (if h.line == line then [h] else []) + AtLine(lines, line)
  {
  }

  // The sort orders by line number, and hits of one line stay as they were.
  lemma {:induction false} SortIsStable(lines: seq<Hit>, line: nat)
    ensures InLineOrder(SortLines(lines)) && |SortLines(lines)| == |lines|
    ensures AtLine(SortLines(lines), line) == AtLine(lines, line)
  {
    if lines != [] {
      SortIsStable(lines[1..], line);
      InsertLineIs(lines[0], SortLines(lines[1..]), line);
    }
  }

  lemma {:induction false} SortedStays(lines: seq<Hit>)
    requires Ascending(lines)
    ensures SortLines(lines) == lines
  {
    if lines != [] {
      SortedStays(lines[1..]);
      assert lines == [lines[0]] + lines[1..];
    }
  }

  lemma {:induction false} SortedGroupsStay(groups: seq<Group>)
    requires forall g <- groups :: Ascending(g.lines)
    ensures SortEachGroup(groups) == groups
  {
    if groups != [] {
      SortedStays(groups[0].lines);
      SortedGroupsStay(groups[1..]);
    }
  }

  lemma {:induction false} HitsOfConcat(a: seq<Match>, b: seq<Match>, path: nat)
    ensures HitsOf(a + b, path) == HitsOf(a, path) + HitsOf(b, path)
    decreases |b|
  {
    if b == [] {
      assert a + b == a;
    } else {
      var b', last := b[..|b| - 1], b[|b| - 1];
      HitsOfConcat(a, b', path);
      assert a + b == (a + b') + [last];
      HitsOfAppend(a + b', last, path);
    }
  }

  lemma {:induction false} HitsOfOther(s: seq<Match>, path: nat)
    requires forall i :: 0 <= i < |s| ==> s[i].path != path
    ensures HitsOf(s, path) == []
  {
    if s != [] {
      HitsOfOther(s[..|s| - 1], path);
    }
  }

  // Moving a group behind one of another file changes no file's hits.
  lemma {:induction false} SwapGroups(g: Group, h: Group, path: nat)
    requires g.path != h.path
    ensures HitsOf(Lines(g), path) + HitsOf(Lines(h), path) == HitsOf(Lines(h), path) + HitsOf(Lines(g), path)
  {
    if path != g.path {
      HitsOfOther(Lines(g), path);
    } else {
      HitsOfOther(Lines(h), path);
    }
  }

  lemma {:induction false} InsertKeepsHits(g: Group, groups: seq<Group>, path: nat)
    ensures HitsOf(Flatten(InsertGroup(g, groups)), path) == HitsOf(Lines(g), path) + HitsOf(Flatten(groups), path)
  {
    if groups == [] || g.path <= groups[0].path {
      HitsOfFirst(g, groups, path);
    } else {
      var h, rest := groups[0], groups[1..];
      HitsOfFirst(h, InsertGroup(g, rest), path);
      InsertKeepsHits(g, rest, path);
      assert groups == [h] + rest;
      HitsOfFirst(h, rest, path);
      SwapGroups(g, h, path);
      Rotate(HitsOf(Lines(g), path), HitsOf(Lines(h), path), HitsOf(Flatten(rest), path));
    }
  }

  lemma {:induction false} Rotate<T>(a: seq<T>, b: seq<T>, c: seq<T>)
    requires a + b == b + a
    ensures b + (a + c) == a + (b + c)
  {
    assert b + (a + c) == (b + a) + c == a + (b + c);
  }

  lemma {:induction false} HitsOfFirst(g: Group, groups: seq<Group>, path: nat)
    ensures HitsOf(Flatten([g] + groups), path) == HitsOf(Lines(g), path) + HitsOf(Flatten(groups), path)
  {
    assert ([g] + groups)[1..] == groups;
    HitsOfConcat(Lines(g), Flatten(groups), path);
  }

  lemma {:induction false} SortKeepsHits(groups: seq<Group>, path: nat)
    ensures HitsOf(Flatten(SortGroups(groups)), path) == HitsOf(Flatten(groups), path)
  {
    if groups != [] {
      SortKeepsHits(groups[1..], path);
      InsertKeepsHits(groups[0], SortGroups(groups[1..]), path);
      HitsOfConcat(Lines(groups[0]), Flatten(groups[1..]), path);
    }
  }

  ghost predicate ByPath(s: seq<Match>) {
    forall i, j :: 0 <= i < j < |s| ==> s[i].path <= s[j].path
  }

  ghost predicate GroupsByPath(groups: seq<Group>) {
    forall i, j :: 0 <= i < j < |groups| ==> groups[i].path <= groups[j].path
  }

  lemma {:induction false} InsertSorted(g: Group, groups: seq<Group>)
    requires GroupsByPath(groups)
    ensures GroupsByPath(InsertGroup(g, groups))
    ensures forall x <- InsertGroup(g, groups) :: x == g || x in groups
  {
    if groups != [] && groups[0].path < g.path {
      InsertSorted(g, groups[1..]);
      assert forall x <- groups[1..] :: groups[0].path <= x.path;
    }
  }

  lemma {:induction false} SortSorted(groups: seq<Group>)
    ensures GroupsByPath(SortGroups(groups))
    ensures forall x <- SortGroups(groups) :: x in groups
  {
    if groups != [] {
      SortSorted(groups[1..]);
      InsertSorted(groups[0], SortGroups(groups[1..]));
    }
  }

  lemma {:induction false} FlattenByPath(groups: seq<Group>)
    requires GroupsByPath(groups)
    ensures ByPath(Flatten(groups))
    ensures forall m <- Flatten(groups) :: exists g <- groups :: g.path == m.path
  {
    if groups != [] {
      FlattenByPath(groups[1..]);
      var rest := Flatten(groups[1..]);
      assert forall m <- Lines(groups[0]) :: m.path == groups[0].path;
      assert forall m <- rest :: groups[0].path <= m.path;
    }
  }

  // ----- the order of the result -----

  predicate Less(a: Match, b: Match) {
    a.path < b.path || (a.path == b.path && a.hit.line < b.hit.line)
  }

  ghost predicate Ordered(s: seq<Match>) {
    forall i, j :: 0 <= i < j < |s| ==> Less(s[i], s[j])
  }

  // Two places of one file are two places of its hits, in the same order.
  lemma {:induction false} HitsInOrder(s: seq<Match>, i: nat, j: nat) returns (a: nat, b: nat)
    requires i < j < |s| && s[i].path == s[j].path
    ensures var hits := HitsOf(s, s[i].path);
            a < b < |hits| && hits[a] == s[i].hit && hits[b] == s[j].hit
  {
    var path := s[i].path;
    var before, rest := s[..j], s[j + 1..];
    assert s == before + [s[j]] + rest;
    HitsOfConcat(before + [s[j]], rest, path);
    HitsOfAppend(before, s[j], path);
    a := HitPlace(before, i);
    b := |HitsOf(before, path)|;
  }

  lemma {:induction false} HitPlace(s: seq<Match>, i: nat) returns (a: nat)
    requires i < |s|
    ensures var hits := HitsOf(s, s[i].path); a < |hits| && hits[a] == s[i].hit
    decreases |s|
  {
    if i == |s| - 1 {
      a := |HitsOf(s[..|s| - 1], s[i].path)|;
    } else {
      a := HitPlace(s[..|s| - 1], i);
    }
  }

  lemma {:induction false} HitIsMatch(s: seq<Match>, path: nat, h: Hit)
    ensures h in HitsOf(s, path) <==> Match(path, h) in s
  {
    if s != [] {
      var last := s[|s| - 1];
      HitIsMatch(s[..|s| - 1], path, h);
      assert s == s[..|s| - 1] + [last];
    }
  }

  lemma {:induction false} OrderedFromHits(s: seq<Match>)
    requires ByPath(s) && forall path: nat :: Ascending(HitsOf(s, path))
    ensures Ordered(s)
  {
    forall i, j | 0 <= i < j < |s|
      ensures Less(s[i], s[j])
    {
      if s[i].path == s[j].path {
        var a, b := HitsInOrder(s, i, j);
      }
    }
  }

  // An ordered result is determined by what it contains.
  lemma {:induction false} OrderedUnique(s: seq<Match>, t: seq<Match>)
    requires Ordered(s) && Ordered(t) && forall m :: m in s <==> m in t
    ensures s == t
  {
    if t != [] {
      assert t[0] in s;
    }
    if s != [] {
      assert s[0] in t;
      FirstIsLeast(s, t[0]);
      FirstIsLeast(t, s[0]);
      forall m
        ensures m in s[1..] <==> m in t[1..]
      {
        TailMember(s, m);
        TailMember(t, m);
      }
      OrderedUnique(s[1..], t[1..]);
    }
  }

  lemma {:induction false} FirstIsLeast(s: seq<Match>, m: Match)
    requires Ordered(s) && m in s
    ensures m == s[0] || Less(s[0], m)
  {
  }

  lemma {:induction false} TailMember(s: seq<Match>, m: Match)
    requires Ordered(s) && s != []
    ensures m in s[1..] <==> m in s && m != s[0]
  {
    assert s == [s[0]] + s[1..];
    assert forall k :: 0 <= k < |s[1..]| ==> s[1..][k] == s[k + 1];
  }

  // ----- grep's post-processing -----

  lemma {:induction false} AscendingBefore(sink: seq<Match>, m: Match, path: nat)
    requires Ascending(HitsOf(sink + [m], path))
    ensures Ascending(HitsOf(sink, path))
  {
    HitsOfAppend(sink, m, path);
    var longer := HitsOf(sink + [m], path);
    assert forall i :: 0 <= i < |HitsOf(sink, path)| ==> HitsOf(sink, path)[i] == longer[i];
  }

  // Groups of a sink whose files' hits ascend are ascending themselves.
  lemma {:induction false} GroupsAscending(sink: seq<Match>)
    requires forall path: nat :: Ascending(HitsOf(sink, path))
    ensures var groups := Grouped(sink);
            && (forall g <- groups :: Ascending(g.lines))
            && (groups != [] ==>
                  var g := groups[|groups| - 1];
                  var hits := HitsOf(sink, g.path);
                  |g.lines| <= |hits| && g.lines == hits[|hits| - |g.lines|..])
  {
    if sink != [] {
      var init, m := sink[..|sink| - 1], sink[|sink| - 1];
      assert sink == init + [m];
      forall path: nat
        ensures Ascending(HitsOf(init, path))
      {
        AscendingBefore(init, m, path);
      }
      GroupsAscending(init);
      HitsOfAppend(init, m, m.path);
      assert Grouped(sink) == PushHit(Grouped(init), m);
      PushAscending(Grouped(init), m, HitsOf(init, m.path));
    }
  }

  lemma {:induction false} PushAscending(groups: seq<Group>, m: Match, hits: seq<Hit>)
    requires forall g <- groups :: Ascending(g.lines)
    requires groups != [] && groups[|groups| - 1].path == m.path ==>
               var g := groups[|groups| - 1]; |g.lines| <= |hits| && g.lines == hits[|hits| - |g.lines|..]
    requires Ascending(hits + [m.hit])
    ensures var groups', hits' := PushHit(groups, m), hits + [m.hit];
            && (forall g <- groups' :: Ascending(g.lines))
            && groups' != [] && groups'[|groups'| - 1].path == m.path
            && var g := groups'[|groups'| - 1]; |g.lines| <= |hits'| && g.lines == hits'[|hits'| - |g.lines|..]
  {
    var groups', hits' := PushHit(groups, m), hits + [m.hit];
    var g := groups'[|groups'| - 1];
    assert |g.lines| <= |hits'| && g.lines == hits'[|hits'| - |g.lines|..];
    assert forall i :: 0 <= i < |g.lines| ==> g.lines[i] == hits'[|hits'| - |g.lines| + i];
    assert forall x <- groups' :: x == g || x in groups;
  }

  // The whole of the sink, files in order and lines in order.
  function Everything(sink: seq<Match>): seq<Match> {
    Flatten(SortEachGroup(SortGroups(Grouped(sink))))
  }

  lemma {:induction false} EverythingOrdered(sink: seq<Match>)
    requires forall path: nat :: Ascending(HitsOf(sink, path))
    ensures Ordered(Everything(sink))
    ensures forall m :: m in Everything(sink) <==> m in sink
  {
    var groups := Grouped(sink);
    GroupsAscending(sink);
    SortSorted(groups);
    SortedGroupsStay(SortGroups(groups));
    FlattenByPath(SortGroups(groups));
    FlattenGrouped(sink);
    forall path: nat
      ensures HitsOf(Everything(sink), path) == HitsOf(sink, path)
    {
      SortKeepsHits(groups, path);
    }
    OrderedFromHits(Everything(sink));
    forall m
      ensures m in Everything(sink) <==> m in sink
    {
      HitIsMatch(Everything(sink), m.path, m.hit);
      HitIsMatch(sink, m.path, m.hit);
    }
  }

  // The emission loop stops once the cap is reached, which it tests after a push.
  function Cap(s: seq<Match>, maxResults: nat): seq<Match> {
    var n := if maxResults == 0 then 1 else maxResults;
    if |s| <= n then s else s[..n]
  }

  // So a cap of zero lets one through; else nothing beyond the cap, and nothing less.
  lemma {:induction false} CapIs(s: seq<Match>, maxResults: nat)
    ensures Cap(s, maxResults) <= s
    ensures |s| <= maxResults ==> Cap(s, maxResults) == s
    ensures |s| > maxResults ==> |Cap(s, maxResults)| == if maxResults == 0 then 1 else maxResults
  {
  }

  // What the files from k on still have to give.
  ghost function Remaining(byFile: seq<Group>, k: nat): seq<Match>
    requires k <= |byFile|
    decreases |byFile| - k
  {
    if k == |byFile| then []
    else Lines(Group(byFile[k].path, SortLines(byFile[k].lines))) + Remaining(byFile, k + 1)
  }

  lemma {:induction false} RemainingIs(byFile: seq<Group>, k: nat)
    requires k <= |byFile|
    ensures Remaining(byFile, k) == Flatten(SortEachGroup(byFile[k..]))
    decreases |byFile| - k
  {
    if k < |byFile| {
      RemainingIs(byFile, k + 1);
      var g := Group(byFile[k].path, SortLines(byFile[k].lines));
      assert byFile[k..][1..] == byFile[k + 1..];
      assert ([g] + SortEachGroup(byFile[k + 1..]))[1..] == SortEachGroup(byFile[k + 1..]);
    }
  }

  method Emit(groups: seq<Group>, maxResults: nat) returns (emitted: seq<Match>)
    ensures emitted == Cap(Flatten(SortEachGroup(SortGroups(groups))), maxResults)
  {
    var byFile := SortGroups(groups);
    emitted := EmitFiles(byFile, maxResults);
    RemainingIs(byFile, 0);
    assert byFile[0..] == byFile;
  }

  method EmitFiles(byFile: seq<Group>, maxResults: nat) returns (emitted: seq<Match>)
    ensures emitted == Cap(Remaining(byFile, 0), maxResults)
  {
    emitted := [];
    var k := 0;
    while k < |byFile|
      invariant 0 <= k <= |byFile|
      invariant Remaining(byFile, 0) == emitted + Remaining(byFile, k)
      invariant |emitted| < maxResults || emitted == []
    {
      var g := Group(byFile[k].path, SortLines(byFile[k].lines));
      Rebracket(emitted, Lines(g), Remaining(byFile, k + 1));
      var full;
      emitted, full := EmitFile(g, emitted, maxResults, Remaining(byFile, k + 1));
      if full {
        return;
      }
      k := k + 1;
    }
  }

  lemma {:induction false} Rebracket(a: seq<Match>, b: seq<Match>, c: seq<Match>)
    ensures a + (b + c) == (a + b) + c
  {
  }

  // The inner loop: the lines of one file.
  method EmitFile(g: Group, before: seq<Match>, maxResults: nat, ghost rest: seq<Match>)
    returns (emitted: seq<Match>, full: bool)
    requires |before| < maxResults || before == []
    ensures full ==> emitted == Cap(before + (Lines(g) + rest), maxResults)
    ensures !full ==> emitted == before + Lines(g) && (|emitted| < maxResults || emitted == [])
  {
    emitted := before;
    var i := 0;
    while i < |g.lines|
      invariant 0 <= i <= |g.lines|
      invariant emitted == before + Lines(g)[..i]
      invariant |emitted| < maxResults || emitted == []
    {
      emitted := emitted + [Match(g.path, g.lines[i])];
      i := i + 1;
      assert Lines(g)[..i] == Lines(g)[..i - 1] + [Lines(g)[i - 1]];
      if |emitted| >= maxResults {
        assert before + (Lines(g) + rest) == emitted + (Lines(g)[i..] + rest);
        return emitted, true;
      }
    }
    full := false;
  }

  // ----- glob's post-processing -----

  function Insert(m: Match, s: seq<Match>): seq<Match> {
    if s == [] || m.path <= s[0].path then [m] + s else [s[0]] + Insert(m, s[1..])
  }

  function SortByPath(s: seq<Match>): seq<Match> {
    if s == [] then [] else Insert(s[0], SortByPath(s[1..]))
  }

  // Trim to the cap, then sort.
  function GlobResult(sink: seq<Match>, maxResults: nat): seq<Match> {
    SortByPath(if |sink| > maxResults then sink[..maxResults] else sink)
  }

  lemma {:induction false} InsertOrdered(m: Match, s: seq<Match>)
    requires Ordered(s) && forall x <- s :: x.path != m.path
    ensures Ordered(Insert(m, s))
    ensures forall x :: x in Insert(m, s) <==> x == m || x in s
  {
    if s != [] && s[0].path < m.path {
      InsertOrdered(m, s[1..]);
      assert s == [s[0]] + s[1..];
      assert forall x <- s[1..] :: Less(s[0], x);
    }
  }

  lemma {:induction false} SortByPathOrdered(s: seq<Match>)
    requires forall i, j :: 0 <= i < j < |s| ==> s[i].path != s[j].path
    ensures Ordered(SortByPath(s))
    ensures forall x :: x in SortByPath(s) <==> x in s
  {
    if s != [] {
      SortByPathOrdered(s[1..]);
      assert s == [s[0]] + s[1..];
      assert forall x <- s[1..] :: x.path != s[0].path;
      InsertOrdered(s[0], SortByPath(s[1..]));
    }
  }

  // What is left after trimming, in order and whole.
  lemma {:induction false} GlobResultIs(sink: seq<Match>, maxResults: nat, m: Match)
    requires forall i, j :: 0 <= i < j < |sink| ==> sink[i].path != sink[j].path
    ensures Ordered(GlobResult(sink, maxResults))
    ensures m in GlobResult(sink, maxResults) <==> exists i :: 0 <= i < |sink| && i < maxResults && sink[i] == m
  {
    SortByPathOrdered(if |sink| > maxResults then sink[..maxResults] else sink);
  }

  // ----- whole walks -----

  // Distinct files, each with its hits in line order.
  ghost predicate WellFormed(c: Config) {
    DistinctPaths(c.items) && forall item <- c.items :: Ascending(item.hits)
  }

  ghost predicate IsMatch(c: Config, m: Match) {
    exists e :: 0 <= e < |c.items| && c.items[e].path == m.path && m.hit in c.items[e].hits
  }

  lemma {:induction false} WorkerSetSize(s: set<nat>, n: nat)
    requires forall w <- s :: w < n
    ensures |s| <= n
  {
    if n == 0 {
      assert forall w: nat :: w !in s;
      assert s == {};
    } else {
      WorkerSetSize(s - {n - 1}, n - 1);
      assert n - 1 in s ==> |s - {n - 1}| == |s| - 1;
      assert n - 1 !in s ==> s - {n - 1} == s;
    }
  }

  // Under every interleaving the sink stays within the cap, and the visited
  // counter exceeds its budget by at most one per worker.
  lemma {:induction false} Bounds(c: Config, actions: seq<Action>, s: State)
    requires Reaches(c, actions, s) && DistinctPaths(c.items)
    ensures |s.sink| <= c.maxResults
    ensures s.visited <= c.maxVisited + c.workers
  {
    Always(c, actions, s);
    WorkerSetSize(s.over, c.workers);
  }

  // A walk that reports "max_results" has exactly that many hits.
  lemma {:induction false} CapReached(c: Config, actions: seq<Action>, s: State)
    requires Reaches(c, actions, s) && DistinctPaths(c.items) && Joined(c, s)
    ensures s.truncated == Some(MaxResults) ==> |s.sink| == c.maxResults
  {
    Always(c, actions, s);
    assert forall w <- s.pushing :: false;
    assert s.pushing == {};
  }

  // The reason that the first worker to record one gives.
  function FirstReason(actions: seq<Action>): Option<Reason> {
    if actions == [] then None
    else if FirstReason(actions[..|actions| - 1]).Some? then FirstReason(actions[..|actions| - 1])
    else if actions[|actions| - 1].SetReason? then Some(actions[|actions| - 1].reason)
    else None
  }

  lemma {:induction false} FirstReasonIs(actions: seq<Action>, i: nat)
    requires i < |actions| && actions[i].SetReason? && forall j :: 0 <= j < i ==> !actions[j].SetReason?
    ensures FirstReason(actions) == Some(actions[i].reason)
  {
    var n := |actions| - 1;
    if i < n {
      FirstReasonIs(actions[..n], i);
    } else {
      NoReason(actions[..n]);
    }
  }

  lemma {:induction false} NoReason(actions: seq<Action>)
    requires forall j :: 0 <= j < |actions| ==> !actions[j].SetReason?
    ensures FirstReason(actions) == None
  {
    if actions != [] {
      NoReason(actions[..|actions| - 1]);
    }
  }

  lemma {:induction false} OnlySetReason(c: Config, a: Action, s: State)
    requires Shape(c, s) && Enabled(c, a, s)
    ensures Do(c, a, s).truncated == if s.truncated.None? && a.SetReason? then Some(a.reason) else s.truncated
  {
  }

  // In every run the recorded reason is that of the first worker to record one;
  // so it is the same at every later moment.
  lemma {:induction false} FirstReasonWins(c: Config, actions: seq<Action>, s: State)
    requires Reaches(c, actions, s)
    ensures s.truncated == FirstReason(actions)
    ensures forall i ::
              (0 <= i < |actions| && actions[i].SetReason? && forall j :: 0 <= j < i ==> !actions[j].SetReason?) ==>
              s.truncated == Some(actions[i].reason)
    decreases |actions|
  {
    if actions != [] {
      var init, last := actions[..|actions| - 1], actions[|actions| - 1];
      var prev :| Reaches(c, init, prev) && Shape(c, prev) && Enabled(c, last, prev) && s == Do(c, last, prev);
      FirstReasonWins(c, init, prev);
      OnlySetReason(c, last, prev);
    }
    forall i | 0 <= i < |actions| && actions[i].SetReason? && forall j :: 0 <= j < i ==> !actions[j].SetReason?
      ensures FirstReason(actions) == Some(actions[i].reason)
    {
      FirstReasonIs(actions, i);
    }
  }

  // What is in the sink is a match, at any time, truncated or not.
  lemma {:induction false} SinkIsSound(c: Config, actions: seq<Action>, s: State)
    requires Reaches(c, actions, s) && WellFormed(c)
    ensures forall m <- s.sink :: IsMatch(c, m)
    ensures forall path: nat :: Ascending(HitsOf(s.sink, path))
  {
    Always(c, actions, s);
    forall m | m in s.sink
      ensures IsMatch(c, m)
    {
      var e :| 0 <= e < |c.items| && c.items[e].path == m.path;
      HitIsMatch(s.sink, m.path, m.hit);
    }
    forall path: nat
      ensures Ascending(HitsOf(s.sink, path))
    {
      if e :| 0 <= e < |c.items| && c.items[e].path == path {
        assert c.items[e] in c.items;
      } else {
        HitsOfOther(s.sink, path);
      }
    }
  }

  // Without a recorded reason every unpruned entry was worked off.
  lemma {:induction false} NothingMissed(c: Config, actions: seq<Action>, s: State)
    requires Reaches(c, actions, s) && WellFormed(c) && Joined(c, s) && s.truncated.None?
    ensures forall m :: m in s.sink <==> IsMatch(c, m)
    ensures |s.sink| <= c.maxResults
  {
    Always(c, actions, s);
    SinkIsSound(c, actions, s);
    assert forall w :: 0 <= w < |s.pcs| ==> PcReason(c, s, s.pcs[w]);
    assert forall w :: 0 <= w < |s.pcs| ==> s.pcs[w] == Ready;
    forall m | IsMatch(c, m)
      ensures m in s.sink
    {
      var e :| 0 <= e < |c.items| && c.items[e].path == m.path && m.hit in c.items[e].hits;
      AllDone(c, s, e);
      assert c.items[e].hits[..s.pushed[e]] == c.items[e].hits;
      HitIsMatch(s.sink, m.path, m.hit);
    }
  }

  lemma {:induction false} AllDone(c: Config, s: State, e: nat)
    requires Inv(c, s) && s.truncated.None? && e < |c.items| && e in s.handed
    requires forall w :: 0 <= w < |s.pcs| ==> s.pcs[w] == Ready
    ensures s.pushed[e] == |c.items[e].hits|
  {
    assert s.abandoned == {};
    assert e in s.done;
  }

  // An untruncated grep returns exactly all matches, sorted by file and line,
  // whatever the schedule was.
  lemma {:induction false} GrepIsExact(c: Config, actions: seq<Action>, s: State)
    requires Reaches(c, actions, s) && WellFormed(c) && Joined(c, s) && s.truncated.None?
    ensures var result := Cap(Everything(s.sink), c.maxResults);
            Ordered(result) && forall m :: m in result <==> IsMatch(c, m)
  {
    NothingMissed(c, actions, s);
    SinkIsSound(c, actions, s);
    EverythingOrdered(s.sink);
    SameLength(Everything(s.sink), s.sink);
  }

  // An ordered sequence is no longer than any sequence with its elements.
  lemma {:induction false} SameLength(s: seq<Match>, t: seq<Match>)
    requires Ordered(s) && forall m <- s :: m in t
    ensures |s| <= |t|
    decreases |s|
  {
    if s != [] {
      assert s[0] in t;
      var i :| 0 <= i < |t| && t[i] == s[0];
      var t' := t[..i] + t[i + 1..];
      forall m | m in s[1..]
        ensures m in t'
      {
        TailMember(s, m);
        assert t == t[..i] + [t[i]] + t[i + 1..];
      }
      assert Ordered(s[1..]);
      SameLength(s[1..], t');
    }
  }

  // Two untruncated greps of the same tree agree.
  lemma {:induction false} GrepIsDeterministic(c: Config, one: seq<Action>, s: State, other: seq<Action>, t: State)
    requires Reaches(c, one, s) && Joined(c, s) && s.truncated.None?
    requires Reaches(c, other, t) && Joined(c, t) && t.truncated.None?
    requires WellFormed(c)
    ensures Cap(Everything(s.sink), c.maxResults) == Cap(Everything(t.sink), c.maxResults)
  {
    GrepIsExact(c, one, s);
    GrepIsExact(c, other, t);
    OrderedUnique(Cap(Everything(s.sink), c.maxResults), Cap(Everything(t.sink), c.maxResults));
  }

  // Glob entries match at most once.
  predicate GlobConfig(c: Config) {
    forall i :: 0 <= i < |c.items| ==> |c.items[i].hits| <= 1
  }

  // Glob's trim never removes anything, and an untruncated glob returns exactly
  // the matching files in order.
  lemma {:induction false} GlobIsExact(c: Config, actions: seq<Action>, s: State)
    requires Reaches(c, actions, s) && WellFormed(c) && GlobConfig(c)
    ensures GlobResult(s.sink, c.maxResults) == SortByPath(s.sink)
    ensures Joined(c, s) && s.truncated.None? ==>
              var result := GlobResult(s.sink, c.maxResults);
              Ordered(result) && forall m :: m in result <==> IsMatch(c, m)
  {
    Bounds(c, actions, s);
    if Joined(c, s) && s.truncated.None? {
      NothingMissed(c, actions, s);
      OncePerFile(c, actions, s);
      SortByPathOrdered(s.sink);
    }
  }

  lemma {:induction false} OncePerFile(c: Config, actions: seq<Action>, s: State)
    requires Reaches(c, actions, s) && WellFormed(c) && GlobConfig(c)
    ensures forall i, j :: 0 <= i < j < |s.sink| ==> s.sink[i].path != s.sink[j].path
  {
    Always(c, actions, s);
    forall i, j | 0 <= i < j < |s.sink|
      ensures s.sink[i].path != s.sink[j].path
    {
      var path := s.sink[i].path;
      assert s.sink[i] in s.sink;
      var e :| 0 <= e < |c.items| && c.items[e].path == path;
      assert |HitsOf(s.sink, path)| <= 1;
      if s.sink[j].path == path {
        TwoHits(s.sink, i, j);
      }
    }
  }

  lemma {:induction false} TwoHits(s: seq<Match>, i: nat, j: nat)
    requires i < j < |s| && s[i].path == s[j].path
    ensures |HitsOf(s, s[i].path)| >= 2
  {
    var a, b := HitsInOrder(s, i, j);
  }
}
