/** What the two searches return in terms of the tree they walk
    (crates/lingtai-search-sidecar/src/main.rs). */
module SearchTree {
  import opened Wrappers
  import opened SearchWalk
  import opened SearchResults
  import SearchEnds

  // One unpruned entry of the tree.
  datatype Node = Node(path: nat, content: Content)

  datatype Budget = Budget(maxResults: nat, maxVisited: nat, maxFileBytes: nat, workers: nat)

  ghost predicate DistinctNodes(tree: seq<Node>) {
    forall i, j :: 0 <= i < j < |tree| ==> tree[i].path != tree[j].path
  }

  // A searcher reports lines in ascending order.
  ghost predicate InOrder(engine: Engine) {
    forall bytes :: Ascending(engine.search(bytes))
  }

  // ----- grep -----

  function GrepItems(engine: Engine, maxFileBytes: nat, tree: seq<Node>): (r: seq<Item>)
    ensures |r| == |tree|
    ensures forall e :: 0 <= e < |tree| ==> r[e] == Item(tree[e].path, Collect(engine, maxFileBytes, tree[e].content))
  {
    seq(|tree|, e requires 0 <= e < |tree| => Item(tree[e].path, Collect(engine, maxFileBytes, tree[e].content)))
  }

  function GrepConfig(engine: Engine, b: Budget, tree: seq<Node>): Config {
    Config(true, GrepItems(engine, b.maxFileBytes, tree), b.maxResults, b.maxVisited, b.workers)
  }

  // A file that can be read, is no larger than allowed, and holds text: no zero
  // byte in its first 4096, and valid UTF-8.
  ghost predicate Eligible(engine: Engine, maxFileBytes: nat, c: Content) {
    && c.File? && c.size <= maxFileBytes && c.read.Ok?
    && (forall i :: 0 <= i < |c.read.value| && i < 4096 ==> c.read.value[i] != 0)
    && engine.isUtf8(c.read.value)
  }

  // A matching line of such a file of the tree.
  ghost predicate Matching(engine: Engine, maxFileBytes: nat, tree: seq<Node>, m: Match) {
    exists e :: 0 <= e < |tree| && tree[e].path == m.path && Eligible(engine, maxFileBytes, tree[e].content)
                && m.hit in engine.search(tree[e].content.read.value)
  }

  // The whole-buffer test accepts every such file that holds a matching line.
  ghost predicate FastPathAccepts(engine: Engine, maxFileBytes: nat, tree: seq<Node>) {
    forall e :: 0 <= e < |tree| && Eligible(engine, maxFileBytes, tree[e].content)
                && engine.search(tree[e].content.read.value) != [] ==>
      engine.isMatch(tree[e].content.read.value)
  }

  // What a worker collects from a file that is eligible and passes that test; nothing from others.
  lemma {:induction false} CollectIs(engine: Engine, maxFileBytes: nat, c: Content)
    ensures Collect(engine, maxFileBytes, c) ==
            if Eligible(engine, maxFileBytes, c) && engine.isMatch(c.read.value) then engine.search(c.read.value)
            else []
  {
    if c.File? && c.read.Ok? {
      var bytes := c.read.value;
      var head := bytes[..if |bytes| < 4096 then |bytes| else 4096];
      assert forall i :: 0 <= i < |head| ==> head[i] == bytes[i];
    }
  }

  ghost predicate Untruncated(c: Config, actions: seq<Action>, s: State) {
    Reaches(c, actions, s) && Joined(c, s) && s.truncated.None?
  }

  lemma {:induction false} GrepWellFormed(engine: Engine, b: Budget, tree: seq<Node>)
    requires DistinctNodes(tree) && InOrder(engine)
    ensures WellFormed(GrepConfig(engine, b, tree))
  {
  }

  // What a worker commits is part of what there is, and all of it behind an accepting test.
  lemma {:induction false} CollectedIsMatching(engine: Engine, b: Budget, tree: seq<Node>, m: Match)
    ensures IsMatch(GrepConfig(engine, b, tree), m) ==> Matching(engine, b.maxFileBytes, tree, m)
    ensures FastPathAccepts(engine, b.maxFileBytes, tree) ==>
              (IsMatch(GrepConfig(engine, b, tree), m) <==> Matching(engine, b.maxFileBytes, tree, m))
  {
    var c := GrepConfig(engine, b, tree);
    if IsMatch(c, m) {
      var e :| 0 <= e < |c.items| && c.items[e].path == m.path && m.hit in c.items[e].hits;
      CollectIs(engine, b.maxFileBytes, tree[e].content);
    }
    if FastPathAccepts(engine, b.maxFileBytes, tree) && Matching(engine, b.maxFileBytes, tree, m) {
      var e :| 0 <= e < |tree| && tree[e].path == m.path && Eligible(engine, b.maxFileBytes, tree[e].content)
               && m.hit in engine.search(tree[e].content.read.value);
      CollectIs(engine, b.maxFileBytes, tree[e].content);
      assert m.hit in c.items[e].hits;
    }
  }

  // A line of a file the test rejects is committed by no worker.
  lemma {:induction false} RejectedIsLost(engine: Engine, b: Budget, tree: seq<Node>, e: nat)
    requires DistinctNodes(tree) && e < |tree| && Eligible(engine, b.maxFileBytes, tree[e].content)
    requires engine.search(tree[e].content.read.value) != [] && !engine.isMatch(tree[e].content.read.value)
    ensures var m := Match(tree[e].path, engine.search(tree[e].content.read.value)[0]);
            Matching(engine, b.maxFileBytes, tree, m) && !IsMatch(GrepConfig(engine, b, tree), m)
  {
    var m := Match(tree[e].path, engine.search(tree[e].content.read.value)[0]);
    var c := GrepConfig(engine, b, tree);
    CollectIs(engine, b.maxFileBytes, tree[e].content);
    assert c.items[e].hits == [];
    forall k | 0 <= k < |c.items| && c.items[k].path == m.path
      ensures k == e
    {
    }
  }

  // Under every schedule an untruncated grep returns, in order, only matching lines
  // of eligible files; and all of them exactly if the whole-buffer test accepts
  // every file that has one.
  lemma {:induction false} GrepFindsMatches(engine: Engine, b: Budget, tree: seq<Node>, actions: seq<Action>, s: State)
    requires DistinctNodes(tree) && InOrder(engine) && Untruncated(GrepConfig(engine, b, tree), actions, s)
    ensures var result := Cap(Everything(s.sink), b.maxResults);
            && Ordered(result)
            && (forall m <- result :: Matching(engine, b.maxFileBytes, tree, m))
            && ((forall m :: Matching(engine, b.maxFileBytes, tree, m) ==> m in result)
                <==> FastPathAccepts(engine, b.maxFileBytes, tree))
  {
    var c, result := GrepConfig(engine, b, tree), Cap(Everything(s.sink), b.maxResults);
    GrepWellFormed(engine, b, tree);
    GrepIsExact(c, actions, s);
    forall m
      ensures IsMatch(c, m) ==> Matching(engine, b.maxFileBytes, tree, m)
      ensures FastPathAccepts(engine, b.maxFileBytes, tree) && Matching(engine, b.maxFileBytes, tree, m) ==> m in result
    {
      CollectedIsMatching(engine, b, tree, m);
    }
    if !FastPathAccepts(engine, b.maxFileBytes, tree) {
      var e :| 0 <= e < |tree| && Eligible(engine, b.maxFileBytes, tree[e].content)
               && engine.search(tree[e].content.read.value) != [] && !engine.isMatch(tree[e].content.read.value);
      RejectedIsLost(engine, b, tree, e);
    }
  }

  // Such a walk exists whenever the budgets cover the tree.
  lemma {:induction false} GrepCanComplete(engine: Engine, b: Budget, tree: seq<Node>)
    returns (actions: seq<Action>, s: State)
    requires DistinctNodes(tree) && InOrder(engine) && b.workers > 0
    requires |tree| <= b.maxVisited && SearchEnds.TotalHits(GrepItems(engine, b.maxFileBytes, tree)) <= b.maxResults
    ensures Untruncated(GrepConfig(engine, b, tree), actions, s)
  {
    GrepWellFormed(engine, b, tree);
    actions, s := SearchEnds.SomeRunCompletes(GrepConfig(engine, b, tree));
  }

  // The text "a\nb\n".
  const TWO_LINES: Bytes := [97, 10, 98, 10]

  // Pattern ^b: the line search tries each line, the whole-buffer test anchors at
  // the start of the buffer only. Such an engine finds line 2 and never returns it.
  lemma {:induction false} AnchoredPatternLosesLine(engine: Engine, b: Budget, actions: seq<Action>, s: State)
    requires InOrder(engine) && engine.isUtf8(TWO_LINES) && b.maxFileBytes >= 4
    requires engine.search(TWO_LINES) == [Hit(2, "b")] && !engine.isMatch(TWO_LINES)
    requires Untruncated(GrepConfig(engine, b, [Node(0, File(4, Ok(TWO_LINES)))]), actions, s)
    ensures Matching(engine, b.maxFileBytes, [Node(0, File(4, Ok(TWO_LINES)))], Match(0, Hit(2, "b")))
    ensures Match(0, Hit(2, "b")) !in Cap(Everything(s.sink), b.maxResults)
  {
    var tree := [Node(0, File(4, Ok(TWO_LINES)))];
    assert forall i :: 0 <= i < |TWO_LINES| ==> TWO_LINES[i] != 0;
    assert Eligible(engine, b.maxFileBytes, tree[0].content);
    RejectedIsLost(engine, b, tree, 0);
    GrepWellFormed(engine, b, tree);
    GrepIsExact(GrepConfig(engine, b, tree), actions, s);
  }

  // ----- glob -----

  // Glob looks at the type of an entry and its path, not at metadata or content.
  predicate IsFile(c: Content) {
    c.File? || c.NoMetadata?
  }

  predicate HasFile(tree: seq<Node>, path: nat) {
    exists e :: 0 <= e < |tree| && tree[e].path == path && (tree[e].content.File? || tree[e].content.NoMetadata?)
  }

  const FOUND := Hit(0, "")

  function GlobItems(matches: nat -> bool, tree: seq<Node>): (r: seq<Item>)
    ensures |r| == |tree|
    ensures forall e :: 0 <= e < |tree| ==>
              r[e] == Item(tree[e].path, if IsFile(tree[e].content) && matches(tree[e].path) then [FOUND] else [])
  {
    seq(|tree|, e requires 0 <= e < |tree| =>
      Item(tree[e].path, if IsFile(tree[e].content) && matches(tree[e].path) then [FOUND] else []))
  }

  function GlobWalk(matches: nat -> bool, b: Budget, tree: seq<Node>): Config {
    Config(false, GlobItems(matches, tree), b.maxResults, b.maxVisited, b.workers)
  }

  // Under every schedule an untruncated glob returns exactly the files whose path
  // matches, each once, in order.
  lemma {:induction false} GlobFindsFiles(matches: nat -> bool, b: Budget, tree: seq<Node>, actions: seq<Action>,
      s: State)
    requires DistinctNodes(tree) && Untruncated(GlobWalk(matches, b, tree), actions, s)
    ensures var result := GlobResult(s.sink, b.maxResults);
            && Ordered(result)
            && forall m :: m in result <==> m.hit == FOUND && matches(m.path) && HasFile(tree, m.path)
  {
    var c := GlobWalk(matches, b, tree);
    GlobIsExact(c, actions, s);
    forall m
      ensures IsMatch(c, m) <==> m.hit == FOUND && matches(m.path) && HasFile(tree, m.path)
    {
      if matches(m.path) && m.hit == FOUND && HasFile(tree, m.path) {
        var e :| 0 <= e < |tree| && tree[e].path == m.path && IsFile(tree[e].content);
        assert c.items[e].hits == [FOUND] && FOUND in c.items[e].hits;
      }
    }
  }
}
