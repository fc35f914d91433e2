/** The parallel search walker (crates/lingtai-search-sidecar/src/main.rs):
    workers that share atomics, a stop flag, a first-wins truncation reason and
    a mutex-protected sink, as interleaved atomic steps. The directory walker
    is a contract: each unpruned entry goes to exactly one worker, and a worker
    that returned Quit takes no more entries. */
module SearchWalk {
  import opened Wrappers

  // Paths are numbered in their sort order.
  datatype Hit = Hit(line: nat, text: string)
  datatype Match = Match(path: nat, hit: Hit)

  // ----- what one entry contributes -----

  type Bytes = seq<int>

  datatype ReadError = PermissionDenied | OtherError

  datatype Content =
    | WalkError
    | NotAFile
    | NoMetadata
    | File(size: nat, read: Result<Bytes, ReadError>)

  // The regex engine and the UTF-8 check, as total functions of a buffer.
  datatype Engine = Engine(isMatch: Bytes -> bool, search: Bytes -> seq<Hit>, isUtf8: Bytes -> bool)

  predicate Text(engine: Engine, bytes: Bytes) {
    0 !in bytes[..if |bytes| < 4096 then |bytes| else 4096] && engine.isUtf8(bytes)
  }

  // The lines a worker collects from an entry before it commits them.
  function Collect(engine: Engine, maxFileBytes: nat, c: Content): seq<Hit> {
    if !c.File? || c.size > maxFileBytes || c.read.Err? then []
    else if !Text(engine, c.read.value) || !engine.isMatch(c.read.value) then []
    else engine.search(c.read.value)
  }

  // ----- the shared state -----

  datatype Reason = Visited | Walltime | MaxResults

  // One unpruned entry and the hits it has to commit; glob entries have at most one.
  datatype Item = Item(path: nat, hits: seq<Hit>)

  datatype Config = Config(grep: bool, items: seq<Item>, maxResults: nat, maxVisited: nat, workers: nat)

  datatype Pc =
    | Ready
    | Started(e: nat)              // got an entry
    | Entered(e: nat)              // saw no stop
    | Counted(e: nat, visited: nat)
    | Timing(e: nat)
    | Inspecting(e: nat)
    | WantLock(e: nat)             // grep: has hits to commit
    | Fetching(e: nat, i: nat)     // about to take a result slot for hit i
    | Pushing(e: nat, i: nat)      // got a slot
    | Tripped(reason: Reason)      // about to record a truncation
    | Storing                      // about to set the stop flag
    | Quit

  datatype State = State(
    visited: nat,
    count: nat,                    // matches_count
    truncated: Option<Reason>,
    stop: bool,
    lock: Option<nat>,             // who holds the sink mutex
    pcs: seq<Pc>,
    sink: seq<Match>,
    // history
    handed: set<nat>,              // entries handed out to some worker
    done: set<nat>,                // entries a worker finished with Continue
    abandoned: set<nat>,           // entries dropped by a Quit
    pushed: seq<nat>,              // per entry, how many hits are in the sink
    pushing: set<nat>,             // workers that hold a slot
    over: set<nat>,                // workers that counted past max_visited
    counted: set<nat>,             // entries counted as visited
    fetched: set<(nat, nat)>)      // hits (entry, index) a result slot was asked for

  function Init(c: Config): State {
    State(0, 0, None, false, None, seq(c.workers, _ => Ready), [], {}, {}, {}, seq(|c.items|, _ => 0), {}, {}, {}, {})
  }

  datatype Action =
    | Take(w: nat, e: nat)
    | CheckStop(w: nat, seen: bool)   // a relaxed load may still see false
    | CountVisit(w: nat)
    | CheckVisited(w: nat)
    | CheckWalltime(w: nat, over: bool)
    | Inspect(w: nat)
    | Lock(w: nat)
    | Fetch(w: nat)
    | Push(w: nat)
    | SetReason(w: nat, reason: Reason)
    | StoreStop(w: nat)

  predicate PcShape(c: Config, pc: Pc) {
    && Entry(pc) < |c.items|
    && (HitIndex(pc) >= 0 ==> HitIndex(pc) < |c.items[Entry(pc)].hits|)
    && (pc.WantLock? ==> c.items[pc.e].hits != [])
  }

  ghost predicate Shape(c: Config, s: State) {
    && |s.pcs| == c.workers
    && |s.pushed| == |c.items|
    && (forall w :: 0 <= w < |s.pcs| ==> PcShape(c, s.pcs[w]))
  }

  // The entry a worker is processing, -1 if none.
  function Entry(pc: Pc): (e: int)
    ensures e >= -1
  {
    match pc
    case Ready => -1
    case Tripped(_) => -1
    case Storing => -1
    case Quit => -1
    case _ => pc.e
  }

  function HitIndex(pc: Pc): (i: int)
    ensures i >= -1
    ensures i >= 0 ==> Entry(pc) >= 0
  {
    if pc.Fetching? || pc.Pushing? then pc.i else -1
  }

  ghost predicate Enabled(c: Config, a: Action, s: State)
    requires Shape(c, s)
  {
    && a.w < |s.pcs|
    && var pc := s.pcs[a.w];
    match a
    case Take(_, e) => pc == Ready && e < |c.items| && e !in s.handed
    case CheckStop(_, seen) => pc.Started? && (seen ==> s.stop)
    case CountVisit(_) => pc.Entered?
    case CheckVisited(_) => pc.Counted?
    case CheckWalltime(_, _) => pc.Timing?
    case Inspect(_) => pc.Inspecting?
    case Lock(_) => pc.WantLock? && s.lock.None?
    case Fetch(_) => pc.Fetching?
    case Push(_) => pc.Pushing?
    case SetReason(_, reason) => pc == Tripped(reason)
    case StoreStop(_) => pc.Storing?
  }

  function Goto(s: State, w: nat, pc: Pc): State
    requires w < |s.pcs|
  {
    s.(pcs := s.pcs[w := pc])
  }

  // The worker gives up its entry.
  function Drop(s: State, w: nat, pc: Pc): State
    requires w < |s.pcs| && Entry(s.pcs[w]) >= 0
  {
    Goto(s, w, pc).(abandoned := s.abandoned + {Entry(s.pcs[w])})
  }

  // The worker is through with its entry.
  function Finish(s: State, w: nat): State
    requires w < |s.pcs| && Entry(s.pcs[w]) >= 0
  {
    Goto(s, w, Ready).(done := s.done + {Entry(s.pcs[w])})
  }

  ghost function Do(c: Config, a: Action, s: State): State
    requires Shape(c, s) && Enabled(c, a, s)
  {
    var w, pc := a.w, s.pcs[a.w];
    match a
    case Take(_, e) => Goto(s, w, Started(e)).(handed := s.handed + {e})
    case CheckStop(_, seen) => if seen then Drop(s, w, Quit) else Goto(s, w, Entered(pc.e))
    case CountVisit(_) =>
      Goto(s, w, Counted(pc.e, s.visited + 1)).(visited := s.visited + 1, counted := s.counted + {pc.e},
        over := if s.visited + 1 > c.maxVisited then s.over + {w} else s.over)
    case CheckVisited(_) => if pc.visited > c.maxVisited then Drop(s, w, Tripped(Visited)) else Goto(s, w, Timing(pc.e))
    case CheckWalltime(_, over) => if over then Drop(s, w, Tripped(Walltime)) else Goto(s, w, Inspecting(pc.e))
    case Inspect(_) =>
      if c.items[pc.e].hits == [] then Finish(s, w)
      else Goto(s, w, if c.grep then WantLock(pc.e) else Fetching(pc.e, 0))
    case Lock(_) => Goto(s, w, Fetching(pc.e, 0)).(lock := Some(w))
    case Fetch(_) =>
      var s' := s.(count := s.count + 1, fetched := s.fetched + {(pc.e, pc.i)});
      if s.count + 1 > c.maxResults then Drop(s', w, Tripped(MaxResults))
      else Goto(s', w, Pushing(pc.e, pc.i)).(pushing := s.pushing + {w})
    case Push(_) =>
      var s' := s.(sink := s.sink + [Match(c.items[pc.e].path, c.items[pc.e].hits[pc.i])],
                   pushed := s.pushed[pc.e := pc.i + 1], pushing := s.pushing - {w});
      if pc.i + 1 < |c.items[pc.e].hits| then Goto(s', w, Fetching(pc.e, pc.i + 1))
      else Finish(s', w).(lock := if s.lock == Some(w) then None else s.lock)
    case SetReason(_, reason) =>
      Goto(s, w, Storing).(truncated := if s.truncated.None? then Some(reason) else s.truncated)
    case StoreStop(_) => Goto(s, w, Quit).(stop := true, lock := if s.lock == Some(w) then None else s.lock)
  }

  // A step moves only the worker that takes it.
  lemma {:induction false} OneWorker(c: Config, a: Action, s: State)
    requires Shape(c, s) && Enabled(c, a, s)
    ensures var s' := Do(c, a, s);
            s'.pcs == s.pcs[a.w := s'.pcs[a.w]] && |s'.pushed| == |s.pushed|
  {
  }

  lemma {:induction false} NewPcShape(c: Config, a: Action, s: State)
    requires Shape(c, s) && Enabled(c, a, s)
    ensures var s' := Do(c, a, s); a.w < |s'.pcs| && PcShape(c, s'.pcs[a.w])
  {
    assert PcShape(c, s.pcs[a.w]);
  }

  lemma {:induction false} ShapeStep(c: Config, a: Action, s: State)
    requires Shape(c, s) && Enabled(c, a, s)
    ensures Shape(c, Do(c, a, s))
  {
    OneWorker(c, a, s);
    NewPcShape(c, a, s);
  }

  // A run: enabled steps, one after the other, from the start of the walk.
  ghost predicate Reaches(c: Config, actions: seq<Action>, s: State)
    decreases |actions|
  {
    if actions == [] then
      s == Init(c)
    else
      var last := actions[|actions| - 1];
      exists prev :: Reaches(c, actions[..|actions| - 1], prev) && Shape(c, prev) && Enabled(c, last, prev)
                     && s == Do(c, last, prev)
  }

  // The walk is over: every worker has quit or has nothing left to take.
  ghost predicate Joined(c: Config, s: State) {
    && (forall w :: 0 <= w < |s.pcs| ==> s.pcs[w] == Ready || s.pcs[w] == Quit)
    && ((forall w :: 0 <= w < |s.pcs| ==> s.pcs[w] == Ready) ==> forall e: nat :: e < |c.items| ==> e in s.handed)
  }

  // ----- bounds -----

  function Min(a: nat, b: nat): nat {
    if a < b then a else b
  }

  ghost predicate SlotInv(c: Config, s: State) {
    && (forall w: nat :: w in s.pushing <==> w < |s.pcs| && s.pcs[w].Pushing?)
    && |s.sink| + |s.pushing| == Min(s.count, c.maxResults)
  }

  predicate CountedOver(c: Config, pc: Pc) {
    pc.Tripped? || pc.Storing? || pc.Quit? || (pc.Counted? && pc.visited > c.maxVisited)
  }

  ghost predicate VisitInv(c: Config, s: State) {
    && s.visited <= c.maxVisited + |s.over|
    && (forall w <- s.over :: w < |s.pcs| && CountedOver(c, s.pcs[w]))
  }

  ghost predicate PcReason(c: Config, s: State, pc: Pc) {
    && (pc.Storing? || pc.Quit? ==> s.truncated.Some?)
    && (pc == Tripped(MaxResults) ==> s.count > c.maxResults)
  }

  ghost predicate ReasonInv(c: Config, s: State) {
    && (s.stop ==> s.truncated.Some?)
    && (s.truncated == Some(MaxResults) ==> s.count > c.maxResults)
    && (forall w :: 0 <= w < |s.pcs| ==> PcReason(c, s, s.pcs[w]))
  }

  // An entry is dropped only when a truncation is recorded or about to be.
  ghost predicate DropInv(s: State) {
    s.abandoned != {} ==> s.truncated.Some? || exists w :: 0 <= w < |s.pcs| && s.pcs[w].Tripped?
  }

  lemma {:induction false} SlotFrame(c: Config, a: Action, s: State)
    requires Shape(c, s) && Enabled(c, a, s) && !a.Fetch? && !a.Push?
    ensures var s' := Do(c, a, s);
            && s'.sink == s.sink && s'.pushed == s.pushed && s'.count == s.count && s'.pushing == s.pushing
            && s'.pcs == s.pcs[a.w := s'.pcs[a.w]] && !s'.pcs[a.w].Pushing? && !s.pcs[a.w].Pushing?
  {
  }

  lemma {:induction false} SlotStep(c: Config, a: Action, s: State)
    requires Shape(c, s) && Enabled(c, a, s) && SlotInv(c, s)
    ensures SlotInv(c, Do(c, a, s))
  {
    if a.Fetch? {
      assert a.w !in s.pushing;
    } else if a.Push? {
      assert a.w in s.pushing;
    } else {
      SlotFrame(c, a, s);
    }
  }

  // Once over, a worker never takes another entry.
  lemma {:induction false} VisitFrame(c: Config, a: Action, s: State)
    requires Shape(c, s) && Enabled(c, a, s) && !a.CountVisit?
    ensures var s' := Do(c, a, s);
            s'.visited == s.visited && s'.over == s.over && (CountedOver(c, s.pcs[a.w]) ==> CountedOver(c, s'.pcs[a.w]))
  {
  }

  lemma {:induction false} VisitCounted(c: Config, a: Action, s: State)
    requires Shape(c, s) && Enabled(c, a, s) && a.CountVisit? && a.w !in s.over && s.visited <= c.maxVisited + |s.over|
    ensures var s' := Do(c, a, s);
            && s'.visited <= c.maxVisited + |s'.over| && s'.over <= s.over + {a.w}
            && (a.w in s'.over ==> CountedOver(c, s'.pcs[a.w]))
  {
    assert |s.over + {a.w}| == |s.over| + 1;
  }

  lemma {:induction false} VisitStep(c: Config, a: Action, s: State)
    requires Shape(c, s) && Enabled(c, a, s) && VisitInv(c, s)
    ensures VisitInv(c, Do(c, a, s))
  {
    OneWorker(c, a, s);
    if a.CountVisit? {
      VisitCounted(c, a, s);
    } else {
      VisitFrame(c, a, s);
    }
  }

  // Counts only grow, the first recorded reason stays, and the worker that
  // moves obeys the rules in its new place.
  lemma {:induction false} ReasonMove(c: Config, a: Action, s: State)
    requires Shape(c, s) && Enabled(c, a, s) && ReasonInv(c, s)
    ensures var s' := Do(c, a, s);
            && s'.count >= s.count
            && (s.truncated.Some? ==> s'.truncated == s.truncated)
            && (s'.stop ==> s'.truncated.Some?)
            && (s'.truncated == Some(MaxResults) ==> s'.count > c.maxResults)
            && a.w < |s'.pcs| && PcReason(c, s', s'.pcs[a.w])
  {
    assert PcReason(c, s, s.pcs[a.w]);
  }

  lemma {:induction false} ReasonStep(c: Config, a: Action, s: State)
    requires Shape(c, s) && Enabled(c, a, s) && ReasonInv(c, s)
    ensures ReasonInv(c, Do(c, a, s))
  {
    ReasonMove(c, a, s);
    OneWorker(c, a, s);
    assert forall w :: 0 <= w < |s.pcs| && w != a.w ==> PcReason(c, s, s.pcs[w]);
  }

  lemma {:induction false} DropStep(c: Config, a: Action, s: State)
    requires Shape(c, s) && Enabled(c, a, s) && ReasonInv(c, s) && DropInv(s)
    ensures DropInv(Do(c, a, s))
  {
    var s' := Do(c, a, s);
    if s.abandoned != {} && s.truncated.None? {
      var w :| 0 <= w < |s.pcs| && s.pcs[w].Tripped?;
      assert w != a.w ==> s'.pcs[w] == s.pcs[w];
    } else if s'.abandoned != s.abandoned {
      assert s'.pcs[a.w].Tripped? || s.stop;
    }
  }

  // ----- every entry is in one place -----

  ghost predicate OwnInv(pcs: seq<Pc>, handed: set<nat>, done: set<nat>, abandoned: set<nat>) {
    && done + abandoned <= handed && done !! abandoned
    && (forall w :: 0 <= w < |pcs| && Entry(pcs[w]) >= 0 ==>
          Entry(pcs[w]) in handed && Entry(pcs[w]) !in done && Entry(pcs[w]) !in abandoned)
    && (forall v, w :: 0 <= v < w < |pcs| && Entry(pcs[v]) >= 0 ==> Entry(pcs[v]) != Entry(pcs[w]))
    && (forall e <- handed :: e in done || e in abandoned || exists w :: 0 <= w < |pcs| && Entry(pcs[w]) == e)
  }

  // A step hands an entry out, keeps it, finishes it or drops it.
  lemma {:induction false} EntryMove(c: Config, a: Action, s: State)
    requires Shape(c, s) && Enabled(c, a, s)
    ensures var s' := Do(c, a, s);
            var e, e' := Entry(s.pcs[a.w]), Entry(s'.pcs[a.w]);
            if a.Take? then
              e == -1 && e' == a.e && a.e !in s.handed && s'.handed == s.handed + {a.e}
              && s'.done == s.done && s'.abandoned == s.abandoned
            else
              s'.handed == s.handed &&
              if e == e' then s'.done == s.done && s'.abandoned == s.abandoned
              else e >= 0 && e' == -1
                   && ((s'.done == s.done + {e} && s'.abandoned == s.abandoned)
                       || (s'.done == s.done && s'.abandoned == s.abandoned + {e}))
  {
    OneWorker(c, a, s);
  }

  lemma {:induction false} OwnTake(pcs: seq<Pc>, handed: set<nat>, done: set<nat>, abandoned: set<nat>, w: nat, pc: Pc)
    requires OwnInv(pcs, handed, done, abandoned) && w < |pcs| && Entry(pcs[w]) == -1
    requires Entry(pc) >= 0 && Entry(pc) !in handed
    ensures OwnInv(pcs[w := pc], handed + {Entry(pc)}, done, abandoned)
  {
    var pcs' := pcs[w := pc];
    assert pcs'[w] == pc;
    forall e | e in handed && e !in done && e !in abandoned
      ensures exists v :: 0 <= v < |pcs'| && Entry(pcs'[v]) == e
    {
      var v :| 0 <= v < |pcs| && Entry(pcs[v]) == e;
      assert pcs'[v] == pcs[v];
    }
  }

  lemma {:induction false} OwnKeep(pcs: seq<Pc>, handed: set<nat>, done: set<nat>, abandoned: set<nat>, w: nat, pc: Pc)
    requires OwnInv(pcs, handed, done, abandoned) && w < |pcs| && Entry(pcs[w]) == Entry(pc)
    ensures OwnInv(pcs[w := pc], handed, done, abandoned)
  {
    var pcs' := pcs[w := pc];
    assert forall v :: 0 <= v < |pcs| ==> Entry(pcs'[v]) == Entry(pcs[v]);
    forall e | e in handed && e !in done && e !in abandoned
      ensures exists v :: 0 <= v < |pcs'| && Entry(pcs'[v]) == e
    {
      var v :| 0 <= v < |pcs| && Entry(pcs[v]) == e;
      assert Entry(pcs'[v]) == e;
    }
  }

  lemma {:induction false} OwnRelease(pcs: seq<Pc>, handed: set<nat>, done: set<nat>, abandoned: set<nat>,
                                      done': set<nat>, abandoned': set<nat>, w: nat, pc: Pc)
    requires OwnInv(pcs, handed, done, abandoned) && w < |pcs| && Entry(pcs[w]) >= 0 && Entry(pc) == -1
    requires (done' == done + {Entry(pcs[w])} && abandoned' == abandoned)
             || (done' == done && abandoned' == abandoned + {Entry(pcs[w])})
    ensures OwnInv(pcs[w := pc], handed, done', abandoned')
  {
    var pcs' := pcs[w := pc];
    assert forall v :: 0 <= v < |pcs| && v != w ==> pcs'[v] == pcs[v];
    forall e | e in handed && e !in done' && e !in abandoned'
      ensures exists v :: 0 <= v < |pcs'| && Entry(pcs'[v]) == e
    {
      var v :| 0 <= v < |pcs| && Entry(pcs[v]) == e;
      assert pcs'[v] == pcs[v];
    }
  }

  lemma {:induction false} OwnStep(c: Config, a: Action, s: State)
    requires Shape(c, s) && Enabled(c, a, s) && OwnInv(s.pcs, s.handed, s.done, s.abandoned)
    ensures var s' := Do(c, a, s); OwnInv(s'.pcs, s'.handed, s'.done, s'.abandoned)
  {
    var s' := Do(c, a, s);
    var pc := s'.pcs[a.w];
    OneWorker(c, a, s);
    EntryMove(c, a, s);
    if a.Take? {
      OwnTake(s.pcs, s.handed, s.done, s.abandoned, a.w, pc);
    } else if Entry(s.pcs[a.w]) == Entry(pc) {
      OwnKeep(s.pcs, s.handed, s.done, s.abandoned, a.w, pc);
    } else {
      OwnRelease(s.pcs, s.handed, s.done, s.abandoned, s'.done, s'.abandoned, a.w, pc);
    }
  }

  // ----- what is in the sink -----

  // The hits of one path, in sink order.
  function HitsOf(sink: seq<Match>, path: nat): seq<Hit> {
    if sink == [] then []
    else
      var last := sink[|sink| - 1];
      HitsOf(sink[..|sink| - 1], path) + (if last.path == path then [last.hit] else [])
  }

  lemma {:induction false} HitsOfAppend(sink: seq<Match>, m: Match, path: nat)
    ensures HitsOf(sink + [m], path) == HitsOf(sink, path) + (if m.path == path then [m.hit] else [])
  {
    assert (sink + [m])[..|sink|] == sink;
  }

  predicate DistinctPaths(items: seq<Item>) {
    forall i, j :: 0 <= i < j < |items| ==> items[i].path != items[j].path
  }

  ghost predicate SinkInv(items: seq<Item>, sink: seq<Match>, pushed: seq<nat>) {
    && |pushed| == |items|
    && (forall e :: 0 <= e < |items| ==>
          pushed[e] <= |items[e].hits| && HitsOf(sink, items[e].path) == items[e].hits[..pushed[e]])
    && (forall m <- sink :: exists e :: 0 <= e < |items| && items[e].path == m.path)
  }

  lemma {:induction false} SinkPush(items: seq<Item>, sink: seq<Match>, pushed: seq<nat>, e: nat)
    requires DistinctPaths(items) && SinkInv(items, sink, pushed)
    requires e < |items| && pushed[e] < |items[e].hits|
    ensures SinkInv(items, sink + [Match(items[e].path, items[e].hits[pushed[e]])], pushed[e := pushed[e] + 1])
  {
    var m := Match(items[e].path, items[e].hits[pushed[e]]);
    forall f | 0 <= f < |items|
      ensures HitsOf(sink + [m], items[f].path) == items[f].hits[..pushed[e := pushed[e] + 1][f]]
    {
      HitsOfAppend(sink, m, items[f].path);
    }
  }

  // How much of an entry is in the sink, by where the entry is.
  ghost predicate PcProgress(pushed: seq<nat>, pc: Pc) {
    var e, i := Entry(pc), HitIndex(pc);
    e >= 0 ==> e < |pushed| && pushed[e] == if i >= 0 then i else 0
  }

  ghost predicate ProgressInv(items: seq<Item>, pushed: seq<nat>, pcs: seq<Pc>, handed: set<nat>, done: set<nat>) {
    && |pushed| == |items|
    && (forall e: nat :: e < |items| && e !in handed ==> pushed[e] == 0)
    && (forall e: nat :: e < |items| && e in done ==> pushed[e] == |items[e].hits|)
    && (forall w :: 0 <= w < |pcs| ==> PcProgress(pushed, pcs[w]))
  }

  lemma {:induction false} ProgressPush(items: seq<Item>, pushed: seq<nat>, pcs: seq<Pc>, handed: set<nat>,
                                        done: set<nat>, abandoned: set<nat>, w: nat, pc: Pc, done': set<nat>)
    requires ProgressInv(items, pushed, pcs, handed, done) && OwnInv(pcs, handed, done, abandoned)
    requires w < |pcs| && pcs[w].Pushing? && pcs[w].e < |items|
    requires if pcs[w].i + 1 < |items[pcs[w].e].hits| then pc == Fetching(pcs[w].e, pcs[w].i + 1) && done' == done
             else pcs[w].i + 1 == |items[pcs[w].e].hits| && pc == Ready && done' == done + {pcs[w].e}
    ensures ProgressInv(items, pushed[pcs[w].e := pcs[w].i + 1], pcs[w := pc], handed, done')
  {
    var e, i := pcs[w].e, pcs[w].i;
    var pcs', pushed' := pcs[w := pc], pushed[e := i + 1];
    assert Entry(pcs[w]) == e;
    forall v | 0 <= v < |pcs'|
      ensures PcProgress(pushed', pcs'[v])
    {
      assert PcProgress(pushed, pcs[v]);
      assert v != w ==> Entry(pcs[v]) != e;
    }
  }

  // Any other step leaves the sink alone and finishes only entries without hits.
  lemma {:induction false} OtherDone(c: Config, a: Action, s: State)
    requires Shape(c, s) && Enabled(c, a, s) && !a.Push?
    ensures var s', e := Do(c, a, s), Entry(s.pcs[a.w]);
            && s'.pushed == s.pushed && s'.sink == s.sink
            && (s'.done == s.done || (e >= 0 && s'.done == s.done + {e} && c.items[e].hits == []
               && HitIndex(s.pcs[a.w]) < 0))
  {
  }

  lemma {:induction false} OtherPc(c: Config, a: Action, s: State)
    requires Shape(c, s) && Enabled(c, a, s) && !a.Push?
    requires PcProgress(s.pushed, s.pcs[a.w]) && forall e: nat :: e < |c.items| && e !in s.handed ==> s.pushed[e] == 0
    ensures var s' := Do(c, a, s); a.w < |s'.pcs| && PcProgress(s.pushed, s'.pcs[a.w])
  {
  }

  lemma {:induction false} PushEffect(c: Config, a: Action, s: State)
    requires Shape(c, s) && Enabled(c, a, s) && a.Push?
    ensures var s', pc := Do(c, a, s), s.pcs[a.w];
            var item := c.items[pc.e];
            && s'.pushed == s.pushed[pc.e := pc.i + 1] && s'.handed == s.handed
            && s'.sink == s.sink + [Match(item.path, item.hits[pc.i])]
            && s'.pcs == s.pcs[a.w := s'.pcs[a.w]]
            && if pc.i + 1 < |item.hits| then s'.pcs[a.w] == Fetching(pc.e, pc.i + 1) && s'.done == s.done
               else pc.i + 1 == |item.hits| && s'.pcs[a.w] == Ready && s'.done == s.done + {pc.e}
  {
    assert PcShape(c, s.pcs[a.w]);
  }

  ghost predicate ContentInv(c: Config, s: State) {
    && ProgressInv(c.items, s.pushed, s.pcs, s.handed, s.done)
    && SinkInv(c.items, s.sink, s.pushed)
  }

  lemma {:induction false} ProgressKeep(items: seq<Item>, pushed: seq<nat>, pcs: seq<Pc>, handed: set<nat>,
          done: set<nat>,
                                        w: nat, pc: Pc, handed': set<nat>, done': set<nat>)
    requires ProgressInv(items, pushed, pcs, handed, done) && w < |pcs| && PcProgress(pushed, pc)
    requires handed <= handed'
    requires forall e: nat :: e in done' && e < |items| ==> e in done || pushed[e] == |items[e].hits|
    ensures ProgressInv(items, pushed, pcs[w := pc], handed', done')
  {
  }

  lemma {:induction false} ContentPush(c: Config, a: Action, s: State)
    requires Shape(c, s) && Enabled(c, a, s) && a.Push? && DistinctPaths(c.items)
    requires OwnInv(s.pcs, s.handed, s.done, s.abandoned) && ContentInv(c, s)
    ensures ContentInv(c, Do(c, a, s))
  {
    var s', pc := Do(c, a, s), s.pcs[a.w];
    assert PcProgress(s.pushed, pc);
    PushEffect(c, a, s);
    SinkPush(c.items, s.sink, s.pushed, pc.e);
    ProgressPush(c.items, s.pushed, s.pcs, s.handed, s.done, s.abandoned, a.w, s'.pcs[a.w], s'.done);
  }

  lemma {:induction false} ContentOther(c: Config, a: Action, s: State)
    requires Shape(c, s) && Enabled(c, a, s) && !a.Push? && ContentInv(c, s)
    ensures ContentInv(c, Do(c, a, s))
  {
    var s', e := Do(c, a, s), Entry(s.pcs[a.w]);
    assert PcProgress(s.pushed, s.pcs[a.w]);
    OtherDone(c, a, s);
    OtherPc(c, a, s);
    OneWorker(c, a, s);
    EntryMove(c, a, s);
    ProgressKeep(c.items, s.pushed, s.pcs, s.handed, s.done, a.w, s'.pcs[a.w], s'.handed, s'.done);
  }

  // ----- every run -----

  ghost predicate Inv(c: Config, s: State) {
    && Shape(c, s) && SlotInv(c, s) && VisitInv(c, s) && ReasonInv(c, s) && DropInv(s)
    && OwnInv(s.pcs, s.handed, s.done, s.abandoned) && ContentInv(c, s)
  }

  lemma {:induction false} Start(c: Config)
    ensures Inv(c, Init(c))
  {
    var s := Init(c);
    assert forall w :: 0 <= w < |s.pcs| ==> s.pcs[w] == Ready;
  }

  lemma {:induction false} Always(c: Config, actions: seq<Action>, s: State)
    requires Reaches(c, actions, s) && DistinctPaths(c.items)
    ensures Inv(c, s)
    decreases |actions|
  {
    if actions == [] {
      Start(c);
    } else {
      var init, a := actions[..|actions| - 1], actions[|actions| - 1];
      var prev :| Reaches(c, init, prev) && Shape(c, prev) && Enabled(c, a, prev) && s == Do(c, a, prev);
      Always(c, init, prev);
      ShapeStep(c, a, prev);
      SlotStep(c, a, prev);
      VisitStep(c, a, prev);
      ReasonStep(c, a, prev);
      DropStep(c, a, prev);
      OwnStep(c, a, prev);
      if a.Push? {
        ContentPush(c, a, prev);
      } else {
        ContentOther(c, a, prev);
      }
    }
  }
}
