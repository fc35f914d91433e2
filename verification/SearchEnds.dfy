/** How a walk ends (crates/lingtai-search-sidecar/src/main.rs): a joined walk
    was truncated exactly if some budget was overrun, no run goes on for ever,
    and every run can be carried on to a join. */
module SearchEnds {
  import opened Wrappers
  import opened SearchWalk

  // ----- what the counters count -----

  // The visit of the entry this worker processes has been counted.
  predicate PastCount(pc: Pc) {
    Entry(pc) >= 0 && !pc.Started? && !pc.Entered?
  }

  predicate PcCounted(counted: set<nat>, visited: nat, pc: Pc) {
    && (PastCount(pc) ==> Entry(pc) in counted)
    && (pc.Started? || pc.Entered? ==> pc.e !in counted)
    && (pc.Counted? ==> pc.visited <= visited)
  }

  // Each visit is counted once.
  ghost predicate CountedInv(c: Config, s: State) {
    && s.visited == |s.counted| && s.done <= s.counted <= s.handed
    && (forall e <- s.handed :: e < |c.items|)
    && (forall w :: 0 <= w < |s.pcs| ==> PcCounted(s.counted, s.visited, s.pcs[w]))
  }

  lemma {:induction false} CountedVisit(c: Config, a: Action, s: State)
    requires Shape(c, s) && OwnInv(s.pcs, s.handed, s.done, s.abandoned) && Enabled(c, a, s)
    requires CountedInv(c, s) && a.CountVisit?
    ensures CountedInv(c, Do(c, a, s))
  {
    var s', e := Do(c, a, s), s.pcs[a.w].e;
    assert PcCounted(s.counted, s.visited, s.pcs[a.w]) && Entry(s.pcs[a.w]) == e;
    forall w | 0 <= w < |s.pcs| && w != a.w
      ensures PcCounted(s'.counted, s'.visited, s'.pcs[w])
    {
      assert s'.pcs[w] == s.pcs[w] && PcCounted(s.counted, s.visited, s.pcs[w]);
      assert Entry(s.pcs[w]) != e;
    }
  }

  // Any other step counts nothing and finishes only what was counted.
  lemma {:induction false} CountedFrame(c: Config, a: Action, s: State)
    requires Shape(c, s) && Enabled(c, a, s) && !a.CountVisit?
    ensures var s' := Do(c, a, s);
            && s'.visited == s.visited && s'.counted == s.counted
            && (s'.done == s.done || (PastCount(s.pcs[a.w]) && s'.done == s.done + {Entry(s.pcs[a.w])}))
            && s'.handed == if a.Take? then s.handed + {a.e} else s.handed
  {
  }

  lemma {:induction false} CountedPc(c: Config, a: Action, s: State)
    requires Shape(c, s) && Enabled(c, a, s) && !a.CountVisit? && s.counted <= s.handed
    requires PcCounted(s.counted, s.visited, s.pcs[a.w])
    ensures var s' := Do(c, a, s); a.w < |s'.pcs| && PcCounted(s.counted, s.visited, s'.pcs[a.w])
  {
  }

  lemma {:induction false} CountedStep(c: Config, a: Action, s: State)
    requires Shape(c, s) && OwnInv(s.pcs, s.handed, s.done, s.abandoned) && Enabled(c, a, s)
    requires CountedInv(c, s)
    ensures CountedInv(c, Do(c, a, s))
  {
    if a.CountVisit? {
      CountedVisit(c, a, s);
    } else {
      OneWorker(c, a, s);
      assert PcCounted(s.counted, s.visited, s.pcs[a.w]);
      CountedFrame(c, a, s);
      CountedPc(c, a, s);
    }
  }

  // How many hits of its entry a worker has asked a slot for.
  function Asked(pc: Pc): nat {
    match pc
    case Fetching(_, i) => i
    case Pushing(_, i) => i + 1
    case _ => 0
  }

  ghost predicate PcFetched(fetched: set<(nat, nat)>, pc: Pc) {
    Entry(pc) >= 0 ==> forall x <- fetched :: x.0 == Entry(pc) ==> x.1 < Asked(pc)
  }

  ghost predicate PcsFetched(fetched: set<(nat, nat)>, pcs: seq<Pc>) {
    forall w :: 0 <= w < |pcs| ==> PcFetched(fetched, pcs[w])
  }

  // Each hit asks for a slot once.
  ghost predicate FetchedInv(c: Config, s: State) {
    && s.count == |s.fetched|
    && (forall x <- s.fetched :: x.0 in s.handed && x.0 < |c.items| && x.1 < |c.items[x.0].hits|)
    && PcsFetched(s.fetched, s.pcs)
  }

  lemma {:induction false} FetchEffect(c: Config, a: Action, s: State)
    requires Shape(c, s) && Enabled(c, a, s) && a.Fetch?
    ensures var s', pc := Do(c, a, s), s.pcs[a.w];
            && PcShape(c, pc) && s'.fetched == s.fetched + {(pc.e, pc.i)} && s'.count == s.count + 1
            && s'.handed == s.handed && s'.pcs == s.pcs[a.w := s'.pcs[a.w]]
            && (Entry(s'.pcs[a.w]) == -1 || s'.pcs[a.w] == Pushing(pc.e, pc.i))
  {
    assert PcShape(c, s.pcs[a.w]);
  }

  lemma {:induction false} FetchedFetch(c: Config, a: Action, s: State)
    requires Shape(c, s) && OwnInv(s.pcs, s.handed, s.done, s.abandoned) && Enabled(c, a, s)
    requires FetchedInv(c, s) && a.Fetch?
    ensures FetchedInv(c, Do(c, a, s))
  {
    var s', pc := Do(c, a, s), s.pcs[a.w];
    FetchEffect(c, a, s);
    assert PcFetched(s.fetched, pc) && Entry(pc) == pc.e;
    FetchedMore(s.pcs, s.fetched, s.handed, s.done, s.abandoned, a.w, s'.pcs[a.w]);
  }

  lemma {:induction false} FetchedMore(pcs: seq<Pc>, fetched: set<(nat, nat)>, handed: set<nat>, done: set<nat>,
                                       abandoned: set<nat>, w: nat, pc: Pc)
    requires OwnInv(pcs, handed, done, abandoned) && w < |pcs| && pcs[w].Fetching?
    requires PcsFetched(fetched, pcs)
    requires Entry(pc) == -1 || pc == Pushing(pcs[w].e, pcs[w].i)
    ensures (pcs[w].e, pcs[w].i) !in fetched && pcs[w].e in handed
    ensures PcsFetched(fetched + {(pcs[w].e, pcs[w].i)}, pcs[w := pc])
  {
    var pcs', fetched' := pcs[w := pc], fetched + {(pcs[w].e, pcs[w].i)};
    assert PcFetched(fetched, pcs[w]) && Entry(pcs[w]) == pcs[w].e;
    forall v | 0 <= v < |pcs|
      ensures PcFetched(fetched', pcs'[v])
    {
      assert PcFetched(fetched, pcs[v]);
      assert v != w ==> Entry(pcs[v]) != pcs[w].e;
    }
  }

  lemma {:induction false} FetchedFrame(c: Config, a: Action, s: State)
    requires Shape(c, s) && Enabled(c, a, s) && !a.Fetch?
    ensures var s' := Do(c, a, s);
            && s'.count == s.count && s'.fetched == s.fetched && s.handed <= s'.handed && a.w < |s'.pcs|
            && (Entry(s'.pcs[a.w]) == -1 || (Entry(s'.pcs[a.w]) == Entry(s.pcs[a.w]) && !a.Take?
                                             && Asked(s.pcs[a.w]) <= Asked(s'.pcs[a.w]))
                || (a.Take? && Entry(s'.pcs[a.w]) == a.e))
  {
  }

  lemma {:induction false} FetchedStep(c: Config, a: Action, s: State)
    requires Shape(c, s) && OwnInv(s.pcs, s.handed, s.done, s.abandoned) && Enabled(c, a, s)
    requires FetchedInv(c, s)
    ensures FetchedInv(c, Do(c, a, s))
  {
    if a.Fetch? {
      FetchedFetch(c, a, s);
    } else {
      var s' := Do(c, a, s);
      OneWorker(c, a, s);
      assert PcFetched(s.fetched, s.pcs[a.w]);
      FetchedFrame(c, a, s);
      assert PcFetched(s.fetched, s'.pcs[a.w]);
    }
  }

  // ----- why a walk is truncated -----

  // Some worker found the wall time spent.
  predicate Late(actions: seq<Action>) {
    actions != [] && (Late(actions[..|actions| - 1]) || LateAction(actions[|actions| - 1]))
  }

  predicate LateAction(a: Action) {
    a.CheckWalltime? && a.over
  }

  lemma {:induction false} LateMeans(actions: seq<Action>)
    ensures Late(actions) <==> exists a :: a in actions && LateAction(a)
  {
    if actions != [] {
      var init, last := actions[..|actions| - 1], actions[|actions| - 1];
      LateMeans(init);
      assert actions == init + [last];
    }
  }

  ghost predicate Tripping(s: State) {
    s.truncated.Some? || exists w :: 0 <= w < |s.pcs| && s.pcs[w].Tripped?
  }

  predicate PcCause(c: Config, late: bool, visited: nat, pc: Pc) {
    && (pc == Tripped(Visited) ==> visited > c.maxVisited)
    && (pc == Tripped(Walltime) ==> late)
  }

  // A reason is recorded only for its cause, and a cause never passes unrecorded.
  ghost predicate CauseInv(c: Config, late: bool, s: State) {
    && (forall w :: 0 <= w < |s.pcs| ==> PcCause(c, late, s.visited, s.pcs[w]))
    && (s.truncated == Some(Visited) ==> s.visited > c.maxVisited)
    && (s.truncated == Some(Walltime) ==> late)
    && (late || s.count > c.maxResults ==> Tripping(s))
    && (s.truncated.Some? ==> s.stop || exists w :: 0 <= w < |s.pcs| && s.pcs[w].Storing?)
  }

  lemma {:induction false} CausePc(c: Config, a: Action, s: State, late: bool)
    requires Shape(c, s) && Enabled(c, a, s) && PcCause(c, late, s.visited, s.pcs[a.w])
    requires PcCounted(s.counted, s.visited, s.pcs[a.w])
    ensures var s' := Do(c, a, s);
            a.w < |s'.pcs| && PcCause(c, late || LateAction(a), s'.visited, s'.pcs[a.w]) && s.visited <= s'.visited
  {
  }

  lemma {:induction false} CauseReason(c: Config, a: Action, s: State)
    requires Shape(c, s) && Enabled(c, a, s)
    ensures var s' := Do(c, a, s);
            && s'.truncated == (if a.SetReason? && s.truncated.None? then Some(a.reason) else s.truncated)
            && (a.SetReason? ==> s.pcs[a.w] == Tripped(a.reason))
            && (s.stop ==> s'.stop)
  {
  }

  // A worker that trips stays so until it has recorded a reason.
  lemma {:induction false} StaysTripping(c: Config, a: Action, s: State)
    requires Shape(c, s) && Enabled(c, a, s) && Tripping(s)
    ensures Tripping(Do(c, a, s))
  {
    var s' := Do(c, a, s);
    OneWorker(c, a, s);
    CauseReason(c, a, s);
    if s.truncated.None? {
      var w :| 0 <= w < |s.pcs| && s.pcs[w].Tripped?;
      assert w != a.w ==> s'.pcs[w] == s.pcs[w];
      assert w == a.w ==> a.SetReason?;
    }
  }

  lemma {:induction false} Trips(c: Config, a: Action, s: State)
    requires Shape(c, s) && Enabled(c, a, s) && (LateAction(a) || (a.Fetch? && s.count + 1 > c.maxResults))
    ensures Tripping(Do(c, a, s))
  {
    assert Do(c, a, s).pcs[a.w].Tripped?;
  }

  lemma {:induction false} CountFrame(c: Config, a: Action, s: State)
    requires Shape(c, s) && Enabled(c, a, s)
    ensures Do(c, a, s).count == if a.Fetch? then s.count + 1 else s.count
  {
  }

  // Between the reason and the stop flag stands the worker that sets it.
  lemma {:induction false} StopFollows(c: Config, a: Action, s: State)
    requires Shape(c, s) && Enabled(c, a, s)
    requires s.truncated.Some? ==> s.stop || exists w :: 0 <= w < |s.pcs| && s.pcs[w].Storing?
    ensures var s' := Do(c, a, s);
            s'.truncated.Some? ==> s'.stop || exists w :: 0 <= w < |s'.pcs| && s'.pcs[w].Storing?
  {
    var s' := Do(c, a, s);
    OneWorker(c, a, s);
    CauseReason(c, a, s);
    if a.SetReason? {
      assert s'.pcs[a.w].Storing?;
    } else if s.truncated.Some? && !s.stop {
      var w :| 0 <= w < |s.pcs| && s.pcs[w].Storing?;
      assert w != a.w ==> s'.pcs[w] == s.pcs[w];
      assert w == a.w ==> a.StoreStop? && s'.stop;
    }
  }

  lemma {:induction false} CauseStep(c: Config, a: Action, s: State, late: bool)
    requires Shape(c, s) && Enabled(c, a, s) && CountedInv(c, s) && CauseInv(c, late, s)
    ensures CauseInv(c, late || LateAction(a), Do(c, a, s))
  {
    var s', late' := Do(c, a, s), late || LateAction(a);
    OneWorker(c, a, s);
    assert PcCounted(s.counted, s.visited, s.pcs[a.w]) && PcCause(c, late, s.visited, s.pcs[a.w]);
    CausePc(c, a, s, late);
    CauseReason(c, a, s);
    CountFrame(c, a, s);
    StopFollows(c, a, s);
    if late' || s'.count > c.maxResults {
      if late || s.count > c.maxResults {
        StaysTripping(c, a, s);
      } else {
        Trips(c, a, s);
      }
    }
    forall w | 0 <= w < |s.pcs|
      ensures PcCause(c, late', s'.visited, s'.pcs[w])
    {
      assert PcCause(c, late, s.visited, s.pcs[w]);
    }
  }

  lemma {:induction false} AllStep(c: Config, a: Action, s: State, late: bool)
    requires Shape(c, s) && OwnInv(s.pcs, s.handed, s.done, s.abandoned) && Enabled(c, a, s)
    requires CountedInv(c, s) && FetchedInv(c, s) && CauseInv(c, late, s)
    ensures var s' := Do(c, a, s); CountedInv(c, s') && FetchedInv(c, s') && CauseInv(c, late || LateAction(a), s')
  {
    CountedStep(c, a, s);
    FetchedStep(c, a, s);
    CauseStep(c, a, s, late);
  }

  lemma {:induction false} CausesStart(c: Config)
    ensures var s := Init(c); CountedInv(c, s) && FetchedInv(c, s) && CauseInv(c, false, s)
  {
    var s := Init(c);
    assert forall w :: 0 <= w < |s.pcs| ==> s.pcs[w] == Ready;
  }

  lemma {:induction false} OwnAlways(c: Config, actions: seq<Action>, s: State)
    requires Reaches(c, actions, s) && DistinctPaths(c.items)
    ensures Shape(c, s) && OwnInv(s.pcs, s.handed, s.done, s.abandoned)
  {
    Always(c, actions, s);
  }

  lemma {:induction false} CausesAlways(c: Config, actions: seq<Action>, s: State)
    requires Reaches(c, actions, s) && DistinctPaths(c.items)
    ensures CountedInv(c, s) && FetchedInv(c, s) && CauseInv(c, Late(actions), s)
    decreases |actions|
  {
    if actions == [] {
      CausesStart(c);
    } else {
      var init, a := actions[..|actions| - 1], actions[|actions| - 1];
      var prev :| Reaches(c, init, prev) && Shape(c, prev) && Enabled(c, a, prev) && s == Do(c, a, prev);
      OwnAlways(c, init, prev);
      CausesAlways(c, init, prev);
      AllStep(c, a, prev, Late(init));
    }
  }

  // The recorded reason is one that occurred; a joined walk recorded one, and
  // raised the stop flag, exactly if one occurred.
  lemma {:induction false} WhyTruncated(c: Config, actions: seq<Action>, s: State)
    requires Reaches(c, actions, s) && DistinctPaths(c.items)
    ensures s.truncated == Some(Visited) ==> s.visited > c.maxVisited
    ensures s.truncated == Some(MaxResults) ==> s.count > c.maxResults
    ensures s.truncated == Some(Walltime) ==> Late(actions)
    ensures Joined(c, s) ==>
              (s.truncated.Some? <==> s.visited > c.maxVisited || s.count > c.maxResults || Late(actions))
    ensures Joined(c, s) ==> (s.stop <==> s.truncated.Some?)
  {
    CausesAlways(c, actions, s);
    ReasonsAlways(c, actions, s);
    if Joined(c, s) {
      if s.visited > c.maxVisited {
        OverIsRecorded(c, s);
      }
      NothingOpen(c, s, Late(actions));
    }
    match s.truncated
    case None =>
    case Some(Visited) =>
    case Some(Walltime) =>
    case Some(MaxResults) =>
  }

  lemma {:induction false} ReasonsAlways(c: Config, actions: seq<Action>, s: State)
    requires Reaches(c, actions, s) && DistinctPaths(c.items)
    ensures Shape(c, s) && VisitInv(c, s) && ReasonInv(c, s) && DropInv(s)
  {
    Always(c, actions, s);
  }

  lemma {:induction false} OverIsRecorded(c: Config, s: State)
    requires Shape(c, s) && VisitInv(c, s) && ReasonInv(c, s) && Joined(c, s) && s.visited > c.maxVisited
    ensures s.truncated.Some?
  {
    assert s.over != {};
    var w :| w in s.over;
    assert CountedOver(c, s.pcs[w]) && PcReason(c, s, s.pcs[w]);
  }

  lemma {:induction false} NothingOpen(c: Config, s: State, late: bool)
    requires ReasonInv(c, s) && CauseInv(c, late, s) && Joined(c, s)
    ensures late || s.count > c.maxResults ==> s.truncated.Some?
    ensures s.stop <==> s.truncated.Some?
  {
  }

  // A walk that was not truncated has visited every entry once.
  lemma {:induction false} AllVisited(c: Config, actions: seq<Action>, s: State)
    requires Reaches(c, actions, s) && DistinctPaths(c.items) && Joined(c, s) && s.truncated.None?
    ensures s.visited == |c.items|
  {
    CausesAlways(c, actions, s);
    OwnAlways(c, actions, s);
    ReasonsAlways(c, actions, s);
    AllDone(c, s);
    assert s.counted == Upto(|c.items|);
  }

  lemma {:induction false} AllDone(c: Config, s: State)
    requires ReasonInv(c, s) && DropInv(s) && OwnInv(s.pcs, s.handed, s.done, s.abandoned)
    requires Joined(c, s) && s.truncated.None?
    ensures forall e: nat :: e < |c.items| ==> e in s.done
  {
    assert forall w :: 0 <= w < |s.pcs| ==> PcReason(c, s, s.pcs[w]);
    assert forall w :: 0 <= w < |s.pcs| ==> s.pcs[w] == Ready;
    forall e: nat | e < |c.items|
      ensures e in s.done
    {
      assert e in s.handed;
    }
  }

  function Upto(n: nat): (r: set<nat>)
    ensures |r| == n && (forall e <- r :: e < n) && forall e: nat :: e < n ==> e in r
  {
    if n == 0 then {}
    else
      assert n - 1 !in Upto(n - 1);
      Upto(n - 1) + {n - 1}
  }

  // ----- when the budgets suffice -----

  function TotalHits(items: seq<Item>): nat {
    if items == [] then 0 else TotalHits(items[..|items| - 1]) + |items[|items| - 1].hits|
  }

  // The first n hits of entry e.
  function HitSlots(e: nat, n: nat): (r: set<(nat, nat)>)
    ensures |r| == n && forall x :: x in r <==> x.0 == e && x.1 < n
  {
    if n == 0 then {}
    else
      assert (e, n - 1) !in HitSlots(e, n - 1);
      HitSlots(e, n - 1) + {(e, n - 1)}
  }

  function Slots(items: seq<Item>): (r: set<(nat, nat)>)
    ensures |r| == TotalHits(items)
    ensures forall x :: x in r <==> x.0 < |items| && x.1 < |items[x.0].hits|
  {
    if items == [] then {}
    else
      var n := |items| - 1;
      assert Slots(items[..n]) !! HitSlots(n, |items[n].hits|);
      Slots(items[..n]) + HitSlots(n, |items[n].hits|)
  }

  lemma {:induction false} Subset<T>(a: set<T>, b: set<T>)
    requires a <= b
    ensures |a| <= |b|
  {
    assert b == a + (b - a);
  }

  // Neither counter can pass the size of the tree, whatever the schedule.
  lemma {:induction false} CountersBounded(c: Config, actions: seq<Action>, s: State)
    requires Reaches(c, actions, s) && DistinctPaths(c.items)
    ensures s.visited <= |c.items| && s.count <= TotalHits(c.items)
  {
    CausesAlways(c, actions, s);
    Subset(s.counted, Upto(|c.items|));
    Subset(s.fetched, Slots(c.items));
  }

  // A walk whose budgets cover the tree is not truncated under any schedule.
  lemma {:induction false} EnoughBudget(c: Config, actions: seq<Action>, s: State)
    requires Reaches(c, actions, s) && DistinctPaths(c.items)
    requires |c.items| <= c.maxVisited && TotalHits(c.items) <= c.maxResults && !Late(actions)
    ensures s.truncated.None?
  {
    WhyTruncated(c, actions, s);
    CountersBounded(c, actions, s);
    match s.truncated
    case None =>
    case Some(Visited) =>
    case Some(Walltime) =>
    case Some(MaxResults) =>
  }

  // ----- quitting -----

  lemma {:induction false} PrefixStep(c: Config, actions: seq<Action>, s: State, j: nat) returns (prev: State)
    requires Reaches(c, actions, s) && j < |actions|
    ensures Reaches(c, actions[..j], prev) && Shape(c, prev) && Enabled(c, actions[j], prev)
    decreases |actions|
  {
    var init, last := actions[..|actions| - 1], actions[|actions| - 1];
    prev :| Reaches(c, init, prev) && Shape(c, prev) && Enabled(c, last, prev) && s == Do(c, last, prev);
    if j < |init| {
      prev := PrefixStep(c, init, prev, j);
      assert init[..j] == actions[..j];
    } else {
      assert init == actions[..j];
    }
  }

  predicate Quits(a: Action) {
    a.StoreStop? || (a.CheckStop? && a.seen)
  }

  lemma {:induction false} QuitStep(c: Config, a: Action, s: State, w: nat)
    requires Shape(c, s) && Enabled(c, a, s) && w < |s.pcs| && (s.pcs[w] == Quit || (a.w == w && Quits(a)))
    ensures var s' := Do(c, a, s); w < |s'.pcs| && s'.pcs[w] == Quit
  {
    OneWorker(c, a, s);
  }

  // Worker w has quit, now or with the last step.
  lemma {:induction false} LastStep(c: Config, actions: seq<Action>, s: State, w: nat) returns (prev: State)
    requires Reaches(c, actions, s) && actions != []
    ensures Reaches(c, actions[..|actions| - 1], prev)
    ensures HasQuit(prev, w) || (actions[|actions| - 1].w == w && Quits(actions[|actions| - 1])) ==> HasQuit(s, w)
  {
    var last := actions[|actions| - 1];
    prev :| Reaches(c, actions[..|actions| - 1], prev) && Shape(c, prev) && Enabled(c, last, prev)
            && s == Do(c, last, prev);
    if HasQuit(prev, w) || (last.w == w && Quits(last)) {
      QuitStep(c, last, prev, w);
    }
  }

  predicate HasQuit(s: State, w: nat) {
    w < |s.pcs| && s.pcs[w] == Quit
  }

  lemma {:induction false} StaysQuit(c: Config, actions: seq<Action>, s: State, i: nat)
    requires Reaches(c, actions, s) && i < |actions| && Quits(actions[i])
    ensures HasQuit(s, actions[i].w)
    decreases |actions|
  {
    var prev := LastStep(c, actions, s, actions[i].w);
    if i < |actions| - 1 {
      StaysQuit(c, actions[..|actions| - 1], prev, i);
    }
  }

  // A worker that saw the stop flag, or raised it, takes no further step.
  lemma {:induction false} QuitIsFinal(c: Config, actions: seq<Action>, s: State, i: nat, j: nat)
    requires Reaches(c, actions, s) && i < j < |actions| && Quits(actions[i])
    ensures actions[j].w != actions[i].w
  {
    var prev := PrefixStep(c, actions, s, j);
    StaysQuit(c, actions[..j], prev, i);
  }

  // ----- the lock -----

  // Who holds the sink.
  predicate Inside(pc: Pc) {
    pc.Fetching? || pc.Pushing? || pc.Tripped? || pc.Storing?
  }

  ghost predicate LockInv(c: Config, s: State) {
    && (s.lock.Some? ==> s.lock.value < |s.pcs| && Inside(s.pcs[s.lock.value]))
    && (c.grep ==> forall w :: 0 <= w < |s.pcs| && HitIndex(s.pcs[w]) >= 0 ==> s.lock == Some(w))
  }

  lemma {:induction false} LockMove(c: Config, a: Action, s: State)
    requires Shape(c, s) && Enabled(c, a, s) && (s.lock == Some(a.w) ==> Inside(s.pcs[a.w]))
    requires c.grep && HitIndex(s.pcs[a.w]) >= 0 ==> s.lock == Some(a.w)
    ensures var s' := Do(c, a, s);
            && a.w < |s'.pcs|
            && (s'.lock == Some(a.w) ==> Inside(s'.pcs[a.w]))
            && (c.grep && HitIndex(s'.pcs[a.w]) >= 0 ==> s'.lock == Some(a.w))
            && (s'.lock == s.lock || (s'.lock == None && s.lock == Some(a.w))
                || (s'.lock == Some(a.w) && s.lock == None))
  {
  }

  lemma {:induction false} LockStep(c: Config, a: Action, s: State)
    requires Shape(c, s) && Enabled(c, a, s) && LockInv(c, s)
    ensures LockInv(c, Do(c, a, s))
  {
    OneWorker(c, a, s);
    LockMove(c, a, s);
  }

  lemma {:induction false} LockAlways(c: Config, actions: seq<Action>, s: State)
    requires Reaches(c, actions, s)
    ensures LockInv(c, s)
    decreases |actions|
  {
    if actions != [] {
      var init, a := actions[..|actions| - 1], actions[|actions| - 1];
      var prev :| Reaches(c, init, prev) && Shape(c, prev) && Enabled(c, a, prev) && s == Do(c, a, prev);
      LockAlways(c, init, prev);
      LockStep(c, a, prev);
    }
  }

  // Under grep at most one worker is between two of its hits.
  lemma {:induction false} OneCommitter(c: Config, actions: seq<Action>, s: State, v: nat, w: nat)
    requires Reaches(c, actions, s) && c.grep && v < |s.pcs| && w < |s.pcs|
    requires HitIndex(s.pcs[v]) >= 0 && HitIndex(s.pcs[w]) >= 0
    ensures v == w
  {
    LockAlways(c, actions, s);
  }

  // ----- every run ends -----

  function HitsLeft(c: Config, e: nat, i: nat): nat {
    if e < |c.items| && i < |c.items[e].hits| then |c.items[e].hits| - i else 0
  }

  // How many steps a worker can still take before it is ready for another entry.
  function Rank(c: Config, pc: Pc): nat {
    match pc
    case Ready => 0
    case Quit => 0
    case Storing => 1
    case Tripped(_) => 2
    case Pushing(e, i) => 2 * HitsLeft(c, e, i) + 2
    case Fetching(e, i) => 2 * HitsLeft(c, e, i) + 3
    case WantLock(e) => 2 * HitsLeft(c, e, 0) + 4
    case Inspecting(e) => 2 * HitsLeft(c, e, 0) + 5
    case Timing(e) => 2 * HitsLeft(c, e, 0) + 6
    case Counted(e, _) => 2 * HitsLeft(c, e, 0) + 7
    case Entered(e) => 2 * HitsLeft(c, e, 0) + 8
    case Started(e) => 2 * HitsLeft(c, e, 0) + 9
  }

  function Ranks(c: Config, pcs: seq<Pc>): nat {
    if pcs == [] then 0 else Ranks(c, pcs[..|pcs| - 1]) + Rank(c, pcs[|pcs| - 1])
  }

  lemma {:induction false} RanksUpdate(c: Config, pcs: seq<Pc>, w: nat, pc: Pc)
    requires w < |pcs|
    ensures Ranks(c, pcs[w := pc]) + Rank(c, pcs[w]) == Ranks(c, pcs) + Rank(c, pc)
  {
    var n := |pcs| - 1;
    if w < n {
      RanksUpdate(c, pcs[..n], w, pc);
      assert pcs[w := pc][..n] == pcs[..n][w := pc];
    } else {
      assert pcs[w := pc][..n] == pcs[..n];
    }
  }

  // The steps that the first n entries still need, as far as they were not handed out.
  ghost function Ahead(c: Config, handed: set<nat>, n: nat): nat {
    if n == 0 then 0 else Ahead(c, handed, n - 1) + (if n - 1 in handed then 0 else 2 * HitsLeft(c, n - 1, 0) + 10)
  }

  lemma {:induction false} AheadHanded(c: Config, handed: set<nat>, n: nat, e: nat)
    requires e !in handed
    ensures Ahead(c, handed, n) == Ahead(c, handed + {e}, n) + if e < n then 2 * HitsLeft(c, e, 0) + 10 else 0
  {
    if n > 0 {
      AheadHanded(c, handed, n - 1, e);
    }
  }

  ghost function Measure(c: Config, s: State): nat {
    Ahead(c, s.handed, |c.items|) + Ranks(c, s.pcs)
  }

  lemma {:induction false} RankTaken(c: Config, a: Action, s: State)
    requires Shape(c, s) && Enabled(c, a, s) && a.Take?
    ensures var s' := Do(c, a, s); a.w < |s'.pcs| && s'.pcs[a.w] == Started(a.e) && s.pcs[a.w] == Ready
  {
  }

  lemma {:induction false} RankCommitting(c: Config, a: Action, s: State)
    requires Shape(c, s) && Enabled(c, a, s) && (a.Fetch? || a.Push?)
    ensures var s' := Do(c, a, s); a.w < |s'.pcs| && Rank(c, s'.pcs[a.w]) < Rank(c, s.pcs[a.w])
  {
    assert PcShape(c, s.pcs[a.w]);
  }

  lemma {:induction false} RankDrops(c: Config, a: Action, s: State)
    requires Shape(c, s) && Enabled(c, a, s) && !a.Take? && !a.Fetch? && !a.Push?
    ensures var s' := Do(c, a, s); a.w < |s'.pcs| && Rank(c, s'.pcs[a.w]) < Rank(c, s.pcs[a.w])
  {
    assert PcShape(c, s.pcs[a.w]);
  }

  lemma {:induction false} HandedStep(c: Config, a: Action, s: State)
    requires Shape(c, s) && Enabled(c, a, s)
    ensures Do(c, a, s).handed == if a.Take? then s.handed + {a.e} else s.handed
  {
  }

  lemma {:induction false} MeasureDrops(c: Config, a: Action, s: State)
    requires Shape(c, s) && Enabled(c, a, s)
    ensures Measure(c, Do(c, a, s)) < Measure(c, s)
  {
    var s' := Do(c, a, s);
    OneWorker(c, a, s);
    HandedStep(c, a, s);
    if a.Take? {
      RankTaken(c, a, s);
      AheadHanded(c, s.handed, |c.items|, a.e);
    } else if a.Fetch? || a.Push? {
      RankCommitting(c, a, s);
    } else {
      RankDrops(c, a, s);
    }
    RanksUpdate(c, s.pcs, a.w, s'.pcs[a.w]);
  }

  // No run is longer than the measure of its start.
  lemma {:induction false} RunsAreFinite(c: Config, actions: seq<Action>, s: State)
    requires Reaches(c, actions, s)
    ensures |actions| + Measure(c, s) <= Measure(c, Init(c))
    decreases |actions|
  {
    if actions != [] {
      var init, a := actions[..|actions| - 1], actions[|actions| - 1];
      var prev :| Reaches(c, init, prev) && Shape(c, prev) && Enabled(c, a, prev) && s == Do(c, a, prev);
      RunsAreFinite(c, init, prev);
      MeasureDrops(c, a, prev);
    }
  }

  // The next step of a worker that is in the middle of something.
  function Next(w: nat, pc: Pc): Action
    requires pc != Ready && pc != Quit
  {
    match pc
    case Started(_) => CheckStop(w, false)
    case Entered(_) => CountVisit(w)
    case Counted(_, _) => CheckVisited(w)
    case Timing(_) => CheckWalltime(w, false)
    case Inspecting(_) => Inspect(w)
    case WantLock(_) => Lock(w)
    case Fetching(_, _) => Fetch(w)
    case Pushing(_, _) => Push(w)
    case Tripped(reason) => SetReason(w, reason)
    case Storing => StoreStop(w)
  }

  // As long as the walk is not over some worker can move, whether or not the
  // wall time is spent: nobody waits for a lock that is never released.
  lemma {:induction false} NeverStuck(c: Config, actions: seq<Action>, s: State) returns (a: Action)
    requires Reaches(c, actions, s) && DistinctPaths(c.items) && c.workers > 0 && !Joined(c, s)
    ensures Shape(c, s) && Enabled(c, a, s) && !LateAction(a)
  {
    OwnAlways(c, actions, s);
    LockAlways(c, actions, s);
    a := SomeStep(c, s);
  }

  lemma {:induction false} SomeStep(c: Config, s: State) returns (a: Action)
    requires Shape(c, s) && LockInv(c, s) && c.workers > 0 && !Joined(c, s)
    ensures Enabled(c, a, s) && !LateAction(a)
  {
    if w :| 0 <= w < |s.pcs| && s.pcs[w] != Ready && s.pcs[w] != Quit {
      var v := if s.pcs[w].WantLock? && s.lock.Some? then s.lock.value else w;
      a := Next(v, s.pcs[v]);
    } else {
      var e: nat :| e < |c.items| && e !in s.handed;
      assert s.pcs[0] == Ready;
      a := Take(0, e);
    }
  }

  lemma {:induction false} OneMore(c: Config, actions: seq<Action>, s: State) returns (longer: seq<Action>, s': State)
    requires Reaches(c, actions, s) && DistinctPaths(c.items) && c.workers > 0 && !Joined(c, s)
    ensures actions <= longer && Reaches(c, longer, s') && Measure(c, s') < Measure(c, s)
    ensures Late(longer) <==> Late(actions)
  {
    var a := NeverStuck(c, actions, s);
    longer, s' := actions + [a], Do(c, a, s);
    MeasureDrops(c, a, s);
    assert longer[..|longer| - 1] == actions && longer[|longer| - 1] == a;
  }

  // Every run can be carried on to a join, with no further look at a spent wall time.
  lemma {:induction false} CanJoin(c: Config, actions: seq<Action>, s: State) returns (longer: seq<Action>, s': State)
    requires Reaches(c, actions, s) && DistinctPaths(c.items) && c.workers > 0
    ensures actions <= longer && Reaches(c, longer, s') && Joined(c, s')
    ensures Late(longer) <==> Late(actions)
    decreases Measure(c, s)
  {
    longer, s' := actions, s;
    if !Joined(c, s) {
      longer, s' := OneMore(c, actions, s);
      longer, s' := CanJoin(c, longer, s');
    }
  }

  // So a walk whose budgets cover the tree has a run that ends untruncated; by
  // `EnoughBudget` every run that meets no spent wall time and joins is one.
  lemma {:induction false} SomeRunCompletes(c: Config) returns (actions: seq<Action>, s: State)
    requires DistinctPaths(c.items) && c.workers > 0
    requires |c.items| <= c.maxVisited && TotalHits(c.items) <= c.maxResults
    ensures Reaches(c, actions, s) && Joined(c, s) && s.truncated.None?
  {
    actions, s := CanJoin(c, [], Init(c));
    EnoughBudget(c, actions, s);
  }
}
