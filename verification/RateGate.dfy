/** The rate-limiting gate for API calls (src/lingtai/llm/api_gate.py): a queue,
    one gate thread, a sliding window of dispatch times, a thread pool and any
    number of submitters and shutdown calls, as interleaved atomic steps over a
    clock that never goes back. */
module RateGate {
  import opened Wrappers

  // Sixty seconds, in clock ticks (nanoseconds).
  const WINDOW: int := 60_000_000_000

  // How long shutdown waits for the gate thread.
  const JOIN_TIMEOUT: int := 5_000_000_000

  datatype Entry = Work(id: nat) | Sentinel

  // Where the gate thread is; `id` is the work item it holds.
  datatype Gate =
    | Looping                  // about to test the stop event
    | Getting                  // blocked on the queue
    | Took(id: nat)            // took an item, has not pruned yet
    | Waiting(id: nat)         // at the head of the wait loop
    | Decided(id: nat)         // left the wait loop
    | Cleared(id: nat)         // saw that stop is not set
    | Recorded(id: nat)        // recorded the timestamp, about to call the pool
    | Exited
    | Crashed(id: nat)         // the pool refused the item

  datatype Outcome = Executed | ShutDown

  // Where a caller of shutdown is.
  datatype Caller =
    | Stopping                 // has set stop
    | Joining(since: int)      // has put the sentinel
    | Draining                 // the join has returned
    | Closing                  // has seen the queue empty
    | Returned

  datatype Shutdown = Shutdown(
    callers: map<nat, Caller>,
    // history
    joined: bool,              // some join has returned
    timedOut: bool)            // some join returned before the gate thread ended

  datatype State = State(
    now: int,
    stop: bool,
    queue: seq<Entry>,
    timestamps: seq<int>,
    gate: Gate,
    pool: set<nat>,            // accepted by the pool, future not resolved yet
    poolClosed: bool,
    passed: set<nat>,          // submitters between the stop test and the put
    // history
    dispatched: seq<int>,      // every timestamp ever recorded
    started: set<nat>,         // items a timestamp was recorded for
    enqueued: seq<nat>,
    taken: seq<nat>,           // items removed from the queue, in order
    resolved: seq<(nat, Outcome)>,
    drained: bool,             // some shutdown saw the queue empty
    late: set<nat>,            // items put after that
    shutdown: Shutdown)

  function Init(now: int): State {
    State(now, false, [], [], Looping, {}, false, {}, [], {}, [], [], [], false, {},
        Shutdown(map[], false, false))
  }

  datatype Action =
    | Tick(ticks: nat)
    | PassCheck(id: nat)       // submit: stop is not set
    | Put(id: nat)             // submit: enqueue
    | TestStop                 // gate: loop condition
    | GetTimeout               // gate: nothing to take for a second
    | Get                      // gate: take the head of the queue
    | FirstPrune
    | WaitAndPrune             // gate: one iteration of the wait loop
    | LeaveWait
    | TestStopAgain
    | Record
    | SubmitToPool
    | Execute(id: nat)         // a pool thread runs an item and resolves it
    | SetStop(c: nat)          // shutdown, called by c
    | PutSentinel(c: nat)
    | EndJoin(c: nat)
    | DrainOne(c: nat)
    | DrainEnd(c: nat)
    | ClosePool(c: nat)

  // The `while` loops that pop expired timestamps off the front of the deque.
  function Prune(timestamps: seq<int>, now: int): seq<int> {
    if timestamps != [] && timestamps[0] <= now - WINDOW then Prune(timestamps[1..], now) else timestamps
  }

  method PruneLoop(timestamps: seq<int>, now: int) returns (r: seq<int>)
    ensures r == Prune(timestamps, now)
  {
    r := timestamps;
    while r != [] && r[0] <= now - WINDOW
      invariant Prune(r, now) == Prune(timestamps, now)
    {
      r := r[1..];
    }
  }

  predicate Enabled(a: Action, s: State, maxRpm: nat) {
    match a
    case Tick(_) => true
    case PassCheck(id) => !s.stop && id !in s.passed && id !in s.enqueued
    case Put(id) => id in s.passed
    case TestStop => s.gate == Looping
    case GetTimeout => s.gate == Getting && s.queue == []
    case Get => s.gate == Getting && s.queue != []
    case FirstPrune => s.gate.Took?
    case WaitAndPrune => s.gate.Waiting? && |s.timestamps| >= maxRpm && !s.stop
    case LeaveWait => s.gate.Waiting? && (|s.timestamps| < maxRpm || s.stop)
    case TestStopAgain => s.gate.Decided?
    case Record => s.gate.Cleared?
    case SubmitToPool => s.gate.Recorded?
    case Execute(id) => id in s.pool
    case SetStop(c) => c !in s.shutdown.callers
    case PutSentinel(c) => At(s, c) == Some(Stopping)
    case EndJoin(c) =>
      At(s, c).Some? && At(s, c).value.Joining? && (Ended(s.gate) || s.now - At(s, c).value.since >= JOIN_TIMEOUT)
    case DrainOne(c) => At(s, c) == Some(Draining) && s.queue != []
    case DrainEnd(c) => At(s, c) == Some(Draining) && s.queue == []
    case ClosePool(c) => At(s, c) == Some(Closing)
  }

  function At(s: State, c: nat): Option<Caller> {
    if c in s.shutdown.callers then Some(s.shutdown.callers[c]) else None
  }

  predicate Ended(g: Gate) {
    g.Exited? || g.Crashed?
  }

  function Moved(d: Shutdown, c: nat, caller: Caller): Shutdown {
    d.(callers := d.callers[c := caller])
  }

  function Do(a: Action, s: State, maxRpm: nat): State
    requires Enabled(a, s, maxRpm)
  {
    match a
    case Tick(ticks) => s.(now := s.now + ticks)
    case PassCheck(id) => s.(passed := s.passed + {id})
    case Put(id) =>
      s.(queue := s.queue + [Work(id)], enqueued := s.enqueued + [id], passed := s.passed - {id},
         late := if s.drained then s.late + {id} else s.late)
    case TestStop => if s.stop then s.(gate := Exited) else s.(gate := Getting)
    case GetTimeout => s.(gate := Looping)
    case Get =>
      (match s.queue[0]
       case Work(id) => s.(queue := s.queue[1..], taken := s.taken + [id], gate := Took(id))
       case Sentinel => s.(queue := s.queue[1..], gate := Exited))
    case FirstPrune => s.(timestamps := Prune(s.timestamps, s.now), gate := Waiting(s.gate.id))
    case WaitAndPrune => s.(timestamps := Prune(s.timestamps, s.now))
    case LeaveWait => s.(gate := Decided(s.gate.id))
    case TestStopAgain =>
      if s.stop then
        s.(gate := Exited, resolved := s.resolved + [(s.gate.id, ShutDown)])
      else
        s.(gate := Cleared(s.gate.id))
    case Record =>
      s.(timestamps := s.timestamps + [s.now], dispatched := s.dispatched + [s.now],
         started := s.started + {s.gate.id}, gate := Recorded(s.gate.id))
    case SubmitToPool =>
      if s.poolClosed then s.(gate := Crashed(s.gate.id)) else s.(pool := s.pool + {s.gate.id}, gate := Looping)
    case Execute(id) => s.(pool := s.pool - {id}, resolved := s.resolved + [(id, Executed)])
    case SetStop(c) => s.(stop := true, shutdown := Moved(s.shutdown, c, Stopping))
    case PutSentinel(c) => s.(queue := s.queue + [Sentinel], shutdown := Moved(s.shutdown, c, Joining(s.now)))
    case EndJoin(c) =>
      s.(shutdown := Shutdown(s.shutdown.callers[c := Draining], true, s.shutdown.timedOut || !Ended(s.gate)))
    case DrainOne(_) =>
      (match s.queue[0]
       case Work(id) =>
         s.(queue := s.queue[1..], taken := s.taken + [id], resolved := s.resolved + [(id, ShutDown)])
       case Sentinel => s.(queue := s.queue[1..]))
    case DrainEnd(c) => s.(drained := true, shutdown := Moved(s.shutdown, c, Closing))
    case ClosePool(c) => s.(poolClosed := true, shutdown := Moved(s.shutdown, c, Returned))
  }

  // A run: enabled steps, one after the other, from the freshly started gate.
  ghost predicate Reaches(actions: seq<Action>, start: int, s: State, maxRpm: nat)
    decreases |actions|
  {
    if actions == [] then
      s == Init(start)
    else
      var last := actions[|actions| - 1];
      exists prev :: Reaches(actions[..|actions| - 1], start, prev, maxRpm) && Enabled(last, prev, maxRpm)
                     && s == Do(last, prev, maxRpm)
  }

  // ----- the rate bound -----

  ghost predicate Sorted(ts: seq<int>) {
    forall i, j :: 0 <= i < j < |ts| ==> ts[i] <= ts[j]
  }

  // The deque is the end of the history; the rest has expired; the history is
  // spaced.
  ghost predicate Windowed(now: int, timestamps: seq<int>, dispatched: seq<int>, maxRpm: nat) {
    var n := |dispatched| - |timestamps|;
    && n >= 0
    && Sorted(dispatched)
    && (forall i :: 0 <= i < |dispatched| ==> dispatched[i] <= now)
    && (forall i :: n <= i < |dispatched| ==> dispatched[i] == timestamps[i - n])
    && (forall i :: 0 <= i < n ==> dispatched[i] <= now - WINDOW)
    && Spaced(dispatched, maxRpm)
  }

  ghost predicate Spaced(dispatched: seq<int>, maxRpm: nat) {
    forall i, j :: 0 <= i && i + maxRpm <= j < |dispatched| ==> dispatched[i] + WINDOW <= dispatched[j]
  }

  ghost predicate RateInv(s: State, maxRpm: nat) {
    && Windowed(s.now, s.timestamps, s.dispatched, maxRpm)
    && |s.timestamps| <= maxRpm
    && (s.gate.Cleared? || (s.gate.Decided? && !s.stop) ==> |s.timestamps| < maxRpm)
  }

  // Pruning drops a prefix of expired timestamps.
  lemma {:induction false} PruneDrops(ts: seq<int>, now: int)
    ensures |Prune(ts, now)| <= |ts|
    ensures var k := |ts| - |Prune(ts, now)|;
            && (forall i :: 0 <= i < k ==> ts[i] <= now - WINDOW)
            && (forall i :: 0 <= i < |ts| - k ==> Prune(ts, now)[i] == ts[k + i])
    decreases ts
  {
    if ts != [] && ts[0] <= now - WINDOW {
      PruneDrops(ts[1..], now);
    }
  }

  // Of a sorted deque exactly the timestamps of the last sixty seconds stay.
  lemma {:induction false} PruneIsExact(ts: seq<int>, now: int) returns (k: nat)
    requires Sorted(ts)
    ensures k <= |ts| && Prune(ts, now) == ts[k..]
    ensures forall i :: 0 <= i < k ==> ts[i] <= now - 60_000_000_000
    ensures forall i :: k <= i < |ts| ==> ts[i] > now - 60_000_000_000
    decreases ts
  {
    k := 0;
    if ts != [] && ts[0] <= now - WINDOW {
      k := PruneIsExact(ts[1..], now);
      k := k + 1;
    }
  }

  lemma {:induction false} WindowAfterPrune(now: int, timestamps: seq<int>, dispatched: seq<int>, maxRpm: nat)
    requires Windowed(now, timestamps, dispatched, maxRpm)
    ensures Windowed(now, Prune(timestamps, now), dispatched, maxRpm)
  {
    PruneDrops(timestamps, now);
    var n, n' := |dispatched| - |timestamps|, |dispatched| - |Prune(timestamps, now)|;
    forall i | n <= i < |dispatched|
      ensures i < n' ==> dispatched[i] <= now - WINDOW
      ensures i >= n' ==> dispatched[i] == Prune(timestamps, now)[i - n']
    {
      assert dispatched[i] == timestamps[i - n];
    }
  }

  lemma {:induction false} WindowAfterRecord(now: int, timestamps: seq<int>, dispatched: seq<int>, maxRpm: nat)
    requires Windowed(now, timestamps, dispatched, maxRpm) && |timestamps| < maxRpm
    ensures Windowed(now, timestamps + [now], dispatched + [now], maxRpm)
  {
    var d := dispatched + [now];
    forall i, j | 0 <= i && i + maxRpm <= j < |d|
      ensures d[i] + WINDOW <= d[j]
    {
      assert d[i] == dispatched[i];
      assert j < |dispatched| ==> d[j] == dispatched[j];
    }
  }

  lemma {:induction false} RateStep(a: Action, s: State, maxRpm: nat)
    requires RateInv(s, maxRpm) && Enabled(a, s, maxRpm)
    ensures RateInv(Do(a, s, maxRpm), maxRpm)
  {
    var s' := Do(a, s, maxRpm);
    if a.FirstPrune? || a.WaitAndPrune? {
      PruneDrops(s.timestamps, s.now);
      WindowAfterPrune(s.now, s.timestamps, s.dispatched, maxRpm);
    } else if a.Record? {
      WindowAfterRecord(s.now, s.timestamps, s.dispatched, maxRpm);
    } else {
      OtherTimes(a, s, maxRpm);
      OtherDecisions(a, s, maxRpm);
      LaterWindow(s.now, s'.now, s.timestamps, s.dispatched, maxRpm);
    }
  }

  lemma {:induction false} OtherTimes(a: Action, s: State, maxRpm: nat)
    requires Enabled(a, s, maxRpm) && !a.FirstPrune? && !a.WaitAndPrune? && !a.Record?
    ensures var s' := Do(a, s, maxRpm);
            s'.timestamps == s.timestamps && s'.dispatched == s.dispatched && s'.now >= s.now
  {
    match a
    case Tick(_) =>
    case PassCheck(_) =>
    case Put(_) =>
    case TestStop =>
    case GetTimeout =>
    case Get =>
    case LeaveWait =>
    case TestStopAgain =>
    case SubmitToPool =>
    case Execute(_) =>
    case SetStop(_) =>
    case PutSentinel(_) =>
    case EndJoin(_) =>
    case DrainOne(_) =>
    case DrainEnd(_) =>
    case ClosePool(_) =>
  }

  lemma {:induction false} OtherDecisions(a: Action, s: State, maxRpm: nat)
    requires Enabled(a, s, maxRpm) && !a.FirstPrune? && !a.WaitAndPrune? && !a.Record?
    ensures var s' := Do(a, s, maxRpm);
            && (s'.gate.Cleared? ==> s.gate.Cleared? || (s.gate.Decided? && !s.stop))
            && (s'.gate.Decided? && !s'.stop ==> (s.gate.Decided? && !s.stop) || |s.timestamps| < maxRpm)
  {
  }

  lemma {:induction false} LaterWindow(now: int, later: int, timestamps: seq<int>, dispatched: seq<int>, maxRpm: nat)
    requires Windowed(now, timestamps, dispatched, maxRpm) && now <= later
    ensures Windowed(later, timestamps, dispatched, maxRpm)
  {
  }

  lemma {:induction false} RateAlways(actions: seq<Action>, start: int, s: State, maxRpm: nat)
    requires maxRpm > 0 && Reaches(actions, start, s, maxRpm)
    ensures RateInv(s, maxRpm)
    decreases |actions|
  {
    if actions != [] {
      var init, last := actions[..|actions| - 1], actions[|actions| - 1];
      var prev :| Reaches(init, start, prev, maxRpm) && Enabled(last, prev, maxRpm) && s == Do(last, prev, maxRpm);
      RateAlways(init, start, prev, maxRpm);
      RateStep(last, prev, maxRpm);
    }
  }

  // In every run the dispatch that is `maxRpm` places later is at least a
  // minute later, and the deque is the end of the sorted dispatch history.
  lemma {:induction false} DispatchesAreSpaced(actions: seq<Action>, start: int, s: State, maxRpm: nat)
    requires maxRpm > 0 && Reaches(actions, start, s, maxRpm)
    ensures Spaced(s.dispatched, maxRpm) && Sorted(s.dispatched)
    ensures |s.timestamps| <= |s.dispatched|
    ensures s.timestamps == s.dispatched[|s.dispatched| - |s.timestamps|..]
  {
    RateAlways(actions, start, s, maxRpm);
  }

  // After a prune the deque holds exactly the dispatches of the last sixty seconds.
  lemma {:induction false} PrunedIsRecent(actions: seq<Action>, start: int, s: State, a: Action, maxRpm: nat)
    returns (k: nat)
    requires maxRpm > 0 && Reaches(actions, start, s, maxRpm)
    requires Enabled(a, s, maxRpm) && (a.FirstPrune? || a.WaitAndPrune?)
    ensures k <= |s.dispatched| && Do(a, s, maxRpm).timestamps == s.dispatched[k..]
    ensures forall i :: 0 <= i < k ==> s.dispatched[i] <= s.now - 60_000_000_000
    ensures forall i :: k <= i < |s.dispatched| ==> s.dispatched[i] > s.now - 60_000_000_000
  {
    RateAlways(actions, start, s, maxRpm);
    k := RecentEnd(s.now, s.timestamps, s.dispatched, maxRpm);
  }

  lemma {:induction false} RecentEnd(now: int, timestamps: seq<int>, dispatched: seq<int>, maxRpm: nat)
    returns (k: nat)
    requires Windowed(now, timestamps, dispatched, maxRpm)
    ensures k <= |dispatched| && Prune(timestamps, now) == dispatched[k..]
    ensures forall i :: 0 <= i < k ==> dispatched[i] <= now - 60_000_000_000
    ensures forall i :: k <= i < |dispatched| ==> dispatched[i] > now - 60_000_000_000
  {
    var n := |dispatched| - |timestamps|;
    assert timestamps == dispatched[n..];
    k := PruneIsExact(timestamps, now);
    k := n + k;
  }

  // A full window lets the next item through as soon as its oldest dispatch is a minute old.
  lemma {:induction false} MinuteOldIsDropped(actions: seq<Action>, start: int, s: State, maxRpm: nat)
    requires maxRpm > 0 && Reaches(actions, start, s, maxRpm) && Enabled(WaitAndPrune, s, maxRpm)
    requires s.now >= s.timestamps[0] + 60_000_000_000
    ensures |Do(WaitAndPrune, s, maxRpm).timestamps| < maxRpm
  {
    RateAlways(actions, start, s, maxRpm);
    PruneDrops(s.timestamps[1..], s.now);
  }

  lemma {:induction false} OneMore(actions: seq<Action>, start: int, s: State, a: Action, maxRpm: nat)
    returns (longer: seq<Action>, s': State)
    requires Reaches(actions, start, s, maxRpm) && Enabled(a, s, maxRpm)
    ensures actions <= longer && Reaches(longer, start, s', maxRpm) && s' == Do(a, s, maxRpm)
  {
    longer, s' := actions + [a], Do(a, s, maxRpm);
    assert longer[..|longer| - 1] == actions && longer[|longer| - 1] == a;
  }

  // As long as stop is not set, whoever waits for the window can be dispatched
  // within a minute.
  lemma {:induction false} MinuteIsEnough(actions: seq<Action>, start: int, s: State, maxRpm: nat)
    returns (longer: seq<Action>, s': State)
    requires maxRpm > 0 && Reaches(actions, start, s, maxRpm) && s.gate.Waiting? && !s.stop
    ensures actions <= longer && Reaches(longer, start, s', maxRpm)
    ensures s'.gate == Recorded(s.gate.id) && s'.now <= s.now + 60_000_000_000
    ensures s'.dispatched == s.dispatched + [s'.now]
  {
    longer, s' := HasRoom(actions, start, s, maxRpm);
    longer, s' := OneMore(longer, start, s', LeaveWait, maxRpm);
    longer, s' := OneMore(longer, start, s', TestStopAgain, maxRpm);
    longer, s' := OneMore(longer, start, s', Record, maxRpm);
  }

  lemma {:induction false} HasRoom(actions: seq<Action>, start: int, s: State, maxRpm: nat)
    returns (longer: seq<Action>, s': State)
    requires maxRpm > 0 && Reaches(actions, start, s, maxRpm) && s.gate.Waiting? && !s.stop
    ensures actions <= longer && Reaches(longer, start, s', maxRpm)
    ensures s'.gate == s.gate && !s'.stop && |s'.timestamps| < maxRpm && s'.dispatched == s.dispatched
    ensures s'.now <= s.now + 60_000_000_000
  {
    longer, s' := actions, s;
    if |s.timestamps| >= maxRpm {
      RateAlways(actions, start, s, maxRpm);
      assert s.dispatched[|s.dispatched| - |s.timestamps|] == s.timestamps[0];
      longer, s' := OneMore(longer, start, s', Tick(60_000_000_000), maxRpm);
      MinuteOldIsDropped(longer, start, s', maxRpm);
      longer, s' := OneMore(longer, start, s', WaitAndPrune, maxRpm);
    }
  }

  // Hence no half-open minute, wherever it starts, holds more than `maxRpm`.
  lemma {:induction false} AtMostMaxPerWindow(actions: seq<Action>, start: int, s: State, maxRpm: nat, from: int)
    requires maxRpm > 0 && Reaches(actions, start, s, maxRpm)
    ensures |set i | 0 <= i < |s.dispatched| && from <= s.dispatched[i] < from + 60_000_000_000| <= maxRpm
  {
    RateAlways(actions, start, s, maxRpm);
    WindowHolds(s.dispatched, maxRpm, from);
  }

  lemma {:induction false} WindowHolds(dispatched: seq<int>, maxRpm: nat, from: int)
    requires maxRpm > 0 && Spaced(dispatched, maxRpm) && Sorted(dispatched)
    ensures |set i | 0 <= i < |dispatched| && from <= dispatched[i] < from + WINDOW| <= maxRpm
  {
    var first := 0;
    while first < |dispatched| && dispatched[first] < from
      invariant 0 <= first <= |dispatched|
      invariant forall i :: 0 <= i < first ==> dispatched[i] < from
    {
      first := first + 1;
    }
    forall i | first + maxRpm <= i < |dispatched|
      ensures dispatched[i] >= from + WINDOW
    {
      assert dispatched[first + maxRpm] - dispatched[first] >= WINDOW;
    }
    var inside := set i | 0 <= i < |dispatched| && from <= dispatched[i] < from + WINDOW;
    IntervalSize(inside, first, maxRpm);
  }

  lemma {:induction false} IntervalSize(s: set<int>, lo: int, n: nat)
    requires forall i :: i in s ==> lo <= i < lo + n
    ensures |s| <= n
  {
    if n == 0 {
      assert forall i :: i !in s;
      assert s == {};
    } else {
      var last := lo + n - 1;
      IntervalSize(s - {last}, lo, n - 1);
      if last in s {
        assert |s - {last}| == |s| - 1;
      } else {
        assert s - {last} == s;
      }
    }
  }

  // ----- conservation of futures -----

  function Works(queue: seq<Entry>): seq<nat> {
    if queue == [] then []
    else (if queue[0].Work? then [queue[0].id] else []) + Works(queue[1..])
  }

  lemma {:induction false} WorksAppend(queue: seq<Entry>, e: Entry)
    ensures Works(queue + [e]) == Works(queue) + (if e.Work? then [e.id] else [])
  {
    if queue == [] {
      assert queue + [e] == [e] + [];
      WorksFirst(e, []);
    } else {
      WorksAppend(queue[1..], e);
      WorksFirst(queue[0], queue[1..]);
      WorksFirst(queue[0], queue[1..] + [e]);
      assert queue == [queue[0]] + queue[1..] && queue + [e] == [queue[0]] + (queue[1..] + [e]);
    }
  }

  lemma {:induction false} WorksFirst(e: Entry, rest: seq<Entry>)
    ensures Works([e] + rest) == (if e.Work? then [e.id] else []) + Works(rest)
  {
    assert ([e] + rest)[1..] == rest;
  }

  ghost predicate Distinct(s: seq<nat>) {
    forall i, j :: 0 <= i < j < |s| ==> s[i] != s[j]
  }

  function Ids(resolved: seq<(nat, Outcome)>): (r: seq<nat>)
    ensures |r| == |resolved|
    ensures forall i :: 0 <= i < |r| ==> r[i] == resolved[i].0
  {
    seq(|resolved|, i requires 0 <= i < |resolved| => resolved[i].0)
  }

  function Held(g: Gate): set<nat> {
    if g.Looping? || g.Getting? || g.Exited? then {} else {g.id}
  }

  predicate HeldStarted(g: Gate) {
    g.Recorded? || g.Crashed?
  }

  // Items leave the queue in the order they were put, each at most once.
  ghost predicate QueueInv(s: State) {
    && s.enqueued == s.taken + Works(s.queue)
    && Distinct(s.enqueued)
    && (forall id <- s.passed :: id !in s.enqueued)
    && (s.drained ==> forall id <- Works(s.queue) :: id in s.late)
  }

  // Each taken item is in exactly one place.
  ghost predicate PlaceInv(taken: seq<nat>, held: set<nat>, pool: set<nat>, done: seq<nat>) {
    && (forall id :: id in taken <==> id in held || id in pool || id in done)
    && held !! pool
    && (forall id <- done :: id !in held && id !in pool)
    && Distinct(done)
  }

  // Exactly the items a timestamp was recorded for are executed.
  ghost predicate OutcomeInv(s: State) {
    && (forall r <- s.resolved :: r.1 == Executed <==> r.0 in s.started)
    && s.pool <= s.started
    && (forall id <- s.started :: id in s.taken)
    && (forall id <- Held(s.gate) :: id in s.started <==> HeldStarted(s.gate))
  }

  predicate PastJoin(caller: Caller) {
    caller.Draining? || caller.Closing? || caller.Returned?
  }

  // The pool is closed, and a queue drained, only behind a join; a join that did
  // not time out has seen the gate thread end.
  ghost predicate JoinInv(d: Shutdown, gate: Gate, poolClosed: bool) {
    && (forall c <- d.callers :: PastJoin(d.callers[c]) ==> d.joined)
    && (poolClosed ==> d.joined)
    && (d.joined && !d.timedOut ==> gate.Exited?)
    && (gate.Crashed? ==> d.timedOut)
  }

  ghost predicate FlowInv(s: State) {
    QueueInv(s) && Placed(s) && OutcomeInv(s) && JoinInv(s.shutdown, s.gate, s.poolClosed)
  }

  // A step of the gate thread: it ends for good, and crashes only on a closed pool.
  lemma {:induction false} GateMoves(a: Action, s: State, maxRpm: nat)
    requires Enabled(a, s, maxRpm)
    ensures var s' := Do(a, s, maxRpm);
            && (s.gate.Exited? ==> s'.gate.Exited?)
            && (s'.gate.Crashed? ==> s.gate.Crashed? || (s.poolClosed && !s.gate.Exited?))
  {
  }

  // The steps of the gate thread, the submitters, the pool and the clock.
  predicate NotShutdown(a: Action) {
    !a.SetStop? && !a.PutSentinel? && !a.EndJoin? && !a.DrainOne? && !a.DrainEnd? && !a.ClosePool?
  }

  lemma {:induction false} ShutdownStays(a: Action, s: State, maxRpm: nat)
    requires Enabled(a, s, maxRpm) && NotShutdown(a)
    ensures Do(a, s, maxRpm).shutdown == s.shutdown && Do(a, s, maxRpm).poolClosed == s.poolClosed
  {
  }

  // A step of shutdown leaves the gate thread where it is.
  lemma {:induction false} GateStays(a: Action, s: State, maxRpm: nat)
    requires Enabled(a, s, maxRpm) && !NotShutdown(a)
    ensures Do(a, s, maxRpm).gate == s.gate
  {
    match a
    case SetStop(_) =>
    case PutSentinel(_) =>
    case EndJoin(_) =>
    case DrainOne(_) =>
    case DrainEnd(_) =>
    case ClosePool(_) =>
  }

  // Before the join, nothing is promised about the caller.
  lemma {:induction false} Approaches(a: Action, s: State, maxRpm: nat)
    requires Enabled(a, s, maxRpm) && JoinInv(s.shutdown, s.gate, s.poolClosed) && (a.SetStop? || a.PutSentinel?)
    ensures var s' := Do(a, s, maxRpm); JoinInv(s'.shutdown, s.gate, s'.poolClosed)
  {
  }

  lemma {:induction false} Joins(a: Action, s: State, maxRpm: nat)
    requires Enabled(a, s, maxRpm) && JoinInv(s.shutdown, s.gate, s.poolClosed) && a.EndJoin?
    ensures var s' := Do(a, s, maxRpm); JoinInv(s'.shutdown, s.gate, s'.poolClosed)
  {
  }

  // Behind the join.
  lemma {:induction false} Leaves(a: Action, s: State, maxRpm: nat)
    requires Enabled(a, s, maxRpm) && JoinInv(s.shutdown, s.gate, s.poolClosed)
    requires a.DrainOne? || a.DrainEnd? || a.ClosePool?
    ensures var s' := Do(a, s, maxRpm); JoinInv(s'.shutdown, s.gate, s'.poolClosed)
  {
  }

  lemma {:induction false} JoinStep(a: Action, s: State, maxRpm: nat)
    requires JoinInv(s.shutdown, s.gate, s.poolClosed) && Enabled(a, s, maxRpm)
    ensures var s' := Do(a, s, maxRpm); JoinInv(s'.shutdown, s'.gate, s'.poolClosed)
  {
    if NotShutdown(a) {
      GateMoves(a, s, maxRpm);
      ShutdownStays(a, s, maxRpm);
    } else {
      GateStays(a, s, maxRpm);
      if a.EndJoin? {
        Joins(a, s, maxRpm);
      } else if a.SetStop? || a.PutSentinel? {
        Approaches(a, s, maxRpm);
      } else {
        Leaves(a, s, maxRpm);
      }
    }
  }

  lemma {:induction false} QueuePut(a: Action, s: State, maxRpm: nat)
    requires QueueInv(s) && Enabled(a, s, maxRpm) && (a.Put? || a.PutSentinel?)
    ensures QueueInv(Do(a, s, maxRpm))
  {
    if a.Put? {
      WorksAppend(s.queue, Work(a.id));
      assert s.taken + (Works(s.queue) + [a.id]) == s.enqueued + [a.id];
    } else {
      WorksAppend(s.queue, Sentinel);
      assert Works(s.queue + [Sentinel]) == Works(s.queue);
    }
  }

  lemma {:induction false} QueueTake(a: Action, s: State, maxRpm: nat)
    requires QueueInv(s) && Enabled(a, s, maxRpm) && (a.Get? || a.DrainOne?)
    ensures QueueInv(Do(a, s, maxRpm))
  {
    var rest := Works(s.queue[1..]);
    if s.queue[0].Work? {
      assert s.taken + ([s.queue[0].id] + rest) == (s.taken + [s.queue[0].id]) + rest;
    } else {
      assert Works(s.queue) == rest;
    }
  }

  lemma {:induction false} QueueStep(a: Action, s: State, maxRpm: nat)
    requires QueueInv(s) && Enabled(a, s, maxRpm)
    ensures QueueInv(Do(a, s, maxRpm))
  {
    if a.Put? || a.PutSentinel? {
      QueuePut(a, s, maxRpm);
    } else if a.Get? || a.DrainOne? {
      QueueTake(a, s, maxRpm);
    }
  }

  // A newly taken item is not one of those taken before.
  lemma {:induction false} TakenIsNew(s: State)
    requires QueueInv(s) && s.queue != [] && s.queue[0].Work?
    ensures s.queue[0].id !in s.taken
  {
    var id := s.queue[0].id;
    assert Works(s.queue)[0] == id;
    assert s.enqueued[|s.taken|] == id;
    assert forall i :: 0 <= i < |s.taken| ==> s.enqueued[i] == s.taken[i];
  }

  lemma {:induction false} IdsAppend(resolved: seq<(nat, Outcome)>, id: nat, o: Outcome)
    ensures Ids(resolved + [(id, o)]) == Ids(resolved) + [id]
  {
  }

  lemma {:induction false} PlaceTake(taken: seq<nat>, pool: set<nat>, done: seq<nat>, id: nat)
    requires PlaceInv(taken, {}, pool, done) && id !in taken
    ensures PlaceInv(taken + [id], {id}, pool, done)
  {
  }

  lemma {:induction false} PlaceDrain(taken: seq<nat>, held: set<nat>, pool: set<nat>, done: seq<nat>, id: nat)
    requires PlaceInv(taken, held, pool, done) && id !in taken
    ensures PlaceInv(taken + [id], held, pool, done + [id])
  {
  }

  lemma {:induction false} PlaceResolve(taken: seq<nat>, held: set<nat>, pool: set<nat>, done: seq<nat>, id: nat)
    requires PlaceInv(taken, held, pool, done) && id in held + pool
    ensures PlaceInv(taken, held - {id}, pool - {id}, done + [id])
  {
  }

  ghost predicate Placed(s: State) {
    PlaceInv(s.taken, Held(s.gate), s.pool, Ids(s.resolved))
  }

  lemma {:induction false} PlaceTakeStep(a: Action, s: State, maxRpm: nat)
    requires QueueInv(s) && Placed(s) && Enabled(a, s, maxRpm)
    requires (a.Get? || a.DrainOne?) && s.queue[0].Work?
    ensures Placed(Do(a, s, maxRpm))
  {
    var id := s.queue[0].id;
    TakenIsNew(s);
    if a.Get? {
      PlaceTake(s.taken, s.pool, Ids(s.resolved), id);
    } else {
      IdsAppend(s.resolved, id, ShutDown);
      PlaceDrain(s.taken, Held(s.gate), s.pool, Ids(s.resolved), id);
    }
  }

  lemma {:induction false} PlaceResolveStep(a: Action, s: State, maxRpm: nat)
    requires Placed(s) && Enabled(a, s, maxRpm) && ((a.TestStopAgain? && s.stop) || a.Execute?)
    ensures Placed(Do(a, s, maxRpm))
  {
    var id := if a.Execute? then a.id else s.gate.id;
    IdsAppend(s.resolved, id, if a.Execute? then Executed else ShutDown);
    PlaceResolve(s.taken, Held(s.gate), s.pool, Ids(s.resolved), id);
    assert a.Execute? ==> Held(s.gate) - {id} == Held(s.gate);
    assert a.TestStopAgain? ==> s.pool - {id} == s.pool && Held(s.gate) - {id} == {};
  }

  lemma {:induction false} PlaceStep(a: Action, s: State, maxRpm: nat)
    requires QueueInv(s) && Placed(s) && Enabled(a, s, maxRpm)
    ensures Placed(Do(a, s, maxRpm))
  {
    if (a.Get? || a.DrainOne?) && s.queue[0].Work? {
      PlaceTakeStep(a, s, maxRpm);
    } else if (a.TestStopAgain? && s.stop) || a.Execute? {
      PlaceResolveStep(a, s, maxRpm);
    } else {
      PlaceOther(a, s, maxRpm);
    }
  }

  // The remaining steps resolve nothing and take nothing.
  lemma {:induction false} PlaceOther(a: Action, s: State, maxRpm: nat)
    requires Enabled(a, s, maxRpm)
    requires !((a.Get? || a.DrainOne?) && s.queue[0].Work?) && !(a.TestStopAgain? && s.stop) && !a.Execute?
    ensures var s' := Do(a, s, maxRpm); s'.taken == s.taken && s'.resolved == s.resolved
    ensures var s' := Do(a, s, maxRpm);
            (s'.pool == s.pool && Held(s'.gate) == Held(s.gate))
            || (s'.pool == s.pool + Held(s.gate) && Held(s'.gate) == {})
  {
    if a.SubmitToPool? || a.Get? || a.TestStop? {
      assert Held(s.gate) == {} || s.poolClosed || Do(a, s, maxRpm).pool == s.pool + Held(s.gate);
    }
  }

  lemma {:induction false} OutcomeTake(a: Action, s: State, maxRpm: nat)
    requires FlowInv(s) && Enabled(a, s, maxRpm) && (a.Get? || a.DrainOne?)
    ensures OutcomeInv(Do(a, s, maxRpm))
  {
    if s.queue[0].Work? {
      TakenIsNew(s);
    }
  }

  lemma {:induction false} OutcomeResolve(a: Action, s: State, maxRpm: nat)
    requires FlowInv(s) && Enabled(a, s, maxRpm) && (a.TestStopAgain? || a.Execute?)
    ensures OutcomeInv(Do(a, s, maxRpm))
  {
  }

  lemma {:induction false} OutcomeRecord(s: State, maxRpm: nat)
    requires FlowInv(s) && Enabled(Record, s, maxRpm)
    ensures OutcomeInv(Do(Record, s, maxRpm))
  {
    var id := s.gate.id;
    forall r | r in s.resolved
      ensures r.0 != id
    {
      var i :| 0 <= i < |s.resolved| && s.resolved[i] == r;
      assert Ids(s.resolved)[i] == r.0;
    }
  }

  // The other steps resolve, record and take nothing.
  lemma {:induction false} OutcomeFrame(a: Action, s: State, maxRpm: nat)
    requires Enabled(a, s, maxRpm) && !a.Get? && !a.DrainOne? && !a.TestStopAgain? && !a.Execute? && !a.Record?
    ensures var s' := Do(a, s, maxRpm);
            && s'.resolved == s.resolved && s'.started == s.started && s'.taken == s.taken
  {
  }

  lemma {:induction false} PoolFrame(a: Action, s: State, maxRpm: nat)
    requires Enabled(a, s, maxRpm) && !a.Get? && !a.DrainOne? && !a.TestStopAgain? && !a.Execute? && !a.Record?
    ensures Do(a, s, maxRpm).pool <= s.pool + (if HeldStarted(s.gate) then Held(s.gate) else {})
  {
  }

  lemma {:induction false} HoldingFrame(a: Action, s: State, maxRpm: nat)
    requires Enabled(a, s, maxRpm) && !a.Get? && !a.DrainOne? && !a.TestStopAgain? && !a.Execute? && !a.Record?
    ensures var gate := Do(a, s, maxRpm).gate;
            Held(gate) == {} || (Held(gate) == Held(s.gate) && HeldStarted(gate) == HeldStarted(s.gate))
  {
  }

  lemma {:induction false} OutcomeStep(a: Action, s: State, maxRpm: nat)
    requires FlowInv(s) && Enabled(a, s, maxRpm)
    ensures OutcomeInv(Do(a, s, maxRpm))
  {
    if a.Get? || a.DrainOne? {
      OutcomeTake(a, s, maxRpm);
    } else if a.TestStopAgain? || a.Execute? {
      OutcomeResolve(a, s, maxRpm);
    } else if a.Record? {
      OutcomeRecord(s, maxRpm);
    } else {
      OutcomeFrame(a, s, maxRpm);
      PoolFrame(a, s, maxRpm);
      HoldingFrame(a, s, maxRpm);
    }
  }

  lemma {:induction false} FlowAlways(actions: seq<Action>, start: int, s: State, maxRpm: nat)
    requires Reaches(actions, start, s, maxRpm)
    ensures FlowInv(s)
    decreases |actions|
  {
    if actions != [] {
      var init, last := actions[..|actions| - 1], actions[|actions| - 1];
      var prev :| Reaches(init, start, prev, maxRpm) && Enabled(last, prev, maxRpm) && s == Do(last, prev, maxRpm);
      FlowAlways(init, start, prev, maxRpm);
      QueueStep(last, prev, maxRpm);
      PlaceStep(last, prev, maxRpm);
      OutcomeStep(last, prev, maxRpm);
      JoinStep(last, prev, maxRpm);
    }
  }

  // Nothing is left to do: a shutdown has drained the queue, the gate thread
  // is gone and the pool has run what it accepted.
  predicate Settled(s: State) {
    s.drained && (s.gate.Exited? || s.gate.Crashed?) && s.pool == {}
  }

  ghost predicate ResolvedOnce(s: State, id: nat) {
    exists i :: 0 <= i < |s.resolved| && s.resolved[i].0 == id
                && forall j :: 0 <= j < |s.resolved| && s.resolved[j].0 == id ==> j == i
  }

  lemma {:induction false} SettledItem(s: State, id: nat)
    requires QueueInv(s) && Placed(s) && Settled(s) && id in s.enqueued && id !in s.late
    ensures id in Ids(s.resolved) <==> s.gate != Crashed(id)
  {
    assert id in s.taken;
  }

  lemma {:induction false} ResolvedOnceIff(s: State, id: nat)
    requires Distinct(Ids(s.resolved))
    ensures ResolvedOnce(s, id) <==> id in Ids(s.resolved)
  {
    var done := Ids(s.resolved);
    if id in done {
      var i :| 0 <= i < |done| && done[i] == id;
      assert s.resolved[i].0 == id;
      assert forall j :: 0 <= j < |done| ==> done[j] == s.resolved[j].0;
    }
  }

  // Items leave the queue first in, first out; no future is resolved twice;
  // an item is executed exactly if a dispatch was recorded for it.
  lemma {:induction false} FuturesNeverTwice(actions: seq<Action>, start: int, s: State, maxRpm: nat)
    requires Reaches(actions, start, s, maxRpm)
    ensures s.taken <= s.enqueued
    ensures Distinct(Ids(s.resolved))
    ensures forall r <- s.resolved :: r.1 == Executed <==> r.0 in s.started
  {
    FlowAlways(actions, start, s, maxRpm);
  }

  // At the end every item put before the drain completed has its future
  // resolved exactly once. The one exception is an item whose dispatch met a
  // pool that was closed behind a join that had timed out.
  lemma {:induction false} FuturesConserved(actions: seq<Action>, start: int, s: State, maxRpm: nat, id: nat)
    requires Reaches(actions, start, s, maxRpm)
    requires Settled(s) && id in s.enqueued && id !in s.late
    ensures ResolvedOnce(s, id) <==> s.gate != Crashed(id)
    ensures s.gate.Crashed? ==> s.shutdown.timedOut
  {
    FlowAlways(actions, start, s, maxRpm);
    SettledItem(s, id);
    ResolvedOnceIff(s, id);
  }

  // ----- after stop -----

  // From any state on.
  ghost predicate Leads(actions: seq<Action>, from: State, s: State, maxRpm: nat)
    decreases |actions|
  {
    if actions == [] then
      s == from
    else
      var last := actions[|actions| - 1];
      exists prev :: Leads(actions[..|actions| - 1], from, prev, maxRpm) && Enabled(last, prev, maxRpm)
                     && s == Do(last, prev, maxRpm)
  }

  // A step of the gate thread.
  predicate OfGate(a: Action) {
    || a.TestStop? || a.GetTimeout? || a.Get? || a.FirstPrune? || a.WaitAndPrune? || a.LeaveWait?
    || a.TestStopAgain? || a.Record? || a.SubmitToPool?
  }

  function GateSteps(actions: seq<Action>): nat {
    if actions == [] then 0
    else GateSteps(actions[..|actions| - 1]) + if OfGate(actions[|actions| - 1]) then 1 else 0
  }

  // How many steps the gate thread still takes once stop is set.
  function StepsLeft(g: Gate): nat {
    match g
    case Exited => 0
    case Crashed(_) => 0
    case Looping => 1
    case Decided(_) => 1
    case Recorded(_) => 2
    case Waiting(_) => 2
    case Cleared(_) => 3
    case Took(_) => 3
    case Getting => 4
  }

  lemma {:induction false} GateWinds(a: Action, s: State, maxRpm: nat)
    requires Enabled(a, s, maxRpm) && s.stop
    ensures var g := Do(a, s, maxRpm).gate; StepsLeft(g) + (if OfGate(a) then 1 else 0) <= StepsLeft(s.gate)
  {
  }

  lemma {:induction false} StopStays(a: Action, s: State, maxRpm: nat)
    requires Enabled(a, s, maxRpm) && s.stop
    ensures var s' := Do(a, s, maxRpm);
            && s'.stop && s'.passed <= s.passed
            && (s'.enqueued == s.enqueued || (a.Put? && a.id in s.passed && s'.enqueued == s.enqueued + [a.id]))
  {
  }

  lemma {:induction false} RecordsWind(a: Action, s: State, maxRpm: nat)
    requires Enabled(a, s, maxRpm) && s.stop
    ensures var s' := Do(a, s, maxRpm);
            && |s'.dispatched| + (if s'.gate.Cleared? then 1 else 0) <=
               |s.dispatched| + (if s.gate.Cleared? then 1 else 0)
            && s.dispatched <= s'.dispatched
  {
  }

  // Once stop is set the gate thread takes at most four more steps, at most one
  // dispatch is recorded, the one already cleared, and nobody is enqueued who had
  // not passed the test before.
  lemma {:induction false} StopWinds(actions: seq<Action>, from: State, s: State, maxRpm: nat)
    requires Leads(actions, from, s, maxRpm) && from.stop
    ensures s.stop && GateSteps(actions) + StepsLeft(s.gate) <= StepsLeft(from.gate) <= 4
    ensures |s.dispatched| + (if s.gate.Cleared? then 1 else 0) <=
            |from.dispatched| + (if from.gate.Cleared? then 1 else 0)
    ensures s.passed <= from.passed && forall id <- s.enqueued :: id in from.enqueued || id in from.passed
    decreases |actions|
  {
    if actions != [] {
      var init, last := actions[..|actions| - 1], actions[|actions| - 1];
      var prev :| Leads(init, from, prev, maxRpm) && Enabled(last, prev, maxRpm) && s == Do(last, prev, maxRpm);
      StopWinds(init, from, prev, maxRpm);
      GateWinds(last, prev, maxRpm);
      StopStays(last, prev, maxRpm);
      RecordsWind(last, prev, maxRpm);
    }
  }

  // In particular none is recorded once stop is set, unless the gate thread had
  // tested it just before: whoever has observed stop dispatches no more.
  lemma {:induction false} NoDispatchAfterStop(actions: seq<Action>, from: State, s: State, maxRpm: nat)
    requires Leads(actions, from, s, maxRpm) && from.stop && !from.gate.Cleared?
    ensures !s.gate.Cleared? && s.dispatched == from.dispatched
    decreases |actions|
  {
    if actions != [] {
      var init, last := actions[..|actions| - 1], actions[|actions| - 1];
      var prev :| Leads(init, from, prev, maxRpm) && Enabled(last, prev, maxRpm) && s == Do(last, prev, maxRpm);
      NoDispatchAfterStop(init, from, prev, maxRpm);
      StopWinds(init, from, prev, maxRpm);
      RecordsWind(last, prev, maxRpm);
    }
  }

  // And until it has ended it can take one.
  lemma {:induction false} GateCanMove(s: State, maxRpm: nat) returns (a: Action)
    requires !Ended(s.gate)
    ensures OfGate(a) && Enabled(a, s, maxRpm)
  {
    a := match s.gate
      case Looping => TestStop
      case Getting => if s.queue == [] then GetTimeout else Get
      case Took(_) => FirstPrune
      case Waiting(_) => if |s.timestamps| < maxRpm || s.stop then LeaveWait else WaitAndPrune
      case Decided(_) => TestStopAgain
      case Cleared(_) => Record
      case _ => SubmitToPool;
  }

  // A sentinel ends the gate thread for good, whether or not stop is seen.
  lemma {:induction false} SentinelEnds(s: State, actions: seq<Action>, t: State, maxRpm: nat)
    requires Enabled(Get, s, maxRpm) && s.queue[0] == Sentinel && Leads(actions, Do(Get, s, maxRpm), t, maxRpm)
    ensures t.gate == Exited && GateSteps(actions) == 0
    decreases |actions|
  {
    if actions != [] {
      var from, init, last := Do(Get, s, maxRpm), actions[..|actions| - 1], actions[|actions| - 1];
      var prev :| Leads(init, from, prev, maxRpm) && Enabled(last, prev, maxRpm) && t == Do(last, prev, maxRpm);
      SentinelEnds(s, init, prev, maxRpm);
      ExitedStays(last, prev, maxRpm);
    }
  }

  // Whoever takes from the queue takes its head.
  lemma {:induction false} TakesHead(a: Action, s: State, maxRpm: nat)
    requires Enabled(a, s, maxRpm) && (a.Get? || a.DrainOne?)
    ensures s.queue == [s.queue[0]] + Do(a, s, maxRpm).queue
  {
  }

  lemma {:induction false} ExitedStays(a: Action, s: State, maxRpm: nat)
    requires Enabled(a, s, maxRpm) && s.gate.Exited?
    ensures Do(a, s, maxRpm).gate == Exited && !OfGate(a)
  {
  }

  // The steps of one shutdown call.
  predicate OfCaller(a: Action, c: nat) {
    && (a.SetStop? || a.PutSentinel? || a.EndJoin? || a.DrainOne? || a.DrainEnd? || a.ClosePool?)
    && a.c == c
  }

  // A shutdown call ends by closing the pool.
  lemma {:induction false} ShutdownReturns(s: State, c: nat, actions: seq<Action>, t: State, maxRpm: nat)
    requires Enabled(ClosePool(c), s, maxRpm) && Leads(actions, Do(ClosePool(c), s, maxRpm), t, maxRpm)
    ensures At(t, c) == Some(Returned) && t.poolClosed && forall a <- actions :: !OfCaller(a, c)
    decreases |actions|
  {
    if actions != [] {
      var from, init, last := Do(ClosePool(c), s, maxRpm), actions[..|actions| - 1], actions[|actions| - 1];
      var prev :| Leads(init, from, prev, maxRpm) && Enabled(last, prev, maxRpm) && t == Do(last, prev, maxRpm);
      ShutdownReturns(s, c, init, prev, maxRpm);
      ReturnedStays(last, prev, c, maxRpm);
      assert actions == init + [last];
    }
  }

  lemma {:induction false} ReturnedStays(a: Action, s: State, c: nat, maxRpm: nat)
    requires Enabled(a, s, maxRpm) && At(s, c) == Some(Returned) && s.poolClosed
    ensures var s' := Do(a, s, maxRpm); At(s', c) == Some(Returned) && s'.poolClosed && !OfCaller(a, c)
  {
    if NotShutdown(a) {
      ShutdownStays(a, s, maxRpm);
    }
  }

  // Every shutdown call begins by setting stop.
  lemma {:induction false} ShutdownStops(actions: seq<Action>, start: int, s: State, maxRpm: nat)
    requires Reaches(actions, start, s, maxRpm) && s.shutdown.callers != map[]
    ensures s.stop
    decreases |actions|
  {
    if actions != [] {
      var init, last := actions[..|actions| - 1], actions[|actions| - 1];
      var prev :| Reaches(init, start, prev, maxRpm) && Enabled(last, prev, maxRpm) && s == Do(last, prev, maxRpm);
      if prev.shutdown.callers != map[] {
        ShutdownStops(init, start, prev, maxRpm);
        StopStays(last, prev, maxRpm);
      } else {
        FirstCaller(last, prev, maxRpm);
      }
    }
  }

  lemma {:induction false} FirstCaller(a: Action, s: State, maxRpm: nat)
    requires Enabled(a, s, maxRpm) && s.shutdown.callers == map[]
    ensures var s' := Do(a, s, maxRpm); s'.shutdown.callers != map[] ==> s'.stop
  {
    if NotShutdown(a) {
      ShutdownStays(a, s, maxRpm);
    }
  }

  // Whoever put a sentinel did so after the start.
  ghost predicate SinceInv(start: int, s: State) {
    && start <= s.now
    && (forall c <- s.shutdown.callers :: s.shutdown.callers[c].Joining? ==> start <= s.shutdown.callers[c].since)
    && (s.shutdown.timedOut ==> s.now - start >= 5_000_000_000)
  }

  lemma {:induction false} SinceStep(a: Action, start: int, s: State, maxRpm: nat)
    requires SinceInv(start, s) && Enabled(a, s, maxRpm)
    ensures SinceInv(start, Do(a, s, maxRpm))
  {
    if NotShutdown(a) {
      ShutdownStays(a, s, maxRpm);
      NowGrows(a, s, maxRpm);
    }
  }

  lemma {:induction false} NowGrows(a: Action, s: State, maxRpm: nat)
    requires Enabled(a, s, maxRpm)
    ensures Do(a, s, maxRpm).now >= s.now
  {
  }

  // A join gives up no earlier than five seconds into the run.
  lemma {:induction false} TimeoutTakesTime(actions: seq<Action>, start: int, s: State, maxRpm: nat)
    requires Reaches(actions, start, s, maxRpm)
    ensures SinceInv(start, s)
    ensures s.shutdown.timedOut ==> s.now >= start + 5_000_000_000
    decreases |actions|
  {
    if actions != [] {
      var init, last := actions[..|actions| - 1], actions[|actions| - 1];
      var prev :| Reaches(init, start, prev, maxRpm) && Enabled(last, prev, maxRpm) && s == Do(last, prev, maxRpm);
      TimeoutTakesTime(init, start, prev, maxRpm);
      SinceStep(last, start, prev, maxRpm);
    }
  }

  // One more step of a run that starts at time zero and allows one dispatch a minute.
  lemma {:induction false} Step(actions: seq<Action>, s: State, a: Action) returns (longer: seq<Action>, s': State)
    requires Reaches(actions, 0, s, 1) && Enabled(a, s, 1)
    ensures Reaches(longer, 0, s', 1) && s' == Do(a, s, 1)
  {
    longer, s' := actions + [a], Do(a, s, 1);
    assert longer[..|longer| - 1] == actions && longer[|longer| - 1] == a;
  }

  // An item taken by the gate thread...
  lemma {:induction false} OneTaken() returns (actions: seq<Action>, s: State)
    ensures Reaches(actions, 0, s, 1)
    ensures s.gate == Took(7) && s.enqueued == [7] && s.queue == [] && s.pool == {} && s.late == {}
    ensures s.timestamps == [] && !s.drained && !s.stop && s.shutdown.callers == map[]
  {
    actions, s := [], Init(0);
    actions, s := Step(actions, s, PassCheck(7));
    actions, s := Step(actions, s, Put(7));
    actions, s := Step(actions, s, TestStop);
    actions, s := Step(actions, s, Get);
  }

  // ... and recorded before stop is set.
  lemma {:induction false} OneRecorded() returns (actions: seq<Action>, s: State)
    ensures Reaches(actions, 0, s, 1)
    ensures s.gate == Recorded(7) && s.enqueued == [7] && s.queue == [] && s.pool == {} && s.late == {} && !s.drained
    ensures s.shutdown.callers == map[]
  {
    actions, s := OneTaken();
    actions, s := Step(actions, s, FirstPrune);
    actions, s := Step(actions, s, LeaveWait);
    actions, s := Step(actions, s, TestStopAgain);
    actions, s := Step(actions, s, Record);
  }

  // A shutdown called at this point puts its sentinel...
  lemma {:induction false} SentinelPut() returns (actions: seq<Action>, s: State)
    ensures Reaches(actions, 0, s, 1)
    ensures s.gate == Recorded(7) && s.enqueued == [7] && s.pool == {} && s.late == {} && s.queue == [Sentinel]
    ensures At(s, 0) == Some(Joining(s.now))
  {
    actions, s := OneRecorded();
    actions, s := Step(actions, s, SetStop(0));
    actions, s := Step(actions, s, PutSentinel(0));
  }

  // ... waits its five seconds...
  lemma {:induction false} JoinGivesUp() returns (actions: seq<Action>, s: State)
    ensures Reaches(actions, 0, s, 1)
    ensures s.gate == Recorded(7) && s.enqueued == [7] && s.pool == {} && s.late == {} && s.queue == [Sentinel]
    ensures At(s, 0) == Some(Draining)
  {
    actions, s := SentinelPut();
    actions, s := Step(actions, s, Tick(5_000_000_000));
    actions, s := Step(actions, s, EndJoin(0));
  }

  // ... drains its own sentinel...
  lemma {:induction false} SentinelDrained() returns (actions: seq<Action>, s: State)
    ensures Reaches(actions, 0, s, 1)
    ensures s.gate == Recorded(7) && s.enqueued == [7] && s.pool == {} && s.late == {} && s.queue == []
    ensures At(s, 0) == Some(Draining)
  {
    actions, s := JoinGivesUp();
    actions, s := Step(actions, s, DrainOne(0));
  }

  // ... and closes the pool under the gate thread...
  lemma {:induction false} ClosedTooEarly() returns (actions: seq<Action>, s: State)
    ensures Reaches(actions, 0, s, 1)
    ensures s.gate == Recorded(7) && s.enqueued == [7] && s.pool == {} && s.late == {} && s.drained && s.poolClosed
  {
    actions, s := SentinelDrained();
    actions, s := Step(actions, s, DrainEnd(0));
    actions, s := Step(actions, s, ClosePool(0));
  }

  // ... which loses the future for good.
  lemma {:induction false} JoinTimeoutLosesFuture() returns (actions: seq<Action>, s: State)
    ensures Reaches(actions, 0, s, 1) && Settled(s) && 7 in s.enqueued && 7 !in s.late && !ResolvedOnce(s, 7)
  {
    actions, s := ClosedTooEarly();
    actions, s := Step(actions, s, SubmitToPool);
    FuturesConserved(actions, 0, s, 1, 7);
  }
}
