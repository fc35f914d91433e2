/** Running one batch of tool calls, one after the other or in parallel
    (src/lingtai_kernel/tool_executor.py). What the guards, the tools, the hook
    and the clock do is given: any of it may happen. */
module ToolExecutor {
  import opened Wrappers

  datatype Call = Call(id: string, name: string, args: string)

  // What the checks before dispatch say.
  datatype Check = Unknown | Denied(reason: string) | Allowed

  // A tool's return value; it may ask the kernel to stop the batch.
  datatype Reply = Reply(text: string, failed: bool, intercept: Option<string>)

  // Broken: the worker died outside the dispatch itself.
  datatype Outcome = Returned(reply: Reply) | Raised(message: string) | Broken(message: string)

  datatype Phase = Validation | Denial | Success | ToolError | Dispatch | Future | Timeout

  datatype Message = Message(id: string, phase: Phase, body: string)

  // `hooks[i]` is what the result hook says when it is shown the result of call i.
  datatype Batch = Batch(calls: seq<Call>, checks: seq<Check>, hooks: seq<Option<string>>) {
    predicate Valid() {
      |checks| == |calls| && |hooks| == |calls|
    }
  }

  function Rejection(call: Call, check: Check): Message {
    if check.Unknown? then Message(call.id, Validation, call.name)
    else Message(call.id, Denial, if check.Denied? then check.reason else "")
  }

  function Delivery(call: Call, reply: Reply): Message {
    Message(call.id, if reply.failed then ToolError else Success, reply.text)
  }

  // What the model is told about call i, given what became of it.
  function Answer(b: Batch, i: nat, outcome: Option<Outcome>): Message
    requires b.Valid() && i < |b.calls|
  {
    if !b.checks[i].Allowed? then Rejection(b.calls[i], b.checks[i])
    else match outcome
      case None => Message(b.calls[i].id, Timeout, "Timed out")
      case Some(Returned(reply)) => Delivery(b.calls[i], reply)
      case Some(Raised(message)) => Message(b.calls[i].id, Dispatch, message)
      case Some(Broken(message)) => Message(b.calls[i].id, Future, message)
  }

  // A rejected call is told why, whatever became of it; of an executed one the
  // model sees exactly what the tool returned, or what kept it from returning.
  lemma {:induction false} AnswerIsTrue(b: Batch, i: nat, outcome: Option<Outcome>)
    requires b.Valid() && i < |b.calls|
    ensures var call, check, m := b.calls[i], b.checks[i], Answer(b, i, outcome);
            && m.id == call.id
            && (check == Unknown <==> m.phase == Validation)
            && (check == Unknown ==> m.body == call.name)
            && (check.Denied? <==> m.phase == Denial)
            && (check.Denied? ==> m.body == check.reason)
            && (check == Allowed ==>
                  && (outcome == None <==> m.phase == Timeout) && (outcome == None ==> m.body == "Timed out")
                  && (outcome.Some? && outcome.value.Returned? <==> m.phase == Success || m.phase == ToolError)
                  && (outcome.Some? && outcome.value.Returned? ==>
                        m.body == outcome.value.reply.text && (m.phase == ToolError <==> outcome.value.reply.failed))
                  && (outcome.Some? && !outcome.value.Returned? ==>
                        m.body == outcome.value.message && (m.phase == Future <==> outcome.value.Broken?)))
  {
  }

  // ----- sorting by index -----

  datatype Indexed = At(at: nat, message: Message)

  function Insert(x: Indexed, xs: seq<Indexed>): seq<Indexed> {
    if xs == [] || x.at < xs[0].at then [x] + xs else [xs[0]] + Insert(x, xs[1..])
  }

  function SortByIndex(xs: seq<Indexed>): seq<Indexed> {
    if xs == [] then [] else Insert(xs[|xs| - 1], SortByIndex(xs[..|xs| - 1]))
  }

  predicate Increasing(xs: seq<Indexed>) {
    forall i, j :: 0 <= i < j < |xs| ==> xs[i].at < xs[j].at
  }

  predicate DistinctIndexes(xs: seq<Indexed>) {
    forall i, j :: 0 <= i < j < |xs| ==> xs[i].at != xs[j].at
  }

  // Where x goes, everything above `low` stays in order.
  lemma {:induction false} InsertIncreasing(x: Indexed, xs: seq<Indexed>, low: int)
    requires Increasing(xs) && low < x.at && forall i :: 0 <= i < |xs| ==> low < xs[i].at && xs[i].at != x.at
    ensures Increasing(Insert(x, xs)) && forall i :: 0 <= i < |Insert(x, xs)| ==> low < Insert(x, xs)[i].at
  {
    if xs != [] && !(x.at < xs[0].at) {
      InsertIncreasing(x, xs[1..], xs[0].at);
    }
  }

  lemma {:induction false} InsertMember(x: Indexed, xs: seq<Indexed>, y: Indexed)
    ensures y in Insert(x, xs) <==> y == x || y in xs
  {
    if xs != [] && !(x.at < xs[0].at) {
      InsertMember(x, xs[1..], y);
      assert xs == [xs[0]] + xs[1..];
    }
  }

  lemma {:induction false} SortMember(xs: seq<Indexed>, y: Indexed)
    ensures y in SortByIndex(xs) <==> y in xs
  {
    if xs != [] {
      var init, last := xs[..|xs| - 1], xs[|xs| - 1];
      SortMember(init, y);
      InsertMember(last, SortByIndex(init), y);
      assert xs == init + [last];
    }
  }

  lemma {:induction false} SortIncreasing(xs: seq<Indexed>)
    requires DistinctIndexes(xs)
    ensures Increasing(SortByIndex(xs))
  {
    if xs != [] {
      var init, last := xs[..|xs| - 1], xs[|xs| - 1];
      var sorted := SortByIndex(init);
      SortIncreasing(init);
      forall i | 0 <= i < |sorted|
        ensures sorted[i].at != last.at
      {
        SortMember(init, sorted[i]);
        var k :| 0 <= k < |init| && init[k] == sorted[i];
        assert xs[k] == init[k];
      }
      InsertIncreasing(last, sorted, -1);
    }
  }

  // Increasing sequences with the same members are equal.
  lemma {:induction false} IncreasingUnique(a: seq<Indexed>, b: seq<Indexed>)
    requires Increasing(a) && Increasing(b) && forall y :: y in a <==> y in b
    ensures a == b
  {
    if a == [] {
      assert forall i :: 0 <= i < |b| ==> b[i] in b;
    } else {
      assert a[0] in b && (b[0] in a);
      var ra, rb := a[1..], b[1..];
      assert forall i :: 0 <= i < |ra| ==> ra[i] == a[i + 1];
      assert forall i :: 0 <= i < |rb| ==> rb[i] == b[i + 1];
      assert a == [a[0]] + ra && b == [b[0]] + rb;
      forall y
        ensures y in ra <==> y in rb
      {
        assert y in a <==> y in b;
      }
      IncreasingUnique(ra, rb);
    }
  }

  // ----- one call after the other -----

  // The calls below n that pass the checks, in order.
  function AllowedIn(b: Batch, n: nat): seq<nat>
    requires b.Valid() && n <= |b.calls|
  {
    if n == 0 then []
    else if b.checks[n - 1].Allowed? then AllowedIn(b, n - 1) + [n - 1]
    else AllowedIn(b, n - 1)
  }

  predicate Ascending(xs: seq<nat>) {
    forall i, j :: 0 <= i < j < |xs| ==> xs[i] < xs[j]
  }

  // Exactly the calls that pass, each once.
  lemma {:induction false} AllowedOnce(b: Batch, n: nat)
    requires b.Valid() && n <= |b.calls|
    ensures Ascending(AllowedIn(b, n))
    ensures forall i: nat :: i in AllowedIn(b, n) <==> i < n && b.checks[i].Allowed?
  {
    if n > 0 {
      AllowedOnce(b, n - 1);
      AppendIndex(AllowedIn(b, n - 1), n - 1);
    }
  }

  lemma {:induction false} AppendIndex(xs: seq<nat>, x: nat)
    requires Ascending(xs) && forall y <- xs :: y < x
    ensures Ascending(xs + [x]) && forall y: nat :: y in xs + [x] <==> y == x || y in xs
  {
    assert forall i :: 0 <= i < |xs| ==> xs[i] in xs;
  }

  // The tool or the hook asks to stop after the result of call i.
  function StopText(b: Batch, i: nat, reply: Reply): Option<string>
    requires b.Valid() && i < |b.calls|
  {
    if reply.intercept.Some? then reply.intercept else b.hooks[i]
  }

  function StopsAlone(b: Batch, i: nat, outcome: Outcome): Option<string>
    requires b.Valid() && i < |b.calls|
  {
    if b.checks[i].Allowed? && outcome.Returned? then StopText(b, i, outcome.reply) else None
  }

  // A call stops the batch only when it ran and returned, and the tool asked for it,
  // or else the hook did; the tool's text goes first.
  lemma {:induction false} WhoStops(b: Batch, i: nat, reply: Reply)
    requires b.Valid() && i < |b.calls|
    ensures b.checks[i] != Allowed ==> StopsAlone(b, i, Returned(reply)) == None
    ensures b.checks[i] == Allowed && reply.intercept.Some? ==> StopsAlone(b, i, Returned(reply)) == reply.intercept
    ensures b.checks[i] == Allowed && reply.intercept.None? ==> StopsAlone(b, i, Returned(reply)) == b.hooks[i]
    ensures forall message :: StopsAlone(b, i, Raised(message)) == None && StopsAlone(b, i, Broken(message)) == None
  {
  }

  // Here any exception becomes a dispatch error of this call.
  function AnswerAlone(b: Batch, i: nat, outcome: Outcome): Message
    requires b.Valid() && i < |b.calls|
  {
    Answer(b, i, Some(if outcome.Broken? then Raised(outcome.message) else outcome))
  }

  lemma {:induction false} BrokenAlone(b: Batch, i: nat, message: string)
    requires b.Valid() && i < |b.calls| && b.checks[i] == Allowed
    ensures AnswerAlone(b, i, Broken(message)) == Message(b.calls[i].id, Dispatch, message)
  {
  }

  // `cancelAt` is the call before which the cancel event is found set.
  method ExecuteSequential(b: Batch, outcomes: seq<Outcome>, cancelAt: nat)
    returns (results: seq<Message>, stopped: Option<string>, dispatched: seq<nat>)
    requires b.Valid() && |outcomes| == |b.calls|
    ensures |results| <= |b.calls|
    ensures forall i :: 0 <= i < |results| ==> results[i] == AnswerAlone(b, i, outcomes[i])
    ensures forall i :: 0 <= i < |results| - 1 ==> StopsAlone(b, i, outcomes[i]) == None
    ensures stopped.Some? ==> results != [] && stopped == StopsAlone(b, |results| - 1, outcomes[|results| - 1])
    ensures stopped.None? && cancelAt >= |b.calls| ==> |results| == |b.calls|
    ensures stopped.None? && cancelAt >= |b.calls| ==> forall i :: 0 <= i < |b.calls| ==>
            StopsAlone(b, i, outcomes[i]) == None
    ensures stopped.None? && cancelAt < |b.calls| ==> results == [] && dispatched == AllowedIn(b, cancelAt)
    ensures stopped.Some? || cancelAt >= |b.calls| ==> dispatched == AllowedIn(b, |results|)
  {
    results, dispatched := [], [];
    for i := 0 to |b.calls|
      invariant |results| == i && cancelAt >= i && dispatched == AllowedIn(b, i)
      invariant forall j :: 0 <= j < i ==> results[j] == AnswerAlone(b, j, outcomes[j])
      invariant forall j :: 0 <= j < i ==> StopsAlone(b, j, outcomes[j]) == None
    {
      if i == cancelAt {
        return [], None, dispatched;
      }
      if b.checks[i].Allowed? {
        dispatched := dispatched + [i];
      }
      results := results + [AnswerAlone(b, i, outcomes[i])];
      if StopsAlone(b, i, outcomes[i]).Some? {
        return results, StopsAlone(b, i, outcomes[i]), dispatched;
      }
    }
    return results, None, dispatched;
  }

  // ----- in parallel -----

  // The futures in the order in which they complete; those missing time out.
  datatype Arrival = Arrival(at: nat, outcome: Outcome)

  type Arrivals = seq<Arrival>

  predicate Arrives(b: Batch, arrivals: Arrivals)
    requires b.Valid()
  {
    && (forall k :: 0 <= k < |arrivals| ==> arrivals[k].at < |b.calls| && b.checks[arrivals[k].at].Allowed?)
    && (forall j, k :: 0 <= j < k < |arrivals| ==> arrivals[j].at != arrivals[k].at)
  }

  function OutcomeOf(arrivals: Arrivals, i: nat): Option<Outcome> {
    if arrivals == [] then None
    else if arrivals[|arrivals| - 1].at == i then Some(arrivals[|arrivals| - 1].outcome)
    else OutcomeOf(arrivals[..|arrivals| - 1], i)
  }

  function AnswerJoined(b: Batch, arrivals: Arrivals, i: nat): Message
    requires b.Valid() && i < |b.calls|
  {
    Answer(b, i, OutcomeOf(arrivals, i))
  }

  // An exception raised by the tool is a result like any other here: the hook sees it.
  function StopsJoined(b: Batch, arrivals: Arrivals, i: nat): Option<string>
    requires b.Valid() && i < |b.calls|
  {
    if !b.checks[i].Allowed? then None
    else match OutcomeOf(arrivals, i)
      case Some(Returned(reply)) => StopText(b, i, reply)
      case Some(Raised(_)) => b.hooks[i]
      case _ => None
  }

  // The results the join hands back when it has got as far as `bound`: the
  // rejected calls, and the executed ones below it.
  function Joined(b: Batch, arrivals: Arrivals, bound: nat, n: nat): (r: seq<Indexed>)
    requires b.Valid() && n <= |b.calls|
  {
    if n == 0 then []
    else Joined(b, arrivals, bound, n - 1)
         + (if !b.checks[n - 1].Allowed? || n - 1 < bound then [At(n - 1, AnswerJoined(b, arrivals, n - 1))] else [])
  }

  predicate Member(b: Batch, arrivals: Arrivals, bound: nat, y: Indexed)
    requires b.Valid()
  {
    y.at < |b.calls| && y.message == AnswerJoined(b, arrivals, y.at) && (!b.checks[y.at].Allowed? || y.at < bound)
  }

  lemma {:induction false} JoinedIncreasing(b: Batch, arrivals: Arrivals, bound: nat, n: nat)
    requires b.Valid() && n <= |b.calls|
    ensures var r := Joined(b, arrivals, bound, n); Increasing(r) && forall i :: 0 <= i < |r| ==> r[i].at < n
  {
    if n > 0 {
      JoinedIncreasing(b, arrivals, bound, n - 1);
    }
  }

  lemma {:induction false} JoinedMember(b: Batch, arrivals: Arrivals, bound: nat, n: nat, y: Indexed)
    requires b.Valid() && n <= |b.calls|
    ensures y in Joined(b, arrivals, bound, n) <==> Member(b, arrivals, bound, y) && y.at < n
  {
    if n > 0 {
      JoinedMember(b, arrivals, bound, n - 1, y);
    }
  }

  predicate Rejected(b: Batch, y: Indexed)
    requires b.Valid()
  {
    y.at < |b.calls| && !b.checks[y.at].Allowed? && y.message == Rejection(b.calls[y.at], b.checks[y.at])
  }

  // Phase 1: the checks, one call after the other.
  method Partition(b: Batch) returns (toExecute: seq<nat>, rejected: seq<Indexed>)
    requires b.Valid()
    ensures toExecute == AllowedIn(b, |b.calls|) && DistinctIndexes(rejected)
    ensures forall y :: y in rejected <==> Rejected(b, y)
  {
    toExecute, rejected := [], [];
    for i := 0 to |b.calls|
      invariant toExecute == AllowedIn(b, i) && DistinctIndexes(rejected)
      invariant forall y <- rejected :: y.at < i
      invariant forall y :: y in rejected <==> Rejected(b, y) && y.at < i
    {
      if b.checks[i].Allowed? {
        toExecute := toExecute + [i];
      } else {
        rejected := rejected + [At(i, Rejection(b.calls[i], b.checks[i]))];
      }
    }
  }

  // Phase 2: futures as they complete, then those that did not complete in time.
  method Await(b: Batch, toExecute: seq<nat>, arrivals: Arrivals, cancelAt: nat)
    returns (cancelled: bool, replies: map<nat, Outcome>, errors: map<nat, Message>)
    requires b.Valid() && Arrives(b, arrivals) && toExecute == AllowedIn(b, |b.calls|)
    ensures cancelled <==> cancelAt < |arrivals|
    ensures !cancelled ==> forall i <- toExecute :: i < |b.calls| && Settled(b, arrivals, i, replies, errors)
  {
    cancelled, replies, errors := AsCompleted(b, arrivals, cancelAt);
    if !cancelled {
      errors := TimedOut(b, toExecute, arrivals, replies, errors);
    }
  }

  method AsCompleted(b: Batch, arrivals: Arrivals, cancelAt: nat)
    returns (cancelled: bool, replies: map<nat, Outcome>, errors: map<nat, Message>)
    requires b.Valid() && Arrives(b, arrivals)
    ensures cancelled <==> cancelAt < |arrivals|
    ensures !cancelled ==> Recorded(b, arrivals, replies, errors)
  {
    replies, errors := map[], map[];
    for k := 0 to |arrivals|
      invariant cancelAt >= k && Recorded(b, arrivals[..k], replies, errors)
    {
      if k == cancelAt {
        return true, replies, errors;
      }
      RecordOne(b, arrivals, k, replies, errors);
      var arrival := arrivals[k];
      if arrival.outcome.Broken? {
        errors := errors[arrival.at := Message(b.calls[arrival.at].id, Future, arrival.outcome.message)];
      } else {
        replies := replies[arrival.at := arrival.outcome];
      }
    }
    assert arrivals[..|arrivals|] == arrivals;
    cancelled := false;
  }

  method TimedOut(b: Batch, toExecute: seq<nat>, arrivals: Arrivals, replies: map<nat, Outcome>, before: map<nat,
          Message>)
    returns (errors: map<nat, Message>)
    requires b.Valid() && toExecute == AllowedIn(b, |b.calls|) && Recorded(b, arrivals, replies, before)
    ensures forall i <- toExecute :: i < |b.calls| && Settled(b, arrivals, i, replies, errors)
  {
    AllowedOnce(b, |b.calls|);
    errors := before;
    for k := 0 to |toExecute|
      invariant forall i <- before :: i in errors
      invariant forall i <- errors :: i < |b.calls| && Failure(b, arrivals, i, replies, errors[i])
      invariant forall j :: 0 <= j < k ==> toExecute[j] in replies || toExecute[j] in errors
    {
      var i := toExecute[k];
      assert i in toExecute;
      if i !in replies && i !in errors {
        errors := errors[i := Message(b.calls[i].id, Timeout, "Timed out")];
      }
    }
  }

  ghost predicate Failure(b: Batch, arrivals: Arrivals, i: nat, replies: map<nat, Outcome>, message: Message)
    requires b.Valid() && i < |b.calls|
  {
    i !in replies && message == AnswerJoined(b, arrivals, i)
    && (OutcomeOf(arrivals, i).Some? ==> OutcomeOf(arrivals, i).value.Broken?)
  }

  ghost predicate Recorded(b: Batch, seen: Arrivals, replies: map<nat, Outcome>, errors: map<nat, Message>)
    requires b.Valid()
  {
    && (forall i :: i in replies ==> OutcomeOf(seen, i) == Some(replies[i]) && !replies[i].Broken?)
    && (forall i <- errors :: i < |b.calls| && Failure(b, seen, i, replies, errors[i]) && OutcomeOf(seen, i).Some?)
    && (forall i :: OutcomeOf(seen, i).Some? ==> i in replies || i in errors)
  }

  // One more future, stored where it belongs.
  lemma {:induction false} RecordOne(b: Batch, arrivals: Arrivals, k: nat, replies: map<nat, Outcome>,
          errors: map<nat, Message>)
    requires b.Valid() && Arrives(b, arrivals) && k < |arrivals| && Recorded(b, arrivals[..k], replies, errors)
    ensures var a := arrivals[k];
            Recorded(b, arrivals[..k + 1],
                     if a.outcome.Broken? then replies else replies[a.at := a.outcome],
                     if a.outcome.Broken? then
                       errors[a.at := Message(b.calls[a.at].id, Future, a.outcome.message)]
                     else errors)
  {
    var a := arrivals[k];
    var seen, longer := arrivals[..k], arrivals[..k + 1];
    assert longer[..k] == seen;
    NotSeen(arrivals, k, a.at);
    assert forall i :: OutcomeOf(longer, i) == if i == a.at then Some(a.outcome) else OutcomeOf(seen, i);
  }

  lemma {:induction false} NotSeen(arrivals: Arrivals, k: nat, i: nat)
    requires k <= |arrivals| && forall j :: 0 <= j < k ==> arrivals[j].at != i
    ensures OutcomeOf(arrivals[..k], i) == None
  {
    if k > 0 {
      assert arrivals[..k][..k - 1] == arrivals[..k - 1];
      NotSeen(arrivals, k - 1, i);
    }
  }

  ghost predicate Settled(b: Batch, arrivals: Arrivals, i: nat, replies: map<nat, Outcome>, errors: map<nat, Message>)
    requires b.Valid() && i < |b.calls|
  {
    if i in replies then OutcomeOf(arrivals, i) == Some(replies[i]) && !replies[i].Broken?
    else i in errors && Failure(b, arrivals, i, replies, errors[i])
  }

  // The first call below n that stops the batch.
  function FirstStop(b: Batch, arrivals: Arrivals, n: nat): (r: Option<nat>)
    requires b.Valid() && n <= |b.calls|
    ensures r.Some? ==> r.value < n && StopsJoined(b, arrivals, r.value).Some?
    ensures forall i :: 0 <= i < (if r.Some? then r.value else n) ==> StopsJoined(b, arrivals, i) == None
  {
    if n == 0 then None
    else if FirstStop(b, arrivals, n - 1).Some? then FirstStop(b, arrivals, n - 1)
    else if StopsJoined(b, arrivals, n - 1).Some? then Some(n - 1)
    else None
  }

  lemma {:induction false} FirstStopIs(b: Batch, arrivals: Arrivals, n: nat, i: nat)
    requires b.Valid() && i < n <= |b.calls| && StopsJoined(b, arrivals, i).Some?
    requires forall j :: 0 <= j < i ==> StopsJoined(b, arrivals, j) == None
    ensures FirstStop(b, arrivals, n) == Some(i)
  {
    var r := FirstStop(b, arrivals, n);
    if r.Some? {
      assert StopsJoined(b, arrivals, r.value).Some?;
    }
  }

  // How far the join gets.
  function Bound(b: Batch, arrivals: Arrivals): nat
    requires b.Valid()
  {
    match FirstStop(b, arrivals, |b.calls|)
    case None => |b.calls|
    case Some(i) => i + 1
  }

  function Next(b: Batch, toExecute: seq<nat>, k: nat): nat {
    if k < |toExecute| then toExecute[k] else |b.calls|
  }

  // Between one executed call and the next there are only rejected ones.
  lemma {:induction false} RejectedBetween(b: Batch, toExecute: seq<nat>, k: nat)
    requires b.Valid() && toExecute == AllowedIn(b, |b.calls|) && k <= |toExecute|
    ensures Next(b, toExecute, k) <= |b.calls|
    ensures k > 0 ==> toExecute[k - 1] < Next(b, toExecute, k)
    ensures forall j :: (if k > 0 then toExecute[k - 1] + 1 else 0) <= j < Next(b, toExecute, k) ==>
            !b.checks[j].Allowed?
  {
    AllowedOnce(b, |b.calls|);
    if k < |toExecute| {
      assert toExecute[k] in toExecute;
    }
    if k > 0 {
      assert toExecute[k - 1] in toExecute;
    }
    forall j | (if k > 0 then toExecute[k - 1] + 1 else 0) <= j < Next(b, toExecute, k)
      ensures !b.checks[j].Allowed?
    {
      forall m | 0 <= m < |toExecute|
        ensures toExecute[m] != j
      {
        if m < k {
          assert toExecute[m] <= toExecute[k - 1];
        } else {
          assert toExecute[k] <= toExecute[m];
        }
      }
      assert j !in toExecute;
    }
  }

  // One more executed call joins the list.
  lemma {:induction false} JoinOne(b: Batch, arrivals: Arrivals, toExecute: seq<nat>, k: nat, list: seq<Indexed>)
    requires b.Valid() && toExecute == AllowedIn(b, |b.calls|) && k < |toExecute| && toExecute[k] < |b.calls|
    requires DistinctIndexes(list) && forall y :: y in list <==> Member(b, arrivals, toExecute[k], y)
    ensures var longer := list + [At(toExecute[k], AnswerJoined(b, arrivals, toExecute[k]))];
            && DistinctIndexes(longer)
            && (forall y :: y in longer <==> Member(b, arrivals, toExecute[k] + 1, y))
            && (forall y :: y in longer <==> Member(b, arrivals, Next(b, toExecute, k + 1), y))
  {
    AllowedOnce(b, |b.calls|);
    assert toExecute[k] in toExecute;
    RejectedBetween(b, toExecute, k + 1);
    assert forall i :: 0 <= i < |list| ==> list[i] in list;
  }

  // What is settled is told to the model, and stops the batch, as it should.
  lemma {:induction false} SettledAnswer(b: Batch, arrivals: Arrivals, i: nat, replies: map<nat, Outcome>,
          errors: map<nat, Message>)
    requires b.Valid() && i < |b.calls| && b.checks[i].Allowed? && Settled(b, arrivals, i, replies, errors)
    ensures (if i in replies then Answer(b, i, Some(replies[i])) else errors[i]) == AnswerJoined(b, arrivals, i)
    ensures StopsJoined(b, arrivals, i) == if i in replies then ShownAndStops(b, i, replies[i]) else None
  {
  }

  // Phase 3: results in input order, until one of them stops the batch.
  method Join(b: Batch, toExecute: seq<nat>, rejected: seq<Indexed>, replies: map<nat, Outcome>, errors: map<nat,
          Message>, ghost arrivals: Arrivals)
    returns (results: seq<Indexed>, stopped: Option<string>)
    requires b.Valid() && toExecute == AllowedIn(b, |b.calls|) && DistinctIndexes(rejected)
    requires forall y :: y in rejected <==> Rejected(b, y)
    requires forall i <- toExecute :: i < |b.calls| && Settled(b, arrivals, i, replies, errors)
    ensures results == Joined(b, arrivals, Bound(b, arrivals), |b.calls|)
    ensures stopped == match FirstStop(b, arrivals, |b.calls|)
                       case None => None
                       case Some(i) => StopsJoined(b, arrivals, i)
  {
    var list := rejected;
    RejectedBetween(b, toExecute, 0);
    AllowedOnce(b, |b.calls|);
    for k := 0 to |toExecute|
      invariant Next(b, toExecute, k) <= |b.calls| && DistinctIndexes(list)
      invariant forall y :: y in list <==> Member(b, arrivals, Next(b, toExecute, k), y)
      invariant forall i :: 0 <= i < Next(b, toExecute, k) ==> StopsJoined(b, arrivals, i) == None
    {
      var i := toExecute[k];
      assert i in toExecute;
      SettledAnswer(b, arrivals, i, replies, errors);
      JoinOne(b, arrivals, toExecute, k, list);
      var message := if i in replies then Answer(b, i, Some(replies[i])) else errors[i];
      list := list + [At(i, message)];
      if i in replies && ShownAndStops(b, i, replies[i]).Some? {
        FirstStopIs(b, arrivals, |b.calls|, i);
        Sorted(b, arrivals, list, i + 1);
        return SortByIndex(list), ShownAndStops(b, i, replies[i]);
      }
      RejectedBetween(b, toExecute, k + 1);
    }
    Sorted(b, arrivals, list, |b.calls|);
    return SortByIndex(list), None;
  }

  // The tool's own request comes first, then the hook, which also sees raised errors.
  function ShownAndStops(b: Batch, i: nat, outcome: Outcome): Option<string>
    requires b.Valid() && i < |b.calls|
  {
    match outcome
    case Returned(reply) => StopText(b, i, reply)
    case Raised(_) => b.hooks[i]
    case Broken(_) => None
  }

  lemma {:induction false} Sorted(b: Batch, arrivals: Arrivals, list: seq<Indexed>, bound: nat)
    requires b.Valid() && DistinctIndexes(list)
    requires forall y :: y in list <==> Member(b, arrivals, bound, y)
    ensures SortByIndex(list) == Joined(b, arrivals, bound, |b.calls|)
  {
    SortIncreasing(list);
    JoinedIncreasing(b, arrivals, bound, |b.calls|);
    forall y
      ensures y in SortByIndex(list) <==> y in Joined(b, arrivals, bound, |b.calls|)
    {
      SortMember(list, y);
      JoinedMember(b, arrivals, bound, |b.calls|, y);
    }
    IncreasingUnique(SortByIndex(list), Joined(b, arrivals, bound, |b.calls|));
  }

  function Messages(xs: seq<Indexed>): (r: seq<Message>)
    ensures |r| == |xs| && forall i :: 0 <= i < |xs| ==> r[i] == xs[i].message
  {
    seq(|xs|, i requires 0 <= i < |xs| => xs[i].message)
  }

  // `cancelAt` is the completion at which the cancel event is found set.
  method ExecuteParallel(b: Batch, arrivals: Arrivals, cancelAt: nat)
    returns (results: seq<Message>, stopped: Option<string>, submitted: seq<nat>)
    requires b.Valid() && Arrives(b, arrivals)
    ensures submitted == AllowedIn(b, |b.calls|)
    ensures cancelAt < |arrivals| ==> results == [] && stopped == None
    ensures cancelAt >= |arrivals| ==> results == Messages(Joined(b, arrivals, Bound(b, arrivals), |b.calls|))
    ensures cancelAt >= |arrivals| ==>
              stopped == match FirstStop(b, arrivals, |b.calls|)
                         case None => None
                         case Some(i) => StopsJoined(b, arrivals, i)
  {
    var toExecute, rejected := Partition(b);
    submitted := toExecute;
    var cancelled, replies, errors := Await(b, toExecute, arrivals, cancelAt);
    if cancelled {
      return [], None, submitted;
    }
    var joined;
    joined, stopped := Join(b, toExecute, rejected, replies, errors, arrivals);
    results := Messages(joined);
  }

  // ----- what a batch returns -----

  lemma {:induction false} JoinedAll(b: Batch, arrivals: Arrivals, n: nat)
    requires b.Valid() && n <= |b.calls|
    ensures var r := Joined(b, arrivals, |b.calls|, n);
            |r| == n && forall i :: 0 <= i < n ==> r[i] == At(i, AnswerJoined(b, arrivals, i))
  {
    if n > 0 {
      JoinedAll(b, arrivals, n - 1);
    }
  }

  // Nothing stops this batch.
  ghost predicate Unstopped(b: Batch, arrivals: Arrivals)
    requires b.Valid()
  {
    forall i :: 0 <= i < |b.calls| ==> StopsJoined(b, arrivals, i) == None
  }

  // One result per call, in input order, each with its own call's id: for any
  // completions, in any order, with any exceptions, and whatever timed out.
  lemma {:induction false} OneResultPerCall(b: Batch, arrivals: Arrivals)
    requires b.Valid() && Unstopped(b, arrivals)
    ensures var results := Messages(Joined(b, arrivals, Bound(b, arrivals), |b.calls|));
            |results| == |b.calls| && forall i :: 0 <= i < |b.calls| ==>
                results[i].id == b.calls[i].id && results[i] == AnswerJoined(b, arrivals, i)
  {
    JoinedAll(b, arrivals, |b.calls|);
  }

  // The order in which the futures complete changes neither the results nor where
  // and with what text the batch stops.
  lemma {:induction false} OrderDoesNotMatter(b: Batch, arrivals: Arrivals, other: Arrivals)
    requires b.Valid() && Arrives(b, arrivals) && Arrives(b, other) && multiset(arrivals) == multiset(other)
    ensures Joined(b, arrivals, Bound(b, arrivals), |b.calls|) == Joined(b, other, Bound(b, other), |b.calls|)
    ensures FirstStop(b, arrivals, |b.calls|) == FirstStop(b, other, |b.calls|)
    ensures forall i :: 0 <= i < |b.calls| ==> StopsJoined(b, arrivals, i) == StopsJoined(b, other, i)
  {
    forall i: nat
      ensures OutcomeOf(arrivals, i) == OutcomeOf(other, i)
    {
      SameOutcome(b, arrivals, other, i);
    }
    SameStop(b, arrivals, other, |b.calls|);
    SameJoin(b, arrivals, other, Bound(b, arrivals), |b.calls|);
  }

  lemma {:induction false} SameStop(b: Batch, arrivals: Arrivals, other: Arrivals, n: nat)
    requires b.Valid() && n <= |b.calls| && forall i: nat :: OutcomeOf(arrivals, i) == OutcomeOf(other, i)
    ensures FirstStop(b, arrivals, n) == FirstStop(b, other, n)
  {
    if n > 0 {
      SameStop(b, arrivals, other, n - 1);
      assert OutcomeOf(arrivals, n - 1) == OutcomeOf(other, n - 1);
    }
  }

  lemma {:induction false} SameJoin(b: Batch, arrivals: Arrivals, other: Arrivals, bound: nat, n: nat)
    requires b.Valid() && n <= |b.calls| && forall i: nat :: OutcomeOf(arrivals, i) == OutcomeOf(other, i)
    ensures Joined(b, arrivals, bound, n) == Joined(b, other, bound, n)
  {
    if n > 0 {
      SameJoin(b, arrivals, other, bound, n - 1);
      assert OutcomeOf(arrivals, n - 1) == OutcomeOf(other, n - 1);
    }
  }

  lemma {:induction false} SameOutcome(b: Batch, arrivals: Arrivals, other: Arrivals, i: nat)
    requires b.Valid() && Arrives(b, arrivals) && Arrives(b, other) && multiset(arrivals) == multiset(other)
    ensures OutcomeOf(arrivals, i) == OutcomeOf(other, i)
  {
    forall a | a in arrivals
      ensures a in other
    {
      assert a in multiset(arrivals);
    }
    forall a | a in other
      ensures a in arrivals
    {
      assert a in multiset(other);
    }
    OutcomeIsMember(arrivals, i);
    OutcomeIsMember(other, i);
  }

  lemma {:induction false} OutcomeIsMember(arrivals: Arrivals, i: nat)
    requires forall j, k :: 0 <= j < k < |arrivals| ==> arrivals[j].at != arrivals[k].at
    ensures forall a <- arrivals :: a.at == i ==> OutcomeOf(arrivals, i) == Some(a.outcome)
    ensures OutcomeOf(arrivals, i).Some? ==> Arrival(i, OutcomeOf(arrivals, i).value) in arrivals
  {
    if arrivals != [] {
      var init := arrivals[..|arrivals| - 1];
      assert arrivals == init + [arrivals[|arrivals| - 1]];
      OutcomeIsMember(init, i);
    }
  }

  // Given the same outcomes, with no worker lost and nothing stopping, both ways
  // return the same messages; the ids agree even when workers are lost or late.
  lemma {:induction false} SameAsSequential(b: Batch, arrivals: Arrivals, outcomes: seq<Outcome>)
    requires b.Valid() && |outcomes| == |b.calls| && Unstopped(b, arrivals)
    ensures var parallel := Messages(Joined(b, arrivals, Bound(b, arrivals), |b.calls|));
            && |parallel| == |outcomes|
            && (forall i :: 0 <= i < |outcomes| ==> parallel[i].id == AnswerAlone(b, i, outcomes[i]).id)
            && (forall i ::
                  (0 <= i < |outcomes| && OutcomeOf(arrivals, i) == Some(outcomes[i]) && !outcomes[i].Broken?) ==>
                  parallel[i] == AnswerAlone(b, i, outcomes[i]) && StopsAlone(b, i, outcomes[i]) == None)
  {
    OneResultPerCall(b, arrivals);
    forall i | 0 <= i < |outcomes| && OutcomeOf(arrivals, i) == Some(outcomes[i]) && !outcomes[i].Broken?
      ensures AnswerJoined(b, arrivals, i) == AnswerAlone(b, i, outcomes[i]) && StopsAlone(b, i, outcomes[i]) == None
    {
      assert StopsJoined(b, arrivals, i) == None;
    }
  }

  // When call i stops the batch, the parallel way hands back what the sequential
  // way does and, besides, the later calls that were rejected.
  lemma {:induction false} StoppedJoin(b: Batch, arrivals: Arrivals, i: nat)
    requires b.Valid() && FirstStop(b, arrivals, |b.calls|) == Some(i)
    ensures var r := Joined(b, arrivals, Bound(b, arrivals), |b.calls|);
            && |r| > i
            && (forall k :: 0 <= k <= i ==> r[k] == At(k, AnswerJoined(b, arrivals, k)))
            && (forall k :: i < k < |r| ==> i < r[k].at < |b.calls| && !b.checks[r[k].at].Allowed?)
            && (forall j: nat :: j < |b.calls| && !b.checks[j].Allowed? ==> At(j, AnswerJoined(b, arrivals, j)) in r)
  {
    StoppedPrefix(b, arrivals, i, |b.calls|);
    RejectedJoin(b, arrivals, i + 1);
  }

  lemma {:induction false} RejectedJoin(b: Batch, arrivals: Arrivals, bound: nat)
    requires b.Valid()
    ensures forall j: nat :: j < |b.calls| && !b.checks[j].Allowed? ==>
              At(j, AnswerJoined(b, arrivals, j)) in Joined(b, arrivals, bound, |b.calls|)
  {
    forall j: nat | j < |b.calls| && !b.checks[j].Allowed?
      ensures At(j, AnswerJoined(b, arrivals, j)) in Joined(b, arrivals, bound, |b.calls|)
    {
      JoinedMember(b, arrivals, bound, |b.calls|, At(j, AnswerJoined(b, arrivals, j)));
    }
  }

  lemma {:induction false} StoppedPrefix(b: Batch, arrivals: Arrivals, i: nat, n: nat)
    requires b.Valid() && n <= |b.calls|
    ensures var r := Joined(b, arrivals, i + 1, n);
            && |r| >= (if n <= i then n else i + 1)
            && (n <= i + 1 ==> |r| == n)
            && (forall k :: 0 <= k <= i && k < n ==> r[k] == At(k, AnswerJoined(b, arrivals, k)))
            && (forall k :: i < k < |r| ==> i < r[k].at < n && !b.checks[r[k].at].Allowed?)
  {
    if n > 0 {
      StoppedPrefix(b, arrivals, i, n - 1);
    }
  }

  // ----- the choice between the two -----

  // More than one call, all of them to tools known to be safe in parallel.
  predicate AllParallelSafe(b: Batch, safe: set<string>) {
    |b.calls| > 1 && safe != {} && forall call <- b.calls :: call.name in safe
  }

  // Whichever way is taken: one result per call, in order, and no call run twice.
  // The parallel way is taken for two or more calls, all to safe tools.
  method Execute(b: Batch, safe: set<string>, outcomes: seq<Outcome>, arrivals: Arrivals)
    returns (results: seq<Message>, stopped: Option<string>, ran: seq<nat>)
    requires b.Valid() && |outcomes| == |b.calls| && Arrives(b, arrivals)
    requires Unstopped(b, arrivals) && forall i :: 0 <= i < |b.calls| ==> StopsAlone(b, i, outcomes[i]) == None
    ensures stopped == None && |results| == |b.calls|
    ensures forall i :: 0 <= i < |b.calls| ==> results[i].id == b.calls[i].id
    ensures Ascending(ran) && forall i: nat :: i in ran <==> i < |b.calls| && b.checks[i].Allowed?
    ensures |b.calls| <= 1 || (exists call <- b.calls :: call.name !in safe) ==>
              forall i :: 0 <= i < |b.calls| ==> results[i] == AnswerAlone(b, i, outcomes[i])
    ensures |b.calls| > 1 && (forall call <- b.calls :: call.name in safe) ==>
              forall i :: 0 <= i < |b.calls| ==> results[i] == AnswerJoined(b, arrivals, i)
  {
    AllowedOnce(b, |b.calls|);
    if AllParallelSafe(b, safe) {
      results, stopped, ran := ExecuteParallel(b, arrivals, |arrivals|);
      OneResultPerCall(b, arrivals);
    } else {
      results, stopped, ran := ExecuteSequential(b, outcomes, |b.calls|);
    }
  }

  // ----- where the two ways part -----

  // The first call stops the batch, the second names an unknown tool: in parallel
  // its rejection is returned as well, one after the other it is not reached.
  const STOPPED := Batch([Call("a", "check", ""), Call("b", "nosuch", "")], [Allowed, Unknown], [None, None])
  const STOP := Returned(Reply("done", false, Some("halt")))

  method StopBothWays() returns (parallel: seq<Message>, alone: seq<Message>)
    ensures |parallel| == 2 && parallel[1] == Message("b", Validation, "nosuch")
    ensures alone == parallel[..1]
  {
    var b, arrivals := STOPPED, [Arrival(0, STOP)];
    assert b.Valid() && OutcomeOf(arrivals, 0) == Some(STOP);
    assert StopsJoined(b, arrivals, 0) == Some("halt") && StopsAlone(b, 0, STOP) == Some("halt");
    FirstStopIs(b, arrivals, 2, 0);
    assert Bound(b, arrivals) == 1;
    JoinedLength(b, arrivals);
    var halt, ran;
    parallel, halt, ran := ExecuteParallel(b, arrivals, 1);
    var outcomes := [STOP, STOP];
    assert StopsAlone(b, 0, outcomes[0]) == Some("halt");
    alone, halt, ran := ExecuteSequential(b, outcomes, 2);
    assert |alone| == 1 && alone[0] == AnswerAlone(b, 0, STOP) == AnswerJoined(b, arrivals, 0);
    assert parallel[0] == AnswerJoined(b, arrivals, 0) && parallel[1] == AnswerJoined(b, arrivals, 1);
  }

  lemma {:induction false} JoinedLength(b: Batch, arrivals: Arrivals)
    requires b == STOPPED
    ensures Joined(b, arrivals, 1, 2) == [At(0, AnswerJoined(b, arrivals, 0)), At(1, AnswerJoined(b, arrivals, 1))]
  {
    assert Joined(b, arrivals, 1, 1) == [At(0, AnswerJoined(b, arrivals, 0))];
  }
}
