/** Splicing never parts a call from its result (src/lingtai_kernel/tc_inbox.py,
    with the operations of src/lingtai_kernel/llm/interface.py it uses). */
module InboxCalls {
  import opened Wrappers
  import opened TCInbox
  import opened InboxRuns

  // An assistant entry that makes a call.
  predicate MakesCall(e: Entry) {
    e.role == Assistant && exists b <- e.content :: b.Call?
  }

  // The user entry that holds a result for each call of an assistant entry.
  predicate AnswersCalls(a: Entry, u: Entry) {
    u.role == User && forall b <- a.content :: b.Call? ==> exists r <- u.content :: r.Result? && r.id == b.id
  }

  // Each call is answered right behind it; only the newest entry may still wait.
  predicate Paired(entries: seq<Entry>) {
    forall k :: 0 <= k < |entries| - 1 && MakesCall(entries[k]) ==> AnswersCalls(entries[k], entries[k + 1])
  }

  predicate Waits(entries: seq<Entry>) {
    entries != [] && MakesCall(entries[|entries| - 1])
  }

  // ----- one splice -----

  // Removing a pair parts no other call from its answer.
  lemma {:induction false} RemoveKeepsPaired(entries: seq<Entry>, id: string)
    requires Paired(entries) && !Waits(entries)
    ensures var left := RemovePair(entries, id);
            && Paired(left) && !Waits(left)
            && (entries != [] && entries[0].role == User ==> left != [] && left[0] == entries[0])
  {
    if |entries| >= 2 {
      var rest := entries[1..];
      PairedRest(entries);
      if RemovablePair(entries[0], entries[1], id) {
        PairedRest(rest);
        assert rest[1..] == entries[2..];
      } else {
        RemoveKeepsPaired(rest, id);
        PairedBefore(entries[0], RemovePair(rest, id));
      }
    }
  }

  lemma {:induction false} PairedRest(entries: seq<Entry>)
    requires Paired(entries) && !Waits(entries) && entries != []
    ensures Paired(entries[1..]) && !Waits(entries[1..])
    ensures MakesCall(entries[0]) ==> |entries| > 1 && AnswersCalls(entries[0], entries[1])
  {
    var rest := entries[1..];
    forall k | 0 <= k < |rest| - 1 && MakesCall(rest[k])
      ensures AnswersCalls(rest[k], rest[k + 1])
    {
      assert rest[k] == entries[k + 1] && rest[k + 1] == entries[k + 2];
    }
  }

  lemma {:induction false} PairedBefore(first: Entry, rest: seq<Entry>)
    requires Paired(rest) && !Waits(rest)
    requires MakesCall(first) ==> rest != [] && AnswersCalls(first, rest[0])
    ensures Paired([first] + rest) && !Waits([first] + rest)
  {
    var all := [first] + rest;
    forall k | 0 <= k < |all| - 1 && MakesCall(all[k])
      ensures AnswersCalls(all[k], all[k + 1])
    {
      assert all[k + 1] == rest[k];
      assert k > 0 ==> all[k] == rest[k - 1];
    }
  }

  // Behind answered calls any entry may follow; behind an open one its answer.
  lemma {:induction false} PairedAppend(entries: seq<Entry>, e: Entry)
    requires Paired(entries) && (Waits(entries) ==> AnswersCalls(entries[|entries| - 1], e))
    ensures Paired(entries + [e])
  {
    var all := entries + [e];
    forall k | 0 <= k < |all| - 1 && MakesCall(all[k])
      ensures AnswersCalls(all[k], all[k + 1])
    {
      assert all[k] == entries[k];
      assert k < |entries| - 1 ==> all[k + 1] == entries[k + 1];
    }
  }

  lemma {:induction false} PairAppended(entries: seq<Entry>, item: Item)
    requires Paired(entries) && !Waits(entries) && Formed(item)
    ensures var longer := entries + [Entry(Assistant, [item.call]), Entry(User, [item.result])];
            Paired(longer) && !Waits(longer)
  {
    var call, answer := Entry(Assistant, [item.call]), Entry(User, [item.result]);
    assert item.result in answer.content;
    assert AnswersCalls(call, answer);
    PairedAppend(entries, call);
    PairedAppend(entries + [call], answer);
    assert entries + [call] + [answer] == entries + [call, answer];
  }

  lemma {:induction false} SplicePaired(s: State, segments: seq<Segment>, item: Item)
    requires WireInv(s, segments) && Paired(s.entries) && !Waits(s.entries)
    requires Formed(item) && item.call.id in s.enqueued && CallId(item) !in Ids(s.spliced)
    ensures var entries := Splice(s.entries, s.tracker, item).0; Paired(entries) && !Waits(entries)
  {
    var left := segments;
    FreshIsClean(segments, s.enqueued, s.spliced, item.call.id);
    if item.replaceInHistory && item.source in s.tracker {
      var k := SlotOf(segments, item.source);
      RemoveSlot(segments, s.enqueued, k);
      RemoveKeepsPaired(s.entries, CallId(segments[k].item));
      left := Drop(segments, k);
    }
    AppendPair(left, item);
    RenderConcat(left, [Pair(item)]);
    RenderPair(item);
    PairAppended(Render(left), item);
  }

  lemma {:induction false} SpliceAllPaired(s: State, segments: seq<Segment>, items: seq<Item>)
    requires WireInv(s, segments) && Paired(s.entries) && !Waits(s.entries)
    requires AllFormed(items) && DistinctItems(s.spliced + items) && Ids(items) <= s.enqueued
    ensures var entries := SpliceAll(s.entries, s.tracker, items).0; Paired(entries) && !Waits(entries)
    decreases |items|
  {
    if items != [] {
      var init, item := items[..|items| - 1], items[|items| - 1];
      LastItem(s.spliced, items, s.enqueued);
      SpliceAllPaired(s, segments, init);
      var before := SpliceAllWire(s, segments, init);
      var (entries, tracker) := SpliceAll(s.entries, s.tracker, init);
      SplicePaired(s.(entries := entries, tracker := tracker, spliced := s.spliced + init), before, item);
    }
  }

  // ----- whole runs -----

  // A run in which the conversation itself answers each call right behind it.
  ghost predicate Converses(ops: seq<Op>, s: State)
    decreases |ops|
  {
    if ops == [] then s == EMPTY
    else
      var last := ops[|ops| - 1];
      exists prev :: Converses(ops[..|ops| - 1], prev) && Enabled(last, prev) && s == Do(last, prev)
                     && (last.Traffic? && Waits(prev.entries) ==>
                           AnswersCalls(prev.entries[|prev.entries| - 1], last.entry))
  }

  lemma {:induction false} ConversesReaches(ops: seq<Op>, s: State)
    requires Converses(ops, s)
    ensures Reaches(ops, s)
    decreases |ops|
  {
    if ops != [] {
      var last := ops[|ops| - 1];
      var prev :| Converses(ops[..|ops| - 1], prev) && Enabled(last, prev) && s == Do(last, prev);
      ConversesReaches(ops[..|ops| - 1], prev);
    }
  }

  lemma {:induction false} PairedStep(op: Op, s: State, segments: seq<Segment>)
    requires PlaceInv(s) && WireInv(s, segments) && Enabled(op, s) && Paired(s.entries)
    requires op.Traffic? && Waits(s.entries) ==> AnswersCalls(s.entries[|s.entries| - 1], op.entry)
    ensures Paired(Do(op, s).entries)
  {
    match op
    case Enqueue(_) =>
    case Dismiss(_) =>
    case DrainInto =>
      if !HasPending(s.entries) {
        DrainPlaces(s);
        assert !Waits(s.entries);
        SpliceAllPaired(s, segments, s.queue);
      }
    case Traffic(entry) => PairedAppend(s.entries, entry);
  }

  lemma {:induction false} PairedAlways(ops: seq<Op>, s: State)
    requires Converses(ops, s)
    ensures Paired(s.entries)
    decreases |ops|
  {
    if ops != [] {
      var init, last := ops[..|ops| - 1], ops[|ops| - 1];
      var prev :| Converses(init, prev) && Enabled(last, prev) && s == Do(last, prev)
                  && (last.Traffic? && Waits(prev.entries) ==>
                        AnswersCalls(prev.entries[|prev.entries| - 1], last.entry));
      PairedAlways(init, prev);
      ConversesReaches(init, prev);
      var segments := Always(init, prev);
      PairedStep(last, prev, segments);
    }
  }

  // In every such run, enqueues, dismissals and drains at any time included, an
  // assistant entry that makes a call is the newest entry or stands right before
  // the user entry with the results of all its calls.
  lemma {:induction false} CallsStayPaired(ops: seq<Op>, s: State, k: nat, b: Block)
    requires Converses(ops, s) && k < |s.entries|
    requires s.entries[k].role == Assistant && b in s.entries[k].content && b.Call?
    ensures k == |s.entries| - 1 || (s.entries[k + 1].role == User
                                     && exists r <- s.entries[k + 1].content :: r.Result? && r.id == b.id)
  {
    PairedAlways(ops, s);
    assert MakesCall(s.entries[k]);
  }

  // ----- what the two history operations touch -----

  // The one call of an assistant entry that otherwise holds text.
  predicate HoldsOnly(content: seq<Block>, id: string, j: nat) {
    && j < |content| && content[j].Call? && content[j].id == id
    && forall i :: 0 <= i < |content| && i != j ==> content[i].Text?
  }

  lemma {:induction false} OnlyCallIs(content: seq<Block>, id: string)
    ensures (OnlyCall(content).Some? && OnlyCall(content).value.id == id) <==>
            exists j: nat :: HoldsOnly(content, id, j)
  {
    if content != [] {
      var first, rest := content[0], content[1..];
      OnlyCallIs(rest, id);
      assert content == [first] + rest;
      if OnlyCall(content).Some? && OnlyCall(content).value.id == id {
        var j: nat := if first.Call? then 0 else 1 + (var k: nat :| HoldsOnly(rest, id, k); k);
        assert forall i :: 0 < i < |content| ==> content[i] == rest[i - 1] && content[i] in rest;
        assert HoldsOnly(content, id, j);
      }
      if j: nat :| HoldsOnly(content, id, j) {
        if j == 0 {
          forall b | b in rest
            ensures b.Text?
          {
            var i :| 0 <= i < |rest| && rest[i] == b;
            assert content[i + 1] == b;
          }
        } else {
          assert HoldsOnly(rest, id, j - 1) by {
            assert forall i :: 0 <= i < |rest| ==> rest[i] == content[i + 1];
          }
        }
      }
    }
  }

  // Text, one call with this id, and right behind it nothing but its result.
  ghost predicate PlainPair(entries: seq<Entry>, id: string, k: nat) {
    && k + 1 < |entries| && entries[k].role == Assistant && entries[k + 1].role == User
    && (exists j: nat :: HoldsOnly(entries[k].content, id, j))
    && |entries[k + 1].content| == 1 && entries[k + 1].content[0].Result? && entries[k + 1].content[0].id == id
  }

  // Removal takes the first plain pair with this id...
  lemma {:induction false} RemovesFirstPair(entries: seq<Entry>, id: string, k: nat)
    requires PlainPair(entries, id, k) && forall i: nat :: i < k ==> !PlainPair(entries, id, i)
    ensures RemovePair(entries, id) == entries[..k] + entries[k + 2..]
    decreases k
  {
    OnlyCallIs(entries[0].content, id);
    if k > 0 {
      var rest := entries[1..];
      assert !PlainPair(entries, id, 0);
      forall i: nat
        ensures PlainPair(rest, id, i) <==> PlainPair(entries, id, i + 1)
      {
        ShiftedPair(entries, id, i);
      }
      assert PlainPair(entries, id, (k - 1) + 1);
      RemovesFirstPair(rest, id, k - 1);
      assert [entries[0]] + (rest[..k - 1] + rest[k + 1..]) == entries[..k] + entries[k + 2..];
    }
  }

  lemma {:induction false} ShiftedPair(entries: seq<Entry>, id: string, i: nat)
    requires entries != []
    ensures PlainPair(entries[1..], id, i) <==> PlainPair(entries, id, i + 1)
  {
  }

  // ... and without one it takes nothing.
  lemma {:induction false} RemovesNothingElse(entries: seq<Entry>, id: string)
    requires forall k: nat :: !PlainPair(entries, id, k)
    ensures RemovePair(entries, id) == entries
  {
    if |entries| >= 2 {
      OnlyCallIs(entries[0].content, id);
      assert !PlainPair(entries, id, 0);
      forall i: nat
        ensures !PlainPair(entries[1..], id, i)
      {
        ShiftedPair(entries, id, i);
      }
      RemovesNothingElse(entries[1..], id);
      assert [entries[0]] + entries[1..] == entries;
    }
  }

  // ----- placeholders -----

  predicate IsPlaceholder(b: Block, id: string) {
    b.Result? && b.id == id && b.synthesized
  }

  // The j-th block is the first placeholder for this id.
  predicate FirstIn(content: seq<Block>, id: string, j: nat) {
    && j < |content| && IsPlaceholder(content[j], id)
    && forall i :: 0 <= i < j ==> !IsPlaceholder(content[i], id)
  }

  predicate NoneIn(content: seq<Block>, id: string) {
    forall i :: 0 <= i < |content| ==> !IsPlaceholder(content[i], id)
  }

  lemma {:induction false} ReplacesFirstIn(content: seq<Block>, r: Block, j: nat)
    requires r.Result? && FirstIn(content, r.id, j)
    ensures ReplaceIn(content, r) == Some(content[j := r])
    decreases j
  {
    if j > 0 {
      var rest := content[1..];
      assert FirstIn(rest, r.id, j - 1) by {
        assert forall i :: 0 <= i < |rest| ==> rest[i] == content[i + 1];
      }
      ReplacesFirstIn(rest, r, j - 1);
      assert !IsPlaceholder(content[0], r.id);
      assert [content[0]] + rest[j - 1 := r] == content[j := r];
    } else {
      assert [r] + content[1..] == content[0 := r];
    }
  }

  lemma {:induction false} ReplacesNoneIn(content: seq<Block>, r: Block)
    requires r.Result? && NoneIn(content, r.id)
    ensures ReplaceIn(content, r) == None
  {
    if content != [] {
      assert !IsPlaceholder(content[0], r.id);
      assert forall i :: 0 <= i < |content[1..]| ==> content[1..][i] == content[i + 1];
      ReplacesNoneIn(content[1..], r);
    }
  }

  // A result takes exactly the place of the first placeholder for its call in a user entry...
  lemma {:induction false} ResultFillsPlaceholder(entries: seq<Entry>, r: Block, k: nat, j: nat)
    requires r.Result? && k < |entries| && entries[k].role == User && FirstIn(entries[k].content, r.id, j)
    requires forall i :: 0 <= i < k && entries[i].role == User ==> NoneIn(entries[i].content, r.id)
    ensures ReplacePlaceholder(entries, r) == Some(entries[k := Entry(User, entries[k].content[j := r])])
    ensures AddResult(entries, r) == entries[k := Entry(User, entries[k].content[j := r])]
    decreases k
  {
    if k > 0 {
      var rest := entries[1..];
      if entries[0].role == User {
        ReplacesNoneIn(entries[0].content, r);
      }
      assert forall i :: 0 <= i < |rest| ==> rest[i] == entries[i + 1];
      ResultFillsPlaceholder(rest, r, k - 1, j);
      assert [entries[0]] + rest[k - 1 := Entry(User, rest[k - 1].content[j := r])] ==
             entries[k := Entry(User, entries[k].content[j := r])];
    } else {
      ReplacesFirstIn(entries[0].content, r, j);
      assert [Entry(User, entries[0].content[j := r])] + entries[1..] ==
             entries[0 := Entry(User, entries[0].content[j := r])];
    }
  }

  // ... and a real result is never overwritten: without a placeholder it is appended.
  lemma {:induction false} ResultIsAppended(entries: seq<Entry>, r: Block)
    requires r.Result?
    requires forall i :: 0 <= i < |entries| && entries[i].role == User ==> NoneIn(entries[i].content, r.id)
    ensures ReplacePlaceholder(entries, r) == None
    ensures AddResult(entries, r) == entries + [Entry(User, [r])]
  {
    if entries != [] {
      if entries[0].role == User {
        ReplacesNoneIn(entries[0].content, r);
      }
      assert forall i :: 0 <= i < |entries[1..]| ==> entries[1..][i] == entries[i + 1];
      ResultIsAppended(entries[1..], r);
    }
  }

  // ----- dismissal -----

  // A queued notification with this id.
  predicate Dismissed(item: Item, notifId: string) {
    item.call.Call? && item.call.action == "notification" && item.call.notifId == Some(notifId)
  }

  lemma {:induction false} DismissesFirst(items: seq<Item>, notifId: string, i: nat)
    requires i < |items| && Dismissed(items[i], notifId) && forall j :: 0 <= j < i ==> !Dismissed(items[j], notifId)
    ensures Without(items, notifId) == items[..i] + items[i + 1..]
    decreases i
  {
    if i > 0 {
      var rest := items[1..];
      assert !Dismissed(items[0], notifId);
      assert forall j :: 0 <= j < |rest| ==> rest[j] == items[j + 1];
      DismissesFirst(rest, notifId, i - 1);
      assert [items[0]] + (rest[..i - 1] + rest[i..]) == items[..i] + items[i + 1..];
    }
  }

  lemma {:induction false} DismissesNothingElse(items: seq<Item>, notifId: string)
    requires forall i :: 0 <= i < |items| ==> !Dismissed(items[i], notifId)
    ensures Without(items, notifId) == items
  {
    if items != [] {
      assert !Dismissed(items[0], notifId);
      assert forall j :: 0 <= j < |items[1..]| ==> items[1..][j] == items[j + 1];
      DismissesNothingElse(items[1..], notifId);
    }
  }
}
