/** Whole runs of the inbox: enqueues, removals and drains, interleaved with
    ordinary conversation traffic. */
module InboxRuns {
  import opened Wrappers
  import opened TCInbox

  // How the history is made up: ordinary entries and spliced pairs.
  datatype Segment = Regular(entry: Entry) | Pair(item: Item)

  function Render(segments: seq<Segment>): seq<Entry> {
    if segments == [] then []
    else RenderOne(segments[0]) + Render(segments[1..])
  }

  function RenderOne(s: Segment): seq<Entry> {
    match s
    case Regular(entry) => [entry]
    case Pair(item) => [Entry(Assistant, [item.call]), Entry(User, [item.result])]
  }

  predicate Mentions(entry: Entry, id: string) {
    exists b <- entry.content :: (b.Call? || b.Result?) && b.id == id
  }

  predicate CleanSegment(s: Segment, id: string) {
    match s
    case Regular(entry) => !Mentions(entry, id)
    case Pair(item) => Formed(item) && item.call.id != id
  }

  // Nothing in the history carries this id.
  predicate Clean(segments: seq<Segment>, id: string) {
    forall i :: 0 <= i < |segments| ==> CleanSegment(segments[i], id)
  }

  lemma {:induction false} RenderConcat(a: seq<Segment>, b: seq<Segment>)
    ensures Render(a + b) == Render(a) + Render(b)
  {
    if a == [] {
      assert a + b == b;
    } else {
      assert (a + b)[1..] == a[1..] + b;
      RenderConcat(a[1..], b);
    }
  }

  lemma {:induction false} RenderPair(item: Item)
    ensures Render([Pair(item)]) == [Entry(Assistant, [item.call]), Entry(User, [item.result])]
  {
    assert [Pair(item)][1..] == [];
  }

  lemma {:induction false} CleanRender(segments: seq<Segment>, id: string)
    requires Clean(segments, id)
    ensures forall e <- Render(segments) :: !Mentions(e, id)
  {
    if segments != [] {
      CleanRender(segments[1..], id);
    }
  }

  lemma {:induction false} RemovableMentions(a: Entry, u: Entry, id: string)
    requires RemovablePair(a, u, id)
    ensures Mentions(a, id) && Mentions(u, id)
  {
  }

  // Removal finds exactly the spliced pair, wherever it is.
  lemma {:induction false} RemovePairAt(before: seq<Entry>, item: Item, after: seq<Entry>)
    requires Formed(item) && forall e <- before :: !Mentions(e, item.call.id)
    ensures var pair := [Entry(Assistant, [item.call]), Entry(User, [item.result])];
            RemovePair(before + pair + after, item.call.id) == before + after
  {
    var id := item.call.id;
    var pair := [Entry(Assistant, [item.call]), Entry(User, [item.result])];
    var all := before + pair + after;
    if before == [] {
      assert OnlyCall([item.call]) == Some(item.call);
      assert RemovablePair(all[0], all[1], id);
      assert all[2..] == after;
    } else {
      assert !Mentions(all[0], id);
      if RemovablePair(all[0], all[1], id) {
        RemovableMentions(all[0], all[1], id);
      }
      assert all[1..] == before[1..] + pair + after;
      RemovePairAt(before[1..], item, after);
    }
  }

  lemma {:induction false} NoPairToRemove(entries: seq<Entry>, id: string)
    requires forall e <- entries :: !Mentions(e, id)
    ensures RemovePair(entries, id) == entries
  {
    if |entries| >= 2 {
      if RemovablePair(entries[0], entries[1], id) {
        RemovableMentions(entries[0], entries[1], id);
      }
      NoPairToRemove(entries[1..], id);
    }
  }

  lemma {:induction false} NoPlaceholderIn(content: seq<Block>, r: Block)
    requires r.Result? && forall b <- content :: b.Result? ==> b.id != r.id
    ensures ReplaceIn(content, r) == None
  {
    if content != [] {
      NoPlaceholderIn(content[1..], r);
    }
  }

  // With a new id the result is appended, not swapped for a placeholder.
  lemma {:induction false} NewResultAppends(entries: seq<Entry>, r: Block)
    requires r.Result? && forall e <- entries :: forall b <- e.content :: b.Result? ==> b.id != r.id
    ensures AddResult(entries, r) == entries + [Entry(User, [r])]
  {
    NoPlaceholder(entries, r);
  }

  lemma {:induction false} NoPlaceholder(entries: seq<Entry>, r: Block)
    requires r.Result? && forall e <- entries :: forall b <- e.content :: b.Result? ==> b.id != r.id
    ensures ReplacePlaceholder(entries, r) == None
  {
    if entries != [] {
      NoPlaceholderIn(entries[0].content, r);
      NoPlaceholder(entries[1..], r);
    }
  }

  lemma {:induction false} CleanResults(segments: seq<Segment>, id: string)
    requires Clean(segments, id)
    ensures forall e <- Render(segments) :: forall b <- e.content :: b.Result? ==> b.id != id
  {
    CleanRender(segments, id);
    forall e, b | e in Render(segments) && b in e.content && b.Result?
      ensures b.id != id
    {
      assert !Mentions(e, id);
    }
  }

  // ----- the invariant of the wire -----

  predicate Slot(s: Segment) {
    s.Pair? && s.item.replaceInHistory
  }

  // A pair's id is one of `ids`, an ordinary entry mentions none of them.
  ghost predicate IdOk(s: Segment, ids: set<string>) {
    match s
    case Regular(entry) => forall id <- ids :: !Mentions(entry, id)
    case Pair(item) => Formed(item) && item.call.id in ids
  }

  ghost predicate IdsOk(segments: seq<Segment>, ids: set<string>) {
    forall i :: 0 <= i < |segments| ==> IdOk(segments[i], ids)
  }

  ghost predicate DistinctIds(segments: seq<Segment>) {
    forall i, j :: 0 <= i < j < |segments| && segments[i].Pair? && segments[j].Pair? ==>
      CallId(segments[i].item) != CallId(segments[j].item)
  }

  ghost predicate OneSlotPerSource(segments: seq<Segment>) {
    forall i, j :: 0 <= i < j < |segments| && Slot(segments[i]) && Slot(segments[j]) ==>
      segments[i].item.source != segments[j].item.source
  }

  ghost predicate SegmentsOk(segments: seq<Segment>, ids: set<string>) {
    IdsOk(segments, ids) && DistinctIds(segments) && OneSlotPerSource(segments)
  }

  function CallId(item: Item): string {
    if item.call.Call? then item.call.id else ""
  }

  // The tracker knows the pair in every slot and nothing else.
  ghost predicate TrackerOk(segments: seq<Segment>, tracker: Tracker) {
    && (forall i :: 0 <= i < |segments| && Slot(segments[i]) ==>
          segments[i].item.source in tracker && tracker[segments[i].item.source] == CallId(segments[i].item))
    && (forall source <- tracker :: exists i :: 0 <= i < |segments| && Slot(segments[i])
                                                && segments[i].item.source == source)
  }

  function SlotOf(segments: seq<Segment>, source: string): (i: nat)
    requires exists i :: 0 <= i < |segments| && Slot(segments[i]) && segments[i].item.source == source
    ensures i < |segments| && Slot(segments[i]) && segments[i].item.source == source
  {
    if Slot(segments[0]) && segments[0].item.source == source then 0 else 1 + SlotOf(segments[1..], source)
  }

  // The history after one more splice.
  function After(segments: seq<Segment>, tracker: Tracker, item: Item): seq<Segment>
    requires item.source in tracker ==>
             exists i :: 0 <= i < |segments| && Slot(segments[i]) && segments[i].item.source == item.source
  {
    if item.replaceInHistory && item.source in tracker then
      var k := SlotOf(segments, item.source);
      Drop(segments, k) + [Pair(item)]
    else
      segments + [Pair(item)]
  }

  lemma {:induction false} CleanWithout(segments: seq<Segment>, ids: set<string>, k: nat)
    requires IdsOk(segments, ids) && DistinctIds(segments) && k < |segments| && segments[k].Pair?
    ensures Formed(segments[k].item) && Clean(segments[..k], segments[k].item.call.id)
  {
    assert IdOk(segments[k], ids);
    var id := segments[k].item.call.id;
    forall i | 0 <= i < k
      ensures CleanSegment(segments[..k][i], id)
    {
      assert segments[..k][i] == segments[i] && IdOk(segments[i], ids);
    }
  }

  lemma {:induction false} RemoveSlot(segments: seq<Segment>, ids: set<string>, k: nat)
    requires IdsOk(segments, ids) && DistinctIds(segments) && k < |segments| && segments[k].Pair?
    ensures RemovePair(Render(segments), CallId(segments[k].item)) == Render(Drop(segments, k))
  {
    var item := segments[k].item;
    CleanWithout(segments, ids, k);
    var before, after := segments[..k], segments[k + 1..];
    assert segments == before + [Pair(item)] + after;
    RenderConcat(before + [Pair(item)], after);
    RenderConcat(before, [Pair(item)]);
    RenderPair(item);
    CleanRender(before, item.call.id);
    RemovePairAt(Render(before), item, Render(after));
    RenderConcat(before, after);
  }

  lemma {:induction false} AppendPair(segments: seq<Segment>, item: Item)
    requires Formed(item) && Clean(segments, item.call.id)
    ensures AddResult(Render(segments) + [Entry(Assistant, [item.call])], item.result) ==
            Render(segments + [Pair(item)])
  {
    CleanResults(segments, item.call.id);
    NewResultAppends(Render(segments) + [Entry(Assistant, [item.call])], item.result);
    RenderConcat(segments, [Pair(item)]);
    RenderPair(item);
  }

  // Without segment k.
  function Drop(segments: seq<Segment>, k: nat): (r: seq<Segment>)
    requires k < |segments|
    ensures |r| == |segments| - 1
    ensures forall i :: 0 <= i < k ==> r[i] == segments[i]
    ensures forall i :: k <= i < |r| ==> r[i] == segments[i + 1]
  {
    segments[..k] + segments[k + 1..]
  }

  lemma {:induction false} DropOk(segments: seq<Segment>, ids: set<string>, k: nat)
    requires SegmentsOk(segments, ids) && k < |segments|
    ensures SegmentsOk(Drop(segments, k), ids)
  {
  }

  lemma {:induction false} DropTracked(segments: seq<Segment>, tracker: Tracker, k: nat)
    requires OneSlotPerSource(segments) && TrackerOk(segments, tracker) && k < |segments| && Slot(segments[k])
    ensures TrackerOk(Drop(segments, k), tracker - {segments[k].item.source})
  {
    var rest := Drop(segments, k);
    SlotsKept(segments, tracker, k);
    forall source | source in tracker && source != segments[k].item.source
      ensures exists i :: 0 <= i < |rest| && Slot(rest[i]) && rest[i].item.source == source
    {
      var i :| 0 <= i < |segments| && Slot(segments[i]) && segments[i].item.source == source;
      assert rest[if i < k then i else i - 1] == segments[i];
    }
  }

  lemma {:induction false} SlotsKept(segments: seq<Segment>, tracker: Tracker, k: nat)
    requires OneSlotPerSource(segments) && TrackerOk(segments, tracker) && k < |segments| && Slot(segments[k])
    ensures var rest, left := Drop(segments, k), tracker - {segments[k].item.source};
            forall i :: 0 <= i < |rest| && Slot(rest[i]) ==>
              rest[i].item.source in left && left[rest[i].item.source] == CallId(rest[i].item)
  {
    var rest := Drop(segments, k);
    forall i | 0 <= i < |rest| && Slot(rest[i])
      ensures rest[i].item.source in tracker && rest[i].item.source != segments[k].item.source
    {
      assert rest[i] == segments[if i < k then i else i + 1];
    }
  }

  lemma {:induction false} AppendIds(segments: seq<Segment>, ids: set<string>, item: Item)
    requires IdsOk(segments, ids) && DistinctIds(segments)
    requires Formed(item) && item.call.id in ids && Clean(segments, item.call.id)
    ensures IdsOk(segments + [Pair(item)], ids) && DistinctIds(segments + [Pair(item)])
  {
    assert IdOk(Pair(item), ids);
    assert forall i :: 0 <= i < |segments| ==> CleanSegment(segments[i], item.call.id);
  }

  function Tracked(tracker: Tracker, item: Item): Tracker {
    if item.replaceInHistory then tracker[item.source := CallId(item)] else tracker
  }

  lemma {:induction false} AppendTracked(segments: seq<Segment>, tracker: Tracker, item: Item)
    requires OneSlotPerSource(segments) && TrackerOk(segments, tracker)
    requires item.replaceInHistory ==> item.source !in tracker
    ensures OneSlotPerSource(segments + [Pair(item)])
    ensures TrackerOk(segments + [Pair(item)], Tracked(tracker, item))
  {
    var longer := segments + [Pair(item)];
    forall source | source in Tracked(tracker, item)
      ensures exists i :: 0 <= i < |longer| && Slot(longer[i]) && longer[i].item.source == source
    {
      if source in tracker {
        var i :| 0 <= i < |segments| && Slot(segments[i]) && segments[i].item.source == source;
        assert longer[i] == segments[i];
      } else {
        assert longer[|segments|] == Pair(item);
      }
    }
  }

  lemma {:induction false} AfterOk(segments: seq<Segment>, tracker: Tracker, ids: set<string>, item: Item)
    requires SegmentsOk(segments, ids) && TrackerOk(segments, tracker)
    requires Formed(item) && item.call.id in ids && Clean(segments, item.call.id)
    ensures SegmentsOk(After(segments, tracker, item), ids)
    ensures TrackerOk(After(segments, tracker, item), Tracked(tracker, item))
  {
    if item.replaceInHistory && item.source in tracker {
      var k := SlotOf(segments, item.source);
      DropOk(segments, ids, k);
      DropTracked(segments, tracker, k);
      AppendIds(Drop(segments, k), ids, item);
      AppendTracked(Drop(segments, k), tracker - {item.source}, item);
      assert Tracked(tracker - {item.source}, item) == Tracked(tracker, item);
    } else {
      AppendIds(segments, ids, item);
      AppendTracked(segments, tracker, item);
    }
  }

  lemma {:induction false} AfterRendered(segments: seq<Segment>, tracker: Tracker, ids: set<string>, item: Item)
    requires SegmentsOk(segments, ids) && TrackerOk(segments, tracker)
    requires Formed(item) && Clean(segments, item.call.id)
    ensures Splice(Render(segments), tracker, item).0 == Render(After(segments, tracker, item))
  {
    if item.replaceInHistory && item.source in tracker {
      var k := SlotOf(segments, item.source);
      RemoveSlot(segments, ids, k);
      AppendPair(Drop(segments, k), item);
    } else {
      AppendPair(segments, item);
    }
  }

  // ----- which drained items stay -----

  // A later item of the same slot replaces this one.
  predicate Superseded(items: seq<Item>, i: nat)
    requires i < |items|
  {
    items[i].replaceInHistory
    && exists j :: i < j < |items| && items[j].replaceInHistory && items[j].source == items[i].source
  }

  function PairItems(segments: seq<Segment>): seq<Item> {
    if segments == [] then []
    else (match segments[0] case Regular(_) => [] case Pair(item) => [item]) + PairItems(segments[1..])
  }

  predicate SameSlot(x: Item, item: Item) {
    x.replaceInHistory && item.replaceInHistory && x.source == item.source
  }

  function Except(items: seq<Item>, item: Item): (r: seq<Item>)
    ensures forall x <- r :: x in items && !SameSlot(x, item)
    ensures forall x <- items :: SameSlot(x, item) || x in r
  {
    if items == [] then []
    else (if SameSlot(items[0], item) then [] else [items[0]]) + Except(items[1..], item)
  }

  // The drained items whose slot was not taken over.
  function Live(items: seq<Item>): seq<Item> {
    if items == [] then []
    else Except(Live(items[..|items| - 1]), items[|items| - 1]) + [items[|items| - 1]]
  }

  lemma {:induction false} PairItemsConcat(a: seq<Segment>, b: seq<Segment>)
    ensures PairItems(a + b) == PairItems(a) + PairItems(b)
  {
    if a == [] {
      assert a + b == b;
    } else {
      assert (a + b)[1..] == a[1..] + b;
      PairItemsConcat(a[1..], b);
    }
  }

  lemma {:induction false} PairItemsOne(item: Item)
    ensures PairItems([Pair(item)]) == [item]
  {
    assert [Pair(item)][1..] == [];
  }

  lemma {:induction false} PairItemsAre(segments: seq<Segment>, x: Item)
    ensures x in PairItems(segments) <==> Pair(x) in segments
  {
    if segments != [] {
      PairItemsAre(segments[1..], x);
      assert segments == [segments[0]] + segments[1..];
    }
  }

  lemma {:induction false} ExceptNone(items: seq<Item>, item: Item)
    requires forall x <- items :: !SameSlot(x, item)
    ensures Except(items, item) == items
  {
    if items != [] {
      ExceptNone(items[1..], item);
    }
  }

  lemma {:induction false} ExceptConcat(a: seq<Item>, b: seq<Item>, item: Item)
    ensures Except(a + b, item) == Except(a, item) + Except(b, item)
  {
    if a == [] {
      assert a + b == b;
    } else {
      assert (a + b)[1..] == a[1..] + b;
      ExceptConcat(a[1..], b, item);
    }
  }

  lemma {:induction false} PairItemsAround(before: seq<Segment>, middle: seq<Segment>, after: seq<Segment>)
    ensures PairItems(before + middle + after) == PairItems(before) + PairItems(middle) + PairItems(after)
  {
    PairItemsConcat(before + middle, after);
    PairItemsConcat(before, middle);
  }

  lemma {:induction false} ExceptOne(slot: Item, item: Item)
    requires SameSlot(slot, item)
    ensures Except([slot], item) == []
  {
    assert [slot][1..] == [];
  }

  lemma {:induction false} ExceptAround(before: seq<Item>, slot: Item, after: seq<Item>, item: Item)
    requires SameSlot(slot, item)
    ensures Except(before + [slot] + after, item) == Except(before, item) + Except(after, item)
  {
    ExceptConcat(before + [slot], after, item);
    ExceptConcat(before, [slot], item);
    ExceptOne(slot, item);
  }

  // Dropping the tracked slot is dropping every pair of that slot.
  lemma {:induction false} DropIsExcept(segments: seq<Segment>, k: nat, item: Item)
    requires OneSlotPerSource(segments) && k < |segments| && Slot(segments[k]) && SameSlot(segments[k].item, item)
    ensures PairItems(Drop(segments, k)) == Except(PairItems(segments), item)
  {
    var before, after := segments[..k], segments[k + 1..];
    OthersKept(segments, before, k, item);
    OthersKept(segments, after, k, item);
    assert segments == before + [Pair(segments[k].item)] + after && Drop(segments, k) == before + after;
    DropBetween(before, segments[k].item, after, item);
  }

  lemma {:induction false} DropBetween(before: seq<Segment>, slot: Item, after: seq<Segment>, item: Item)
    requires SameSlot(slot, item)
    requires Except(PairItems(before), item) == PairItems(before) && Except(PairItems(after), item) == PairItems(after)
    ensures PairItems(before + after) == Except(PairItems(before + [Pair(slot)] + after), item)
  {
    PairItemsAround(before, [Pair(slot)], after);
    PairItemsOne(slot);
    PairItemsConcat(before, after);
    ExceptAround(PairItems(before), slot, PairItems(after), item);
  }

  lemma {:induction false} OthersKept(segments: seq<Segment>, part: seq<Segment>, k: nat, item: Item)
    requires OneSlotPerSource(segments) && k < |segments| && Slot(segments[k]) && SameSlot(segments[k].item, item)
    requires part == segments[..k] || part == segments[k + 1..]
    ensures Except(PairItems(part), item) == PairItems(part)
  {
    forall x | x in PairItems(part)
      ensures !SameSlot(x, item)
    {
      PairItemsAre(part, x);
      var i :| 0 <= i < |part| && part[i] == Pair(x);
      var j := if part == segments[..k] then i else i + k + 1;
      assert segments[j] == Pair(x);
    }
    ExceptNone(PairItems(part), item);
  }

  lemma {:induction false} NoSlotKept(segments: seq<Segment>, tracker: Tracker, item: Item)
    requires TrackerOk(segments, tracker) && (item.replaceInHistory ==> item.source !in tracker)
    ensures Except(PairItems(segments), item) == PairItems(segments)
  {
    forall x | x in PairItems(segments)
      ensures !SameSlot(x, item)
    {
      PairItemsAre(segments, x);
      var i :| 0 <= i < |segments| && segments[i] == Pair(x);
      assert Slot(segments[i]) ==> segments[i].item.source in tracker;
    }
    ExceptNone(PairItems(segments), item);
  }

  lemma {:induction false} AfterItems(segments: seq<Segment>, tracker: Tracker, item: Item)
    requires OneSlotPerSource(segments) && TrackerOk(segments, tracker)
    ensures PairItems(After(segments, tracker, item)) == Except(PairItems(segments), item) + [item]
  {
    PairItemsOne(item);
    if item.replaceInHistory && item.source in tracker {
      var k := SlotOf(segments, item.source);
      DropIsExcept(segments, k, item);
      PairItemsConcat(Drop(segments, k), [Pair(item)]);
    } else {
      NoSlotKept(segments, tracker, item);
      PairItemsConcat(segments, [Pair(item)]);
    }
  }

  // Live says what it should: exactly the drained items that no later one supersedes.
  lemma {:induction false} LiveIsUnsuperseded(items: seq<Item>, i: nat)
    requires DistinctItems(items) && i < |items|
    ensures items[i] in Live(items) <==> !Superseded(items, i)
  {
    var n := |items| - 1;
    var init := items[..n];
    if i < n {
      DistinctPrefix(items, n);
      LiveIsUnsuperseded(init, i);
      SupersededLater(items, init, i);
      assert items[i] != items[n] by { assert CallId(items[i]) != CallId(items[n]); }
      LiveLast(items, init, items[i]);
    } else {
      assert items[n] in Live(items);
    }
  }

  lemma {:induction false} DistinctPrefix(items: seq<Item>, n: nat)
    requires DistinctItems(items) && n <= |items|
    ensures DistinctItems(items[..n])
  {
  }

  lemma {:induction false} LiveLast(items: seq<Item>, init: seq<Item>, x: Item)
    requires items != [] && init == items[..|items| - 1] && x != items[|items| - 1]
    ensures x in Live(items) <==> x in Live(init) && !SameSlot(x, items[|items| - 1])
  {
    var last := items[|items| - 1];
    var kept := Except(Live(init), last);
    assert Live(items) == kept + [last];
    assert x in kept + [last] <==> x in kept;
  }

  lemma {:induction false} SupersededLater(items: seq<Item>, init: seq<Item>, i: nat)
    requires i < |init| && |items| == |init| + 1 && init == items[..|init|]
    ensures Superseded(items, i) <==> Superseded(init, i) || SameSlot(items[i], items[|init|])
  {
    if Superseded(init, i) {
      var j :| i < j < |init| && init[j].replaceInHistory && init[j].source == init[i].source;
      assert items[j] == init[j] && items[i] == init[i];
    }
    if Superseded(items, i) && !SameSlot(items[i], items[|init|]) {
      var j :| i < j < |items| && items[j].replaceInHistory && items[j].source == items[i].source;
      assert init[j] == items[j] && items[i] == init[i];
    }
  }

  lemma {:induction false} LiveOnly(items: seq<Item>)
    ensures forall x <- Live(items) :: x in items
  {
    if items != [] {
      LiveOnly(items[..|items| - 1]);
    }
  }

  // ----- runs -----

  datatype State = State(
    queue: seq<Item>,
    entries: seq<Entry>,
    tracker: Tracker,
    // history
    enqueued: set<string>,      // ids ever enqueued
    spliced: seq<Item>,         // items drained into the history, in order
    coalesced: set<string>,     // replaced in the queue by a later item
    removed: set<string>)       // dismissed while queued

  datatype Op =
    | Enqueue(item: Item)
    | Dismiss(notifId: string)
    | DrainInto
    | Traffic(entry: Entry)     // ordinary conversation

  const EMPTY := State([], [], map[], {}, [], {}, {})

  function Ids(items: seq<Item>): set<string> {
    set i | 0 <= i < |items| :: CallId(items[i])
  }

  ghost predicate Enabled(op: Op, s: State) {
    match op
    case Enqueue(item) =>
      Formed(item) && item.call.id !in s.enqueued && forall e <- s.entries :: !Mentions(e, item.call.id)
    case Traffic(entry) => forall id <- s.enqueued :: !Mentions(entry, id)
    case _ => forall item <- s.queue :: Formed(item)
  }

  ghost function Do(op: Op, s: State): State
    requires Enabled(op, s)
  {
    match op
    case Enqueue(item) =>
      var queue := Put(s.queue, item);
      s.(queue := queue, enqueued := s.enqueued + {item.call.id},
          coalesced := s.coalesced + (Ids(s.queue) - Ids(queue)))
    case Dismiss(notifId) =>
      var queue := Without(s.queue, notifId);
      s.(queue := queue, removed := s.removed + (Ids(s.queue) - Ids(queue)))
    case DrainInto =>
      if HasPending(s.entries) then s
      else
        var (entries, tracker) := SpliceAll(s.entries, s.tracker, s.queue);
        s.(queue := [], entries := entries, tracker := tracker, spliced := s.spliced + s.queue)
    case Traffic(entry) => s.(entries := s.entries + [entry])
  }

  ghost predicate Reaches(ops: seq<Op>, s: State)
    decreases |ops|
  {
    if ops == [] then s == EMPTY
    else
      var last := ops[|ops| - 1];
      exists prev :: Reaches(ops[..|ops| - 1], prev) && Enabled(last, prev) && s == Do(last, prev)
  }

  // ----- conservation: each enqueued item is in exactly one place -----

  ghost predicate DistinctItems(items: seq<Item>) {
    forall i, j :: 0 <= i < j < |items| ==> CallId(items[i]) != CallId(items[j])
  }

  ghost predicate AllFormed(items: seq<Item>) {
    forall item <- items :: Formed(item)
  }

  ghost predicate Partition(all: set<string>, a: set<string>, b: set<string>, c: set<string>, d: set<string>) {
    all == a + b + c + d && a !! b && a !! c && a !! d && b !! c && b !! d && c !! d
  }

  ghost predicate PlaceInv(s: State) {
    && AllFormed(s.queue) && AllFormed(s.spliced)
    && DistinctItems(s.queue) && DistinctItems(s.spliced)
    && Partition(s.enqueued, Ids(s.queue), Ids(s.spliced), s.coalesced, s.removed)
  }

  lemma {:induction false} IdsOf(items: seq<Item>, id: string)
    ensures id in Ids(items) <==> exists x <- items :: CallId(x) == id
  {
    if id in Ids(items) {
      var i :| 0 <= i < |items| && CallId(items[i]) == id;
      assert items[i] in items;
    }
  }

  lemma {:induction false} SubIds(small: seq<Item>, items: seq<Item>, extra: set<string>)
    requires forall x <- small :: x in items || CallId(x) in extra
    ensures Ids(small) <= Ids(items) + extra
  {
    forall i | 0 <= i < |small|
      ensures CallId(small[i]) in Ids(items) + extra
    {
      assert small[i] in small;
      IdsOf(items, CallId(small[i]));
    }
  }

  // The first queued item of this source.
  predicate FirstOfSource(items: seq<Item>, source: string, i: nat) {
    i < |items| && items[i].source == source && forall j :: 0 <= j < i ==> items[j].source != source
  }

  // A coalescing item takes the place of that one, and of no other.
  lemma {:induction false} ReplaceIs(items: seq<Item>, item: Item)
    ensures forall i: nat :: FirstOfSource(items, item.source, i) ==> Replace(items, item) == items[i := item]
    ensures (forall x <- items :: x.source != item.source) ==> Replace(items, item) == items + [item]
  {
    if items != [] {
      var first, rest := items[0], items[1..];
      ReplaceIs(rest, item);
      assert items == [first] + rest && first in items;
      forall i: nat | FirstOfSource(items, item.source, i)
        ensures Replace(items, item) == items[i := item]
      {
        if i > 0 {
          assert first.source != item.source;
          assert FirstOfSource(rest, item.source, i - 1);
          assert items[i := item] == [first] + rest[i - 1 := item];
        }
      }
    }
  }

  // An enqueued item goes to the end, or, when it coalesces, to the place of the
  // first one of its source.
  lemma {:induction false} EnqueuedAt(items: seq<Item>, item: Item)
    ensures (!item.coalesce || forall x <- items :: x.source != item.source) ==> Put(items, item) == items + [item]
    ensures forall i: nat :: item.coalesce && FirstOfSource(items, item.source, i) ==>
              Put(items, item) == items[i := item]
  {
    ReplaceIs(items, item);
  }

  // What a coalescing enqueue leaves in the queue.
  lemma {:induction false} ReplaceItems(items: seq<Item>, item: Item)
    requires DistinctItems(items) && CallId(item) !in Ids(items)
    ensures DistinctItems(Replace(items, item)) && item in Replace(items, item)
    ensures forall x <- Replace(items, item) :: x == item || x in items
    ensures forall x <- items :: x.source != item.source ==> x in Replace(items, item)
  {
    if items == [] {
      PrependItem(item, []);
    } else {
      var first, rest := items[0], items[1..];
      assert items == [first] + rest;
      RestItems(items);
      SubIds(rest, items, {});
      IdsOf(items, CallId(item));
      if first.source == item.source {
        PrependItem(item, rest);
      } else {
        ReplaceItems(rest, item);
        PrependItem(first, Replace(rest, item));
      }
    }
  }

  lemma {:induction false} RestItems(items: seq<Item>)
    requires DistinctItems(items) && items != []
    ensures DistinctItems(items[1..]) && items[0] in items
    ensures forall x <- items[1..] :: x in items && CallId(x) != CallId(items[0])
  {
    var rest := items[1..];
    assert forall i :: 0 <= i < |rest| ==> rest[i] == items[i + 1];
  }

  lemma {:induction false} PrependItem(x: Item, items: seq<Item>)
    requires DistinctItems(items) && forall y <- items :: CallId(y) != CallId(x)
    ensures DistinctItems([x] + items) && forall y :: y in [x] + items <==> y == x || y in items
  {
    assert forall i :: 0 <= i < |items| ==> items[i] in items;
  }

  lemma {:induction false} PutItems(items: seq<Item>, item: Item)
    requires DistinctItems(items) && CallId(item) !in Ids(items)
    ensures DistinctItems(Put(items, item)) && item in Put(items, item)
    ensures forall x <- Put(items, item) :: x == item || x in items
  {
    if item.coalesce {
      ReplaceItems(items, item);
    } else {
      assert (items + [item])[|items|] == item;
    }
  }

  lemma {:induction false} WithoutItems(items: seq<Item>, notifId: string)
    requires DistinctItems(items)
    ensures DistinctItems(Without(items, notifId))
    ensures forall x <- Without(items, notifId) :: x in items
  {
    if items != [] && !IsNotification(items[0], notifId) {
      var rest := items[1..];
      assert forall i :: 0 <= i < |rest| ==> rest[i] == items[i + 1];
      WithoutItems(rest, notifId);
      assert forall x <- rest :: CallId(x) != CallId(items[0]);
    }
  }

  lemma {:induction false} IdsConcat(a: seq<Item>, b: seq<Item>)
    ensures Ids(a + b) == Ids(a) + Ids(b)
  {
    SubIds(a, a + b, {});
    SubIds(b, a + b, {});
    forall x | x in a + b
      ensures x in a || CallId(x) in Ids(b)
    {
      IdsOf(b, CallId(x));
    }
    SubIds(a + b, a, Ids(b));
  }

  lemma {:induction false} PlaceStep(op: Op, s: State)
    requires PlaceInv(s) && Enabled(op, s)
    ensures PlaceInv(Do(op, s))
  {
    match op
    case Enqueue(item) =>
      PutItems(s.queue, item);
      var queue := Put(s.queue, item);
      SubIds(queue, s.queue, {CallId(item)});
      IdsOf(queue, CallId(item));
    case Dismiss(notifId) =>
      WithoutItems(s.queue, notifId);
      SubIds(Without(s.queue, notifId), s.queue, {});
    case DrainInto =>
      if !HasPending(s.entries) {
        DrainPlaces(s);
      }
    case Traffic(_) =>
  }

  lemma {:induction false} DrainPlaces(s: State)
    requires PlaceInv(s)
    ensures AllFormed(s.spliced + s.queue) && DistinctItems(s.spliced + s.queue) && Ids([]) == {}
    ensures Partition(s.enqueued, {}, Ids(s.spliced + s.queue), s.coalesced, s.removed)
  {
    IdsConcat(s.spliced, s.queue);
    forall i, j | 0 <= i < j < |s.spliced + s.queue|
      ensures CallId((s.spliced + s.queue)[i]) != CallId((s.spliced + s.queue)[j])
    {
      var n := |s.spliced|;
      if i < n <= j {
        assert CallId(s.spliced[i]) in Ids(s.spliced) && CallId(s.queue[j - n]) in Ids(s.queue);
      }
    }
  }

  // ----- the wire along a run -----

  ghost predicate WireInv(s: State, segments: seq<Segment>) {
    && s.entries == Render(segments)
    && SegmentsOk(segments, s.enqueued)
    && TrackerOk(segments, s.tracker)
    && PairItems(segments) == Live(s.spliced)
  }

  lemma {:induction false} FreshIsClean(segments: seq<Segment>, ids: set<string>, items: seq<Item>, id: string)
    requires IdsOk(segments, ids) && id in ids
    requires PairItems(segments) == Live(items) && id !in Ids(items)
    ensures Clean(segments, id)
  {
    forall i | 0 <= i < |segments|
      ensures CleanSegment(segments[i], id)
    {
      assert IdOk(segments[i], ids);
      if segments[i].Pair? {
        PairItemsAre(segments, segments[i].item);
        LiveOnly(items);
        IdsOf(items, CallId(segments[i].item));
      }
    }
  }

  // Draining the queue, one item after the other.
  lemma {:induction false} SpliceAllWire(s: State, segments: seq<Segment>,
          items: seq<Item>) returns (after: seq<Segment>)
    requires WireInv(s, segments)
    requires AllFormed(items) && DistinctItems(s.spliced + items) && Ids(items) <= s.enqueued
    ensures var (entries, tracker) := SpliceAll(s.entries, s.tracker, items);
            WireInv(s.(entries := entries, tracker := tracker, spliced := s.spliced + items), after)
    decreases |items|
  {
    if items == [] {
      assert s.spliced + items == s.spliced;
      after := segments;
    } else {
      var init, item := items[..|items| - 1], items[|items| - 1];
      LastItem(s.spliced, items, s.enqueued);
      var before := SpliceAllWire(s, segments, init);
      var (entries, tracker) := SpliceAll(s.entries, s.tracker, init);
      after := SpliceWire(s.(entries := entries, tracker := tracker, spliced := s.spliced + init), before, item);
    }
  }

  lemma {:induction false} LastItem(spliced: seq<Item>, items: seq<Item>, ids: set<string>)
    requires AllFormed(items) && DistinctItems(spliced + items) && Ids(items) <= ids && items != []
    ensures var init, item := items[..|items| - 1], items[|items| - 1];
            && AllFormed(init) && DistinctItems(spliced + init) && Ids(init) <= ids
            && Formed(item) && item.call.id in ids && CallId(item) !in Ids(spliced + init)
            && spliced + init + [item] == spliced + items
  {
    var n := |items| - 1;
    var init, item := items[..n], items[n];
    assert items == init + [item] && item in items;
    SubIds(init, items, {});
    IdsOf(items, CallId(item));
    assert (spliced + items)[..|spliced| + n] == spliced + init;
    DistinctPrefix(spliced + items, |spliced| + n);
    LastIsNew(spliced + items);
  }

  // One more item is spliced.
  lemma {:induction false} SpliceWire(s: State, before: seq<Segment>, item: Item) returns (after: seq<Segment>)
    requires WireInv(s, before) && Formed(item) && item.call.id in s.enqueued && CallId(item) !in Ids(s.spliced)
    ensures var (entries, tracker) := Splice(s.entries, s.tracker, item);
            WireInv(s.(entries := entries, tracker := tracker, spliced := s.spliced + [item]), after)
  {
    FreshIsClean(before, s.enqueued, s.spliced, item.call.id);
    AfterOk(before, s.tracker, s.enqueued, item);
    AfterRendered(before, s.tracker, s.enqueued, item);
    AfterItems(before, s.tracker, item);
    after := After(before, s.tracker, item);
    assert (s.spliced + [item])[..|s.spliced|] == s.spliced;
  }

  lemma {:induction false} LastIsNew(items: seq<Item>)
    requires DistinctItems(items) && items != []
    ensures CallId(items[|items| - 1]) !in Ids(items[..|items| - 1])
  {
    var init := items[..|items| - 1];
    forall i | 0 <= i < |init|
      ensures CallId(init[i]) != CallId(items[|items| - 1])
    {
      assert init[i] == items[i];
    }
  }

  lemma {:induction false} RegularRendered(segments: seq<Segment>, i: nat)
    requires i < |segments| && segments[i].Regular?
    ensures segments[i].entry in Render(segments)
  {
    if i > 0 {
      RegularRendered(segments[1..], i - 1);
    }
  }

  // A new id enters: the history does not mention it yet.
  lemma {:induction false} NewIdOk(segments: seq<Segment>, ids: set<string>, id: string)
    requires SegmentsOk(segments, ids) && forall e <- Render(segments) :: !Mentions(e, id)
    ensures SegmentsOk(segments, ids + {id})
  {
    forall i | 0 <= i < |segments|
      ensures IdOk(segments[i], ids + {id})
    {
      assert IdOk(segments[i], ids);
      if segments[i].Regular? {
        RegularRendered(segments, i);
      }
    }
  }

  lemma {:induction false} TrafficOk(segments: seq<Segment>, s: State, entry: Entry)
    requires WireInv(s, segments) && forall id <- s.enqueued :: !Mentions(entry, id)
    ensures WireInv(s.(entries := s.entries + [entry]), segments + [Regular(entry)])
  {
    RegularRenders(segments, entry);
    assert IdOk(Regular(entry), s.enqueued);
    RegularTracked(segments, s.tracker, entry);
    RegularOk(segments, s.enqueued, entry);
  }

  lemma {:induction false} RegularRenders(segments: seq<Segment>, entry: Entry)
    ensures Render(segments + [Regular(entry)]) == Render(segments) + [entry]
    ensures PairItems(segments + [Regular(entry)]) == PairItems(segments)
  {
    var one := [Regular(entry)];
    assert one[1..] == [];
    RenderConcat(segments, one);
    PairItemsConcat(segments, one);
  }

  lemma {:induction false} RegularOk(segments: seq<Segment>, ids: set<string>, entry: Entry)
    requires SegmentsOk(segments, ids) && IdOk(Regular(entry), ids)
    ensures SegmentsOk(segments + [Regular(entry)], ids)
  {
  }

  lemma {:induction false} RegularTracked(segments: seq<Segment>, tracker: Tracker, entry: Entry)
    requires TrackerOk(segments, tracker)
    ensures TrackerOk(segments + [Regular(entry)], tracker)
  {
    var longer := segments + [Regular(entry)];
    forall source | source in tracker
      ensures exists i :: 0 <= i < |longer| && Slot(longer[i]) && longer[i].item.source == source
    {
      var i :| 0 <= i < |segments| && Slot(segments[i]) && segments[i].item.source == source;
      assert longer[i] == segments[i];
    }
  }

  lemma {:induction false} WireStep(op: Op, s: State, segments: seq<Segment>) returns (after: seq<Segment>)
    requires PlaceInv(s) && WireInv(s, segments) && Enabled(op, s)
    ensures WireInv(Do(op, s), after)
  {
    after := segments;
    match op
    case Enqueue(item) => NewIdOk(segments, s.enqueued, item.call.id);
    case Dismiss(_) =>
    case DrainInto =>
      if !HasPending(s.entries) {
        DrainPlaces(s);
        after := SpliceAllWire(s, segments, s.queue);
      }
    case Traffic(entry) =>
      TrafficOk(segments, s, entry);
      after := segments + [Regular(entry)];
  }

  lemma {:induction false} Always(ops: seq<Op>, s: State) returns (segments: seq<Segment>)
    requires Reaches(ops, s)
    ensures PlaceInv(s) && WireInv(s, segments)
    decreases |ops|
  {
    if ops == [] {
      segments := [];
    } else {
      var last := ops[|ops| - 1];
      var prev :| Reaches(ops[..|ops| - 1], prev) && Enabled(last, prev) && s == Do(last, prev);
      var before := Always(ops[..|ops| - 1], prev);
      PlaceStep(last, prev);
      segments := WireStep(last, prev, before);
    }
  }

  // ----- what holds in every run -----

  // Each enqueued item is queued, spliced, coalesced away or removed, and only one of these.
  lemma {:induction false} ItemsConserved(ops: seq<Op>, s: State)
    requires Reaches(ops, s)
    ensures Partition(s.enqueued, Ids(s.queue), Ids(s.spliced), s.coalesced, s.removed)
  {
    var _ := Always(ops, s);
  }

  // The pair of `item` stands at k, call next to result, and nothing else mentions its id.
  predicate OnlyPair(entries: seq<Entry>, item: Item, k: nat) {
    && k + 1 < |entries|
    && entries[k] == Entry(Assistant, [item.call]) && entries[k + 1] == Entry(User, [item.result])
    && forall m :: 0 <= m < |entries| && m != k && m != k + 1 ==> !Mentions(entries[m], CallId(item))
  }

  lemma {:induction false} PairStands(segments: seq<Segment>, ids: set<string>, i: nat) returns (k: nat)
    requires IdsOk(segments, ids) && DistinctIds(segments) && i < |segments| && segments[i].Pair?
    ensures OnlyPair(Render(segments), segments[i].item, k)
  {
    var item := segments[i].item;
    var before, after := segments[..i], segments[i + 1..];
    var pair := [Entry(Assistant, [item.call]), Entry(User, [item.result])];
    CleanWithout(segments, ids, i);
    assert segments == before + [Pair(item)] + after;
    RenderConcat(before + [Pair(item)], after);
    RenderConcat(before, [Pair(item)]);
    RenderPair(item);
    CleanRender(before, item.call.id);
    forall j | 0 <= j < |after|
      ensures CleanSegment(after[j], item.call.id)
    {
      assert after[j] == segments[i + 1 + j] && IdOk(segments[i + 1 + j], ids);
    }
    CleanRender(after, item.call.id);
    k := |Render(before)|;
    PairBetween(Render(before), item, Render(after));
  }

  lemma {:induction false} PairBetween(before: seq<Entry>, item: Item, after: seq<Entry>)
    requires forall e <- before :: !Mentions(e, CallId(item))
    requires forall e <- after :: !Mentions(e, CallId(item))
    ensures OnlyPair(before + [Entry(Assistant, [item.call]), Entry(User, [item.result])] + after, item, |before|)
  {
    var all := before + [Entry(Assistant, [item.call]), Entry(User, [item.result])] + after;
    forall m | 0 <= m < |all| && m != |before| && m != |before| + 1
      ensures !Mentions(all[m], CallId(item))
    {
      if m < |before| {
        assert all[m] == before[m];
      } else {
        assert all[m] == after[m - |before| - 2];
      }
    }
  }

  // A drained item that a later one of its slot superseded has left the history
  // without trace; every other one is there as one adjacent call and result.
  lemma {:induction false} SplicedOutcome(ops: seq<Op>, s: State, i: nat)
    requires Reaches(ops, s) && i < |s.spliced|
    ensures Superseded(s.spliced, i) ==> forall e <- s.entries :: !Mentions(e, CallId(s.spliced[i]))
    ensures !Superseded(s.spliced, i) ==> exists k :: OnlyPair(s.entries, s.spliced[i], k)
  {
    var segments := Always(ops, s);
    var item := s.spliced[i];
    LiveIsUnsuperseded(s.spliced, i);
    PairItemsAre(segments, item);
    if Superseded(s.spliced, i) {
      SupersededIsClean(s, segments, i);
      CleanRender(segments, item.call.id);
    } else {
      var j :| 0 <= j < |segments| && segments[j] == Pair(item);
      var k := PairStands(segments, s.enqueued, j);
    }
  }

  lemma {:induction false} SupersededIsClean(s: State, segments: seq<Segment>, i: nat)
    requires PlaceInv(s) && WireInv(s, segments) && i < |s.spliced| && Superseded(s.spliced, i)
    ensures Formed(s.spliced[i]) && Clean(segments, s.spliced[i].call.id)
  {
    var item := s.spliced[i];
    LiveIsUnsuperseded(s.spliced, i);
    assert item in s.spliced && CallId(item) in Ids(s.spliced);
    forall j | 0 <= j < |segments|
      ensures CleanSegment(segments[j], item.call.id)
    {
      assert IdOk(segments[j], s.enqueued);
      if segments[j].Pair? {
        var x := segments[j].item;
        PairItemsAre(segments, x);
        LiveOnly(s.spliced);
        var m :| 0 <= m < |s.spliced| && s.spliced[m] == x;
        assert m != i;
      }
    }
  }

  // What is queued, coalesced away or dismissed never shows in the history.
  lemma {:induction false} UnsplicedUnseen(ops: seq<Op>, s: State, id: string)
    requires Reaches(ops, s) && id in s.enqueued && id !in Ids(s.spliced)
    ensures forall e <- s.entries :: !Mentions(e, id)
  {
    var segments := Always(ops, s);
    FreshIsClean(segments, s.enqueued, s.spliced, id);
    CleanRender(segments, id);
  }

  // At most one pair per slot, the newest, and the tracker holds its id.
  lemma {:induction false} OneSlot(ops: seq<Op>, s: State, i: nat)
    requires Reaches(ops, s) && i < |s.spliced| && s.spliced[i].replaceInHistory && !Superseded(s.spliced, i)
    ensures s.spliced[i].source in s.tracker && s.tracker[s.spliced[i].source] == CallId(s.spliced[i])
    ensures exists k :: OnlyPair(s.entries, s.spliced[i], k)
    ensures forall j :: 0 <= j < |s.spliced| && j != i && SameSlot(s.spliced[j], s.spliced[i]) ==>
              forall e <- s.entries :: !Mentions(e, CallId(s.spliced[j]))
  {
    var segments := Always(ops, s);
    var item := s.spliced[i];
    LiveIsUnsuperseded(s.spliced, i);
    PairItemsAre(segments, item);
    var m :| 0 <= m < |segments| && segments[m] == Pair(item);
    assert Slot(segments[m]);
    SplicedOutcome(ops, s, i);
    forall j | 0 <= j < |s.spliced| && j != i && SameSlot(s.spliced[j], s.spliced[i])
      ensures forall e <- s.entries :: !Mentions(e, CallId(s.spliced[j]))
    {
      assert Superseded(s.spliced, j);
      SplicedOutcome(ops, s, j);
    }
  }

  // The tracker knows no other source.
  lemma {:induction false} TrackerIsExact(ops: seq<Op>, s: State, source: string)
    requires Reaches(ops, s)
    ensures source in s.tracker <==>
            exists i :: 0 <= i < |s.spliced| && s.spliced[i].replaceInHistory && s.spliced[i].source == source
  {
    var segments := Always(ops, s);
    if source in s.tracker {
      var m :| 0 <= m < |segments| && Slot(segments[m]) && segments[m].item.source == source;
      PairItemsAre(segments, segments[m].item);
      LiveOnly(s.spliced);
      assert segments[m].item in s.spliced;
    }
    if exists i :: 0 <= i < |s.spliced| && s.spliced[i].replaceInHistory && s.spliced[i].source == source {
      var i := LastOfSlot(s.spliced, source);
      OneSlot(ops, s, i);
    }
  }

  lemma {:induction false} LastOfSlot(items: seq<Item>, source: string) returns (i: nat)
    requires exists i :: 0 <= i < |items| && items[i].replaceInHistory && items[i].source == source
    ensures i < |items| && items[i].replaceInHistory && items[i].source == source && !Superseded(items, i)
  {
    var k :| 0 <= k < |items| && items[k].replaceInHistory && items[k].source == source;
    i := k;
    for n := k + 1 to |items|
      invariant i < n && items[i].replaceInHistory && items[i].source == source
      invariant forall j :: i < j < n ==> !(items[j].replaceInHistory && items[j].source == source)
    {
      if items[n].replaceInHistory && items[n].source == source {
        i := n;
      }
    }
  }
}
