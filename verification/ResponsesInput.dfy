/** The canonical history as input items of the Responses API, and the guard
    that answers open calls (src/lingtai/llm/interface_converters.py). */
module ResponsesInput {
  import opened Wrappers
  import opened WireFormats

  // A missing `call_id` is an empty one.
  datatype RItem =
    | UserText(content: string)
    | AssistantText(content: string)
    | FunctionCall(callId: string, name: string, arguments: string)
    | Reasoning(summary: string)
    | RawReasoning(raw: string)
    | FunctionOutput(callId: string, output: string)

  const PLACEHOLDER := "[synthesized placeholder - real tool result was not in context at send time]"

  predicate Answered(items: seq<RItem>, id: string) {
    exists k :: 0 <= k < |items| && items[k].FunctionOutput? && items[k].callId == id
  }

  predicate Called(items: seq<RItem>, id: string) {
    exists k :: 0 <= k < |items| && items[k].FunctionCall? && items[k].callId == id
  }

  // ----- the guard -----

  function OutputIds(items: seq<RItem>): (r: set<string>)
    ensures forall id :: id in r <==> id != "" && Answered(items, id)
  {
    set k | 0 <= k < |items| && items[k].FunctionOutput? && items[k].callId != "" :: items[k].callId
  }

  // The ids of unanswered calls among the first n items, each at its first call.
  function Orphans(items: seq<RItem>, n: nat): seq<string>
    requires n <= |items|
  {
    if n == 0 then []
    else
      var before, item := Orphans(items, n - 1), items[n - 1];
      if item.FunctionCall? && item.callId != "" && !Answered(items, item.callId) && item.callId !in before
      then before + [item.callId] else before
  }

  function Placeholders(ids: seq<string>): (r: seq<RItem>)
    ensures |r| == |ids| && forall i :: 0 <= i < |ids| ==> r[i] == FunctionOutput(ids[i], PLACEHOLDER)
  {
    seq(|ids|, i requires 0 <= i < |ids| => FunctionOutput(ids[i], PLACEHOLDER))
  }

  function PairOrphans(items: seq<RItem>): seq<RItem> {
    items + Placeholders(Orphans(items, |items|))
  }

  method PairOrphanCalls(items: seq<RItem>) returns (patched: seq<RItem>)
    ensures patched == PairOrphans(items)
  {
    patched := items;
    var seen := OutputIds(items);
    for i := 0 to |items|
      invariant patched == items + Placeholders(Orphans(items, i))
      invariant forall id :: id in seen <==> id in OutputIds(items) || id in Orphans(items, i)
    {
      var item := items[i];
      if item.FunctionCall? && item.callId != "" && item.callId !in seen {
        patched := patched + [FunctionOutput(item.callId, PLACEHOLDER)];
        seen := seen + {item.callId};
        assert Placeholders(Orphans(items, i + 1)) ==
               Placeholders(Orphans(items, i)) + [FunctionOutput(item.callId, PLACEHOLDER)];
      }
    }
  }

  // The first call with this id.
  predicate FirstCallAt(items: seq<RItem>, id: string, k: nat) {
    && k < |items| && items[k].FunctionCall? && items[k].callId == id
    && forall j :: 0 <= j < k ==> !(items[j].FunctionCall? && items[j].callId == id)
  }

  // One entry per distinct, non-empty, unanswered id, in the order of the first calls.
  lemma {:induction false} OrphansAre(items: seq<RItem>, n: nat)
    requires n <= |items|
    ensures forall i, j :: 0 <= i < j < |Orphans(items, n)| ==> Orphans(items, n)[i] != Orphans(items, n)[j]
    ensures forall id :: id in Orphans(items, n) <==> id != "" && !Answered(items, id) && Called(items[..n], id)
  {
    if n > 0 {
      OrphansAre(items, n - 1);
      var item := items[n - 1];
      assert items[..n] == items[..n - 1] + [item];
      forall id
        ensures Called(items[..n], id) <==> Called(items[..n - 1], id) || (item.FunctionCall? && item.callId == id)
      {
        CalledConcat(items[..n - 1], item, id);
      }
    }
  }

  lemma {:induction false} CalledConcat(items: seq<RItem>, item: RItem, id: string)
    ensures Called(items + [item], id) <==> Called(items, id) || (item.FunctionCall? && item.callId == id)
  {
    var all := items + [item];
    if Called(items, id) {
      var k :| 0 <= k < |items| && items[k].FunctionCall? && items[k].callId == id;
      assert all[k] == items[k];
    }
    if item.FunctionCall? && item.callId == id {
      assert all[|items|] == item;
    }
  }

  lemma {:induction false} OrphanOrder(items: seq<RItem>, n: nat, i: nat, j: nat, p: nat, q: nat)
    requires n <= |items| && i < j < |Orphans(items, n)|
    requires FirstCallAt(items, Orphans(items, n)[i], p) && FirstCallAt(items, Orphans(items, n)[j], q)
    ensures p < q
  {
    if n > 0 {
      var before := Orphans(items, n - 1);
      if j < |before| {
        OrphanOrder(items, n - 1, i, j, p, q);
      } else {
        OrphansAre(items, n - 1);
        assert before[i] in before;
        assert Called(items[..n - 1], before[i]);
        var k :| 0 <= k < n - 1 && items[..n - 1][k].FunctionCall? && items[..n - 1][k].callId == before[i];
        assert items[k] == items[..n - 1][k];
        LastIsNew(items, n, q);
      }
    }
  }

  // The id just appended was not called before.
  lemma {:induction false} LastIsNew(items: seq<RItem>, n: nat, q: nat)
    requires 0 < n <= |items| && |Orphans(items, n)| > |Orphans(items, n - 1)|
    requires FirstCallAt(items, items[n - 1].callId, q)
    ensures q == n - 1
  {
    var id := items[n - 1].callId;
    OrphansAre(items, n - 1);
    assert !Called(items[..n - 1], id);
    forall j | 0 <= j < n - 1
      ensures !(items[j].FunctionCall? && items[j].callId == id)
    {
      assert items[..n - 1][j] == items[j];
    }
  }

  // After the guard every call with an id is answered.
  lemma {:induction false} EveryCallAnswered(items: seq<RItem>, id: string)
    requires id != "" && Called(PairOrphans(items), id)
    ensures Answered(PairOrphans(items), id)
  {
    var orphans := Orphans(items, |items|);
    var all := PairOrphans(items);
    var k :| 0 <= k < |all| && all[k].FunctionCall? && all[k].callId == id;
    assert items[k] == all[k] && items[..|items|] == items;
    OrphansAre(items, |items|);
    if Answered(items, id) {
      var m :| 0 <= m < |items| && items[m].FunctionOutput? && items[m].callId == id;
      assert all[m] == items[m];
    } else {
      assert id in orphans;
      var m :| 0 <= m < |orphans| && orphans[m] == id;
      assert all[|items| + m] == Placeholders(orphans)[m];
    }
  }

  lemma {:induction false} NoOrphans(items: seq<RItem>, n: nat)
    requires n <= |items| && forall id :: id != "" && Called(items, id) ==> Answered(items, id)
    ensures Orphans(items, n) == []
  {
    if n > 0 {
      NoOrphans(items, n - 1);
      assert items[n - 1].FunctionCall? ==> Called(items, items[n - 1].callId);
    }
  }

  lemma {:induction false} GuardIsIdempotent(items: seq<RItem>)
    ensures PairOrphans(PairOrphans(items)) == PairOrphans(items)
  {
    var once := PairOrphans(items);
    forall id | id != "" && Called(once, id)
      ensures Answered(once, id)
    {
      EveryCallAnswered(items, id);
    }
    NoOrphans(once, |once|);
  }

  // ----- the items of one entry -----

  function JoinLines(parts: seq<string>): string {
    if parts == [] then ""
    else if |parts| == 1 then parts[0]
    else parts[0] + "\n" + JoinLines(parts[1..])
  }

  // The blocks are walked in order, each kind into its own list.
  function Texts(content: seq<Block>): seq<string> {
    if content == [] then []
    else Texts(content[..|content| - 1]) + (var b := content[|content| - 1]; if b.Text? then [b.text] else [])
  }

  function Outputs(content: seq<Block>): seq<RItem> {
    if content == [] then []
    else
      Outputs(content[..|content| - 1])
      + (var b := content[|content| - 1]; if b.Result? then [FunctionOutput(b.id, Dump(b.content))] else [])
  }

  function Calls(content: seq<Block>): seq<RItem> {
    if content == [] then []
    else
      Calls(content[..|content| - 1])
      + (var b := content[|content| - 1]; if b.Call? then [FunctionCall(b.id, b.name, b.args)] else [])
  }

  // A stored reasoning item is replayed as it is; else the text, if any, becomes a summary.
  function Thoughts(content: seq<Block>): seq<RItem> {
    if content == [] then []
    else Thoughts(content[..|content| - 1]) + Thought(content[|content| - 1])
  }

  function Thought(b: Block): seq<RItem> {
    if !b.Thinking? then []
    else if b.raw.Some? then [RawReasoning(b.raw.value)]
    else if b.text != "" then [Reasoning(b.text)]
    else []
  }

  function EntryItems(e: Entry): seq<RItem> {
    match e.role
    case System => []
    case User =>
      if e.content != [] && e.content[0].Result? then Outputs(e.content) else [UserText(JoinLines(Texts(e.content)))]
    case Assistant =>
      var text := JoinLines(Texts(e.content));
      Thoughts(e.content) + (if text == "" then [] else [AssistantText(text)]) + Calls(e.content)
  }

  // The items of the first n entries, without placeholders.
  function ItemsOf(entries: seq<Entry>, n: nat): seq<RItem>
    requires n <= |entries|
  {
    if n == 0 then [] else ItemsOf(entries, n - 1) + EntryItems(entries[n - 1])
  }

  function RealItems(entries: seq<Entry>): seq<RItem> {
    ItemsOf(entries, |entries|)
  }

  function ToResponsesInput(entries: seq<Entry>): seq<RItem> {
    PairOrphans(RealItems(entries))
  }

  method SerializeResponses(entries: seq<Entry>) returns (items: seq<RItem>)
    ensures items == ToResponsesInput(entries)
  {
    items := [];
    for i := 0 to |entries|
      invariant items == ItemsOf(entries, i)
    {
      var content := entries[i].content;
      if entries[i].role == User {
        if content != [] && content[0].Result? {
          var outputs := UserOutputs(content);
          items := items + outputs;
        } else {
          items := items + [UserText(JoinLines(Texts(content)))];
        }
      } else if entries[i].role == Assistant {
        var texts, thoughts, calls := AssistantParts(content);
        var joined := JoinLines(texts);
        items := items + (thoughts + (if joined == "" then [] else [AssistantText(joined)]) + calls);
      }
    }
    items := PairOrphanCalls(items);
  }

  method UserOutputs(content: seq<Block>) returns (outputs: seq<RItem>)
    ensures outputs == Outputs(content)
  {
    outputs := [];
    for i := 0 to |content|
      invariant outputs == Outputs(content[..i])
    {
      assert content[..i + 1][..i] == content[..i];
      if content[i].Result? {
        outputs := outputs + [FunctionOutput(content[i].id, Dump(content[i].content))];
      }
    }
    assert content[..|content|] == content;
  }

  method AssistantParts(content: seq<Block>) returns (texts: seq<string>, thoughts: seq<RItem>, calls: seq<RItem>)
    ensures texts == Texts(content) && thoughts == Thoughts(content) && calls == Calls(content)
  {
    texts, thoughts, calls := [], [], [];
    for i := 0 to |content|
      invariant texts == Texts(content[..i]) && thoughts == Thoughts(content[..i]) && calls == Calls(content[..i])
    {
      assert content[..i + 1][..i] == content[..i];
      match content[i]
      case Text(text) => texts := texts + [text];
      case Thinking(_, _, _) => thoughts := thoughts + Thought(content[i]);
      case Call(id, name, args) => calls := calls + [FunctionCall(id, name, args)];
      case Result(_, _, _, _) =>
    }
    assert content[..|content|] == content;
  }

  // ----- stability across turns -----

  lemma {:induction false} ItemsGrow(entries: seq<Entry>, m: nat, n: nat)
    requires m <= n <= |entries|
    ensures ItemsOf(entries, m) <= ItemsOf(entries, n)
  {
    if m < n {
      ItemsGrow(entries, m, n - 1);
    }
  }

  lemma {:induction false} SameItems(entries: seq<Entry>, longer: seq<Entry>, n: nat)
    requires entries <= longer && n <= |entries|
    ensures ItemsOf(longer, n) == ItemsOf(entries, n)
  {
    if n > 0 {
      SameItems(entries, longer, n - 1);
    }
  }

  // A serialization is its real items and a tail of placeholders, and without that
  // tail it is a prefix of every later one.
  lemma {:induction false} PrefixIsStable(entries: seq<Entry>, more: seq<Entry>)
    ensures ToResponsesInput(entries) ==
            RealItems(entries) + Placeholders(Orphans(RealItems(entries), |RealItems(entries)|))
    ensures RealItems(entries) <= ToResponsesInput(entries + more)
  {
    SameItems(entries, entries + more, |entries|);
    ItemsGrow(entries + more, |entries|, |entries + more|);
  }

  // With no call open the whole serialization is such a prefix.
  lemma {:induction false} AnsweredPrefixIsStable(entries: seq<Entry>, more: seq<Entry>)
    requires forall id :: id != "" && Called(RealItems(entries), id) ==> Answered(RealItems(entries), id)
    ensures ToResponsesInput(entries) <= ToResponsesInput(entries + more)
  {
    NoOrphans(RealItems(entries), |RealItems(entries)|);
    PrefixIsStable(entries, more);
  }
}
