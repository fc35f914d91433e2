/** The queue of involuntary tool calls and its splicing into the wire history
    (src/lingtai_kernel/tc_inbox.py, with the four operations of
    src/lingtai_kernel/llm/interface.py it uses). */
module TCInbox {
  import opened Wrappers

  // ----- the wire history -----

  datatype Block =
    | Text(text: string)
    | Thinking(text: string)
    | Call(id: string, action: string, notifId: Option<string>)
    | Result(id: string, synthesized: bool, content: string)

  datatype Role = System | User | Assistant

  datatype Entry = Entry(role: Role, content: seq<Block>)

  predicate HasPending(entries: seq<Entry>) {
    entries != [] && entries[|entries| - 1].role == Assistant && exists b <- entries[|entries| - 1].content :: b.Call?
  }

  // The only call of an assistant entry that otherwise holds text.
  function OnlyCall(content: seq<Block>): (r: Option<Block>)
    ensures r.Some? ==> r.value.Call? && r.value in content
  {
    if content == [] then None
    else if content[0].Call? then (if forall b <- content[1..] :: b.Text? then Some(content[0]) else None)
    else if content[0].Text? then OnlyCall(content[1..])
    else None
  }

  predicate RemovablePair(a: Entry, u: Entry, id: string) {
    && a.role == Assistant && u.role == User && |u.content| == 1
    && OnlyCall(a.content).Some? && u.content[0].Result?
    && OnlyCall(a.content).value.id == id && u.content[0].id == id
  }

  // Removes the first removable pair with this call id.
  function RemovePair(entries: seq<Entry>, id: string): seq<Entry> {
    if |entries| < 2 then entries
    else if RemovablePair(entries[0], entries[1], id) then entries[2..]
    else [entries[0]] + RemovePair(entries[1..], id)
  }

  // Replaces the first synthesized placeholder for this id, if there is one.
  function ReplaceIn(content: seq<Block>, r: Block): Option<seq<Block>>
    requires r.Result?
  {
    if content == [] then None
    else if content[0].Result? && content[0].id == r.id && content[0].synthesized then Some([r] + content[1..])
    else match ReplaceIn(content[1..], r)
      case None => None
      case Some(rest) => Some([content[0]] + rest)
  }

  function ReplacePlaceholder(entries: seq<Entry>, r: Block): Option<seq<Entry>>
    requires r.Result?
  {
    if entries == [] then None
    else
      var here := if entries[0].role == User then ReplaceIn(entries[0].content, r) else None;
      if here.Some? then Some([entries[0].(content := here.value)] + entries[1..])
      else match ReplacePlaceholder(entries[1..], r)
        case None => None
        case Some(rest) => Some([entries[0]] + rest)
  }

  function AddResult(entries: seq<Entry>, r: Block): seq<Entry>
    requires r.Result?
  {
    match ReplacePlaceholder(entries, r)
    case Some(replaced) => replaced
    case None => entries + [Entry(User, [r])]
  }

  class ChatInterface {
    var entries: seq<Entry>

    method HasPendingToolCalls() returns (pending: bool)
      ensures pending == HasPending(entries)
    {
      pending := HasPending(entries);
    }

    method AddAssistantMessage(content: seq<Block>)
      modifies this
      ensures entries == old(entries) + [Entry(Assistant, content)]
    {
      entries := entries + [Entry(Assistant, content)];
    }

    method AddToolResult(r: Block)
      requires r.Result?
      modifies this
      ensures entries == AddResult(old(entries), r)
    {
      var replaced := ReplacePlaceholder(entries, r);
      if replaced.Some? {
        entries := replaced.value;
      } else {
        entries := entries + [Entry(User, [r])];
      }
    }

    method RemovePairByCallId(id: string) returns (removed: bool)
      modifies this
      ensures entries == RemovePair(old(entries), id)
      ensures !removed ==> entries == old(entries)
    {
      var i := 0;
      assert entries[0..] == entries;
      while i + 1 < |entries|
        invariant 0 <= i <= |entries| && entries == old(entries)
        invariant RemovePair(entries, id) == entries[..i] + RemovePair(entries[i..], id)
      {
        if RemovablePair(entries[i], entries[i + 1], id) {
          assert entries[i..][2..] == entries[i + 2..];
          entries := entries[..i] + entries[i + 2..];
          return true;
        }
        assert entries[i..][1..] == entries[i + 1..];
        i := i + 1;
      }
      assert RemovePair(entries[i..], id) == entries[i..];
      removed := false;
    }
  }

  // ----- the queue -----

  datatype Item = Item(call: Block, result: Block, source: string, coalesce: bool, replaceInHistory: bool)

  predicate Formed(item: Item) {
    item.call.Call? && item.result.Result? && item.call.id == item.result.id
  }

  function Put(items: seq<Item>, item: Item): seq<Item> {
    if item.coalesce then Replace(items, item) else items + [item]
  }

  // In place of the first item of the same source, else at the end.
  function Replace(items: seq<Item>, item: Item): seq<Item> {
    if items == [] then [item]
    else if items[0].source == item.source then [item] + items[1..]
    else [items[0]] + Replace(items[1..], item)
  }

  predicate IsNotification(item: Item, notifId: string) {
    item.call.Call? && item.call.action == "notification" && item.call.notifId == Some(notifId)
  }

  function Without(items: seq<Item>, notifId: string): seq<Item> {
    if items == [] then []
    else if IsNotification(items[0], notifId) then items[1..]
    else [items[0]] + Without(items[1..], notifId)
  }

  type Tracker = map<string, string>

  // One drained item.
  function Splice(entries: seq<Entry>, tracker: Tracker, item: Item): (seq<Entry>, Tracker)
    requires Formed(item)
  {
    var pruned :=
      if item.replaceInHistory && item.source in tracker then RemovePair(entries, tracker[item.source]) else entries;
    var entries' := AddResult(pruned + [Entry(Assistant, [item.call])], item.result);
    (entries', if item.replaceInHistory then tracker[item.source := item.call.id] else tracker)
  }

  function SpliceAll(entries: seq<Entry>, tracker: Tracker, items: seq<Item>): (seq<Entry>, Tracker)
    requires forall item <- items :: Formed(item)
  {
    if items == [] then (entries, tracker)
    else
      var (entries', tracker') := SpliceAll(entries, tracker, items[..|items| - 1]);
      Splice(entries', tracker', items[|items| - 1])
  }

  class AppendixTracker {
    var ids: Tracker
  }

  class Inbox {
    var items: seq<Item>

    method Enqueue(item: Item)
      modifies this
      ensures items == Put(old(items), item)
    {
      if item.coalesce {
        var i := 0;
        assert items[0..] == items;
        while i < |items|
          invariant 0 <= i <= |items| && items == old(items)
          invariant Replace(items, item) == items[..i] + Replace(items[i..], item)
        {
          if items[i].source == item.source {
            assert items[i..][1..] == items[i + 1..];
            items := items[i := item];
            return;
          }
          assert items[i..][1..] == items[i + 1..];
          i := i + 1;
        }
      }
      items := items + [item];
    }

    method Drain() returns (drained: seq<Item>)
      modifies this
      ensures drained == old(items) && items == []
    {
      drained, items := items, [];
    }

    // Splices the queue at a safe boundary; does nothing while calls are pending.
    method DrainInto(chat: ChatInterface, tracker: AppendixTracker) returns (drained: bool, count: nat)
      requires forall item <- items :: Formed(item)
      modifies this, chat, tracker
      ensures var entries := old(chat.entries);
              drained <==> entries == [] || entries[|entries| - 1].role != Assistant
                           || forall b <- entries[|entries| - 1].content :: !b.Call?
      ensures !drained ==> items == old(items) && chat.entries == old(chat.entries) && tracker.ids == old(tracker.ids)
      ensures drained ==> items == [] && count == |old(items)|
      ensures drained ==> (chat.entries, tracker.ids) == SpliceAll(old(chat.entries), old(tracker.ids), old(items))
    {
      var pending := chat.HasPendingToolCalls();
      if pending {
        return false, 0;
      }
      var batch := Drain();
      for i := 0 to |batch|
        invariant items == []
        invariant (chat.entries, tracker.ids) == SpliceAll(old(chat.entries), old(tracker.ids), batch[..i])
      {
        var item := batch[i];
        assert batch[..i + 1] == batch[..i] + [item];
        SpliceItem(chat, tracker, item);
      }
      assert batch[..|batch|] == batch;
      return true, |batch|;
    }

    static method SpliceItem(chat: ChatInterface, tracker: AppendixTracker, item: Item)
      requires Formed(item)
      modifies chat, tracker
      ensures (chat.entries, tracker.ids) == Splice(old(chat.entries), old(tracker.ids), item)
    {
      if item.replaceInHistory {
        if item.source in tracker.ids {
          var _ := chat.RemovePairByCallId(tracker.ids[item.source]);
        }
        tracker.ids := tracker.ids - {item.source};
      }
      chat.AddAssistantMessage([item.call]);
      chat.AddToolResult(item.result);
      if item.replaceInHistory {
        tracker.ids := tracker.ids[item.source := item.call.id];
        assert tracker.ids == old(tracker.ids)[item.source := item.call.id];
      }
    }

    method RemoveByNotifId(notifId: string) returns (removed: bool)
      modifies this
      ensures items == Without(old(items), notifId)
      ensures removed <==> exists item <- old(items) :: IsNotification(item, notifId)
    {
      var i := 0;
      assert items[0..] == items;
      while i < |items|
        invariant 0 <= i <= |items| && items == old(items)
        invariant Without(items, notifId) == items[..i] + Without(items[i..], notifId)
        invariant forall j :: 0 <= j < i ==> !IsNotification(items[j], notifId)
      {
        assert items[i..][1..] == items[i + 1..];
        if IsNotification(items[i], notifId) {
          assert items[i] in old(items);
          items := items[..i] + items[i + 1..];
          return true;
        }
        i := i + 1;
      }
      removed := false;
    }
  }
}
