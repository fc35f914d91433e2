/** What was said is what is sent, and what comes back when it is parsed
    (src/lingtai/llm/interface_converters.py), block by block. */
module WireContent {
  import opened Wrappers
  import opened WireFormats
  import G = GeminiTurns
  import R = ResponsesInput

  // ----- picking some of the elements, in order -----

  // How many elements are of a kind; so the place of the next one among them.
  function Tally<T>(s: seq<T>, kind: T -> bool): nat {
    if s == [] then 0 else Tally(s[..|s| - 1], kind) + if kind(s[|s| - 1]) then 1 else 0
  }

  const SPOKEN: Entry -> bool := (e: Entry) => e.role != System
  const TEXT: Block -> bool := (b: Block) => b.Text?
  const CALL: Block -> bool := (b: Block) => b.Call?
  const RESULT: Block -> bool := (b: Block) => b.Result?

  // A thought that is replayed or has text to show.
  const THOUGHT: Block -> bool := (b: Block) => b.Thinking? && (b.raw.Some? || b.text != "")

  // The turns of a history are all its entries but the system ones, in order.
  lemma {:induction false} TurnsAre(entries: seq<Entry>, k: nat)
    requires k < |entries|
    ensures |Turns(entries)| == Tally(entries, SPOKEN) && Tally(entries[..k], SPOKEN) <= Tally(entries, SPOKEN)
    ensures SPOKEN(entries[k]) ==>
              var i := Tally(entries[..k], SPOKEN);
              i < |Turns(entries)| && Turns(entries)[i] == entries[k]
    decreases |entries|
  {
    var init := entries[..|entries| - 1];
    if k < |init| {
      assert entries[..k] == init[..k];
      TurnsAre(init, k);
    } else if init != [] {
      TurnsAre(init, 0);
    }
  }

  // ----- Anthropic -----

  // The text a result's content goes as.
  predicate Reads(content: Content, text: string) {
    content == Plain(text) || content == Object(text)
  }

  predicate OnAnthropic(b: Block, w: ABlock) {
    match b
    case Text(text) => w == AText(text)
    case Thinking(text, signature, _) => w == AThinking(text, signature)
    case Call(id, name, args) => w == AToolUse(id, name, args)
    case Result(id, _, content, _) => w.AToolResult? && w.toolUseId == id && Reads(content, w.content)
  }

  // A message is its entry, block by block; a user's lone text goes as a string.
  predicate Spells(e: Entry, m: AMessage) {
    && (m.assistant <==> e.role == Assistant)
    && match m.body
       case AString(text) => e.role == User && e.content == [Text(text)]
       case AList(blocks) =>
         && (e.role == User && |e.content| == 1 ==> !e.content[0].Text?)
         && |blocks| == |e.content| && forall j :: 0 <= j < |blocks| ==> OnAnthropic(e.content[j], blocks[j])
  }

  lemma {:induction false} AnthropicSays(entries: seq<Entry>, k: nat)
    requires k < |Turns(entries)|
    ensures |ToAnthropic(entries)| == |Turns(entries)| && Spells(Turns(entries)[k], ToAnthropic(entries)[k])
  {
    TurnsHaveNoSystem(entries);
  }

  // What a block is after serializing and parsing: results lose their name and become text.
  predicate BackFromAnthropic(b: Block, p: Block) {
    match b
    case Text(text) => p == Text(text)
    case Thinking(text, signature, _) => p == Thinking(text, signature, None)
    case Call(id, name, args) => p == Call(id, name, args)
    case Result(id, _, content, _) =>
      p.Result? && p.id == id && p.name == "" && !p.synthesized && p.content.Plain? && Reads(content, p.content.text)
  }

  // The system prompt, if there is one, stands in front.
  predicate Opens(parsed: seq<Entry>, prompt: string, n: nat) {
    if prompt == "" then n == 0 else n == 1 && |parsed| > 0 && parsed[0] == Entry(System, [Text(prompt)])
  }

  lemma {:induction false} ParsedTurn(turns: seq<Entry>, prompt: string, k: nat)
    requires k < |turns|
    ensures var parsed, n := Parsed(turns, prompt), if prompt == "" then 0 else 1;
            |parsed| == n + |turns| && parsed[n + k] == Canon(turns[k]) && Opens(parsed, prompt, n)
  {
    var init := turns[..|turns| - 1];
    if init == [] {
      assert Parsed(init, prompt) == Opening(prompt);
    } else {
      ParsedTurn(init, prompt, if k < |init| then k else 0);
    }
  }

  // For every safe history the parsed serialization is the prompt and then turn by
  // turn, block by block, what was said.
  lemma {:induction false} AnthropicKeepsContent(entries: seq<Entry>, prompt: string, k: nat, j: nat)
    requires AnthropicSafeAll(Turns(entries)) && k < |Turns(entries)| && j < |Turns(entries)[k].content|
    ensures var r := FromAnthropic(ToAnthropic(entries), prompt);
            var turn, n := Turns(entries)[k], if prompt == "" then 0 else 1;
            && r.Ok? && |r.value| == n + |Turns(entries)| && Opens(r.value, prompt, n)
            && r.value[n + k].role == turn.role && |r.value[n + k].content| == |turn.content|
            && BackFromAnthropic(turn.content[j], r.value[n + k].content[j])
  {
    TurnsHaveNoSystem(entries);
    SafeParses(Turns(entries), ToAnthropic(entries), prompt);
    ParsedTurn(Turns(entries), prompt, k);
    AnthropicBlock(Turns(entries)[k], j);
  }

  lemma {:induction false} AnthropicBlock(e: Entry, j: nat)
    requires j < |e.content|
    ensures var c := Canon(e);
            c.role == e.role && |c.content| == |e.content| && BackFromAnthropic(e.content[j], c.content[j])
  {
  }

  // A message whose body is a string becomes a lone text of its sender; a user's is
  // refused right behind a call.
  lemma {:induction false} StringBecomesText(entries: seq<Entry>, m: AMessage)
    requires m.body.AString?
    ensures m.assistant ==> AddAMessage(entries, m) == Ok(entries + [Entry(Assistant, [Text(m.body.text)])])
    ensures !m.assistant ==>
              AddAMessage(entries, m) ==
              if OpenBefore(entries, |entries|) then Err(PendingToolCalls)
              else Ok(entries + [Entry(User, [Text(m.body.text)])])
  {
  }

  // ----- results that come late -----

  // The j-th block is the first placeholder for this call.
  predicate FirstIn(content: seq<Block>, id: string, j: nat) {
    && j < |content| && content[j].Result? && content[j].id == id && content[j].synthesized
    && forall i :: 0 <= i < j && content[i].Result? && content[i].id == id ==> !content[i].synthesized
  }

  predicate NoneIn(content: seq<Block>, id: string) {
    forall i :: 0 <= i < |content| && content[i].Result? && content[i].id == id ==> !content[i].synthesized
  }

  lemma {:induction false} FillsFirstIn(content: seq<Block>, r: Block, j: nat)
    requires r.Result? && FirstIn(content, r.id, j)
    ensures ReplaceIn(content, r) == Some(content[j := r])
    decreases j
  {
    if j > 0 {
      var rest := content[1..];
      assert forall i :: 0 <= i < |rest| ==> rest[i] == content[i + 1];
      FillsFirstIn(rest, r, j - 1);
      assert [content[0]] + rest[j - 1 := r] == content[j := r];
    } else {
      assert [r] + content[1..] == content[0 := r];
    }
  }

  lemma {:induction false} FillsNoneIn(content: seq<Block>, r: Block)
    requires r.Result? && NoneIn(content, r.id)
    ensures ReplaceIn(content, r) == None
  {
    if content != [] {
      assert forall i :: 0 <= i < |content[1..]| ==> content[1..][i] == content[i + 1];
      FillsNoneIn(content[1..], r);
    }
  }

  // A result takes the place of the first placeholder for its call in a user entry,
  // and is not appended.
  lemma {:induction false} LateResultFills(entries: seq<Entry>, r: Block, k: nat, j: nat)
    requires r.Result? && k < |entries| && entries[k].role == User && FirstIn(entries[k].content, r.id, j)
    requires forall i :: 0 <= i < k && entries[i].role == User ==> NoneIn(entries[i].content, r.id)
    ensures Replace(entries, r) == Some(entries[k := Entry(User, entries[k].content[j := r])])
    ensures AddToolResults(entries, [r], []) == entries[k := Entry(User, entries[k].content[j := r])]
    decreases k
  {
    if k > 0 {
      var rest := entries[1..];
      if entries[0].role == User {
        FillsNoneIn(entries[0].content, r);
      }
      assert forall i :: 0 <= i < |rest| ==> rest[i] == entries[i + 1];
      LateResultFills(rest, r, k - 1, j);
      assert [entries[0]] + rest[k - 1 := Entry(User, rest[k - 1].content[j := r])] ==
             entries[k := Entry(User, entries[k].content[j := r])];
    } else {
      FillsFirstIn(entries[0].content, r, j);
      assert [Entry(User, entries[0].content[j := r])] + entries[1..] ==
             entries[0 := Entry(User, entries[0].content[j := r])];
    }
    assert [r][1..] == [];
  }

  // ----- Gemini -----

  predicate OnGemini(b: Block, w: G.GBlock) {
    match b
    case Text(text) => w == G.GText(text)
    case Thinking(text, _, _) => w == G.GThought(if text == "" then [] else [text])
    case Call(id, name, args) => w == G.GCall(id, name, args)
    case Result(id, name, content, _) => w.GResult? && w.callId == id && w.name == name && Reads(content, w.result)
  }

  lemma {:induction false} GeminiSays(entries: seq<Entry>, k: nat)
    requires k < |Turns(entries)|
    ensures var turn := Turns(entries)[k];
            && |G.ToGemini(entries)| == |Turns(entries)|
            && var w := G.ToGemini(entries)[k];
               && (w.model <==> turn.role == Assistant) && |w.content| == |turn.content|
               && forall j :: 0 <= j < |w.content| ==> OnGemini(turn.content[j], w.content[j])
  {
  }

  // Here a thought loses its signature and a result keeps its name.
  predicate BackFromGemini(b: Block, p: Block) {
    match b
    case Text(text) => p == Text(text)
    case Thinking(text, _, _) => p == Thinking(text, "", None)
    case Call(id, name, args) => p == Call(id, name, args)
    case Result(id, name, content, _) =>
      p.Result? && p.id == id && p.name == name && !p.synthesized && p.content.Plain? && Reads(content, p.content.text)
  }

  lemma {:induction false} GeminiParsedTurn(turns: seq<Entry>, prompt: string, k: nat)
    requires k < |turns|
    ensures var parsed, n := G.Parsed(turns, prompt), if prompt == "" then 0 else 1;
            |parsed| == n + |turns| && parsed[n + k] == G.Canon(turns[k]) && Opens(parsed, prompt, n)
  {
    var init := turns[..|turns| - 1];
    if init == [] {
      assert G.Parsed(init, prompt) == Opening(prompt);
    } else {
      GeminiParsedTurn(init, prompt, if k < |init| then k else 0);
    }
  }

  lemma {:induction false} GeminiKeepsContent(entries: seq<Entry>, prompt: string, k: nat, j: nat)
    requires G.GeminiSafeAll(Turns(entries)) && k < |Turns(entries)| && j < |Turns(entries)[k].content|
    ensures var r := G.FromGemini(G.ToGemini(entries), prompt);
            var turn, n := Turns(entries)[k], if prompt == "" then 0 else 1;
            && r.Ok? && |r.value| == n + |Turns(entries)| && Opens(r.value, prompt, n)
            && r.value[n + k].role == turn.role && |r.value[n + k].content| == |turn.content|
            && BackFromGemini(turn.content[j], r.value[n + k].content[j])
  {
    TurnsHaveNoSystem(entries);
    G.SafeParses(Turns(entries), G.ToGemini(entries), prompt);
    GeminiParsedTurn(Turns(entries), prompt, k);
    GeminiBlock(Turns(entries)[k], j);
  }

  lemma {:induction false} GeminiBlock(e: Entry, j: nat)
    requires j < |e.content|
    ensures var c := G.Canon(e);
            c.role == e.role && |c.content| == |e.content| && BackFromGemini(e.content[j], c.content[j])
  {
  }

  // ----- Responses -----

  // The items of each entry stand together, behind those of the entries before it.
  lemma {:induction false} ItemsInOrder(entries: seq<Entry>, k: nat)
    requires k < |entries|
    ensures R.ItemsOf(entries, k) + R.EntryItems(entries[k]) <= R.RealItems(entries)
    ensures R.RealItems(entries) <= R.ToResponsesInput(entries)
  {
    R.ItemsGrow(entries, k + 1, |entries|);
  }

  predicate IsOutput(b: Block, item: R.RItem) {
    b.Result? && item.FunctionOutput? && item.callId == b.id && Reads(b.content, item.output)
  }

  predicate IsCall(b: Block, item: R.RItem) {
    b.Call? && item == R.FunctionCall(b.id, b.name, b.args)
  }

  // A stored reasoning item is replayed, else the text is shown.
  predicate IsThought(b: Block, item: R.RItem) {
    b.Thinking? && item == if b.raw.Some? then R.RawReasoning(b.raw.value) else R.Reasoning(b.text)
  }

  predicate IsText(b: Block, text: string) {
    b == Text(text)
  }

  // Each list holds exactly the blocks of its kind, in their order.
  lemma {:induction false} OutputsAre(content: seq<Block>, k: nat)
    requires k < |content|
    ensures |R.Outputs(content)| == Tally(content, RESULT) && Tally(content[..k], RESULT) <= Tally(content, RESULT)
    ensures RESULT(content[k]) ==>
              var i := Tally(content[..k], RESULT);
              i < |R.Outputs(content)| && IsOutput(content[k], R.Outputs(content)[i])
    decreases |content|
  {
    var init := content[..|content| - 1];
    if k < |init| {
      assert content[..k] == init[..k];
      OutputsAre(init, k);
    } else if init != [] {
      OutputsAre(init, 0);
    }
  }

  lemma {:induction false} CallsAre(content: seq<Block>, k: nat)
    requires k < |content|
    ensures |R.Calls(content)| == Tally(content, CALL) && Tally(content[..k], CALL) <= Tally(content, CALL)
    ensures CALL(content[k]) ==>
              var i := Tally(content[..k], CALL);
              i < |R.Calls(content)| && IsCall(content[k], R.Calls(content)[i])
    decreases |content|
  {
    var init := content[..|content| - 1];
    if k < |init| {
      assert content[..k] == init[..k];
      CallsAre(init, k);
    } else if init != [] {
      CallsAre(init, 0);
    }
  }

  lemma {:induction false} ThoughtsAre(content: seq<Block>, k: nat)
    requires k < |content|
    ensures |R.Thoughts(content)| == Tally(content, THOUGHT) && Tally(content[..k], THOUGHT) <= Tally(content, THOUGHT)
    ensures THOUGHT(content[k]) ==>
              var i := Tally(content[..k], THOUGHT);
              i < |R.Thoughts(content)| && IsThought(content[k], R.Thoughts(content)[i])
    decreases |content|
  {
    var init := content[..|content| - 1];
    if k < |init| {
      assert content[..k] == init[..k];
      ThoughtsAre(init, k);
    } else if init != [] {
      ThoughtsAre(init, 0);
    }
  }

  lemma {:induction false} TextsAre(content: seq<Block>, k: nat)
    requires k < |content|
    ensures |R.Texts(content)| == Tally(content, TEXT) && Tally(content[..k], TEXT) <= Tally(content, TEXT)
    ensures TEXT(content[k]) ==>
              var i := Tally(content[..k], TEXT);
              i < |R.Texts(content)| && IsText(content[k], R.Texts(content)[i])
    decreases |content|
  {
    var init := content[..|content| - 1];
    if k < |init| {
      assert content[..k] == init[..k];
      TextsAre(init, k);
    } else if init != [] {
      TextsAre(init, 0);
    }
  }

  // Each further part goes on a line of its own.
  lemma {:induction false} JoinedByNewlines(parts: seq<string>, part: string)
    ensures R.JoinLines(parts + [part]) == if parts == [] then part else R.JoinLines(parts) + "\n" + part
  {
    if parts != [] {
      var rest := parts[1..];
      assert (parts + [part])[1..] == rest + [part];
      JoinedByNewlines(rest, part);
    }
  }

  // An assistant entry: its thoughts, then its text if it has any, then its calls.
  lemma {:induction false} AssistantItems(e: Entry) returns (thoughts: nat, calls: nat)
    requires e.role == Assistant
    ensures var items, text := R.EntryItems(e), R.JoinLines(R.Texts(e.content));
            && thoughts <= calls <= |items|
            && items[..thoughts] == R.Thoughts(e.content) && items[calls..] == R.Calls(e.content)
            && items[thoughts..calls] == if text == "" then [] else [R.AssistantText(text)]
  {
    thoughts := |R.Thoughts(e.content)|;
    calls := |R.EntryItems(e)| - |R.Calls(e.content)|;
  }

  // A user entry: its results if it starts with one, else one text.
  lemma {:induction false} UserItems(e: Entry)
    requires e.role == User
    ensures e.content != [] && e.content[0].Result? ==> R.EntryItems(e) == R.Outputs(e.content)
    ensures !(e.content != [] && e.content[0].Result?) ==>
              R.EntryItems(e) == [R.UserText(R.JoinLines(R.Texts(e.content)))]
  {
  }
}
